/** BLPOP, XREAD and WAIT from the turn that takes them to their answer. */
module BlockingCommands {
  import opened Wrappers
  import opened Decimal
  import opened Resp
  import opened Responses
  import opened Keyspace
  import opened Commands
  import opened ReplicationStream
  import opened Processor
  import opened Invariants
  import opened Ledger
  import opened Blocking
  import opened Growth
  import opened Arrival
  import opened ReadPositions
  import opened Outcomes
  import opened PopOutcomes
  import opened ReadOutcomes
  import opened WaitOutcomes
  import opened BlockedRuns
  import opened ReadBack

  predicate BlockingVerb(verb: Verb) {
    verb.Blpop? || verb.Xread? || verb.Wait?
  }

  function PopAsked(task: Task, env: Env): Option<Blocked> {
    if |task.command| != 3 || env.context(0).timeout(task.command[2]).None? then None
    else Some(BlockedPop(PendingPop(task, task.command[1], Deadline(env.now, env.context(0).timeout(task.command[2]).value))))
  }

  function ReadAsked(s: State, task: Task, env: Env): Option<Blocked> {
    match ParseXread(task.command)
    case None => None
    case Some(read) =>
      var pending := PendingRead(task, PositionAll(s.db, read.requests), ReadDeadline(read.mode, env.now));
      Some(BlockedRead(pending, s.db, read.requests, read.mode))
  }

  /** The target of a WAIT is what its client has written by then. */
  function WaitAsked(s: State, task: Task, env: Env): Option<Blocked> {
    if !s.replication.role.Master? || ParseWait(task.command).None? then None
    else
      var request := ParseWait(task.command).value;
      var target := WriteOffset(s.replication, task.client);
      Some(BlockedWait(PendingWait(task, request.required, target, Deadline(env.now, request.timeout))))
  }

  /** What a blocking command asks for; None when it is not admitted or malformed. */
  function AskedFor(s: State, task: Task, env: Env): (r: Option<Blocked>)
    ensures r.Some? ==> TaskOf(r.value) == task
  {
    if !Admitted(s, task) then None
    else if VerbOf(task.command).Blpop? then PopAsked(task, env)
    else if VerbOf(task.command).Xread? then ReadAsked(s, task, env)
    else WaitAsked(s, task, env)
  }

  /* ---------- What follows a task in its turn ---------- */

  /** A pop touches a list or nothing. */
  lemma PopStreams(db: Db, key: Bytes, now: nat)
    requires DbOk(db)
    ensures SameStreams(db, PopDb(db, key, now))
  {
    forall other ensures StreamAt(db, other) == StreamAt(PopDb(db, key, now), other) {
      SettleStream(db, key, now, other);
    }
  }

  lemma {:induction false} RetryPopsStreams(s: State, queue: seq<PendingPop>, kept: seq<PendingPop>, env: Env)
    requires DbOk(s.db)
    ensures var t := RetryPops(s, queue, kept, env); DbOk(t.db) && SameStreams(s.db, t.db)
    decreases |queue|
  {
    hide DbOk, AttemptPop, SameStreams, PopDb, PopFinds;
    SameItself(s.db);
    if queue != [] {
      var attempt := AttemptPop(s, queue[0].task, queue[0].key, env);
      AttemptShape(s, queue[0].task, queue[0].key, env);
      AttemptLeavesNothing(s, queue[0].task, queue[0].key, env);
      PopStreams(s.db, queue[0].key, env.now);
      RetryPopsStreams(attempt.state, queue[1..], if attempt.served then kept else kept + [queue[0]], env);
      SameTrans(s.db, attempt.state.db, RetryPops(s, queue, kept, env).db);
    }
  }

  lemma AttemptCounts(s: State, task: Task, key: Bytes, env: Env, target: nat)
    ensures Count(AttemptPop(s, task, key, env).state, target) == Count(s, target)
  {
    hide CountReached, AtTarget, Record, SerializeCommand, Settle, Apply, Look, PopOne;
    var settled := Settle(s.db, key, env.now);
    var after := s.(db := Apply(settled, key, PopOne(Look(settled, key)).change));
    RecordCounts(after, task.client, task.source, SerializeCommand(["LPOP", key]), env, target);
  }

  lemma {:induction false} RetryPopsCounts(s: State, queue: seq<PendingPop>, kept: seq<PendingPop>, env: Env, target: nat)
    ensures Count(RetryPops(s, queue, kept, env), target) == Count(s, target)
    decreases |queue|
  {
    hide AttemptPop, AtTarget;
    if queue != [] {
      var attempt := AttemptPop(s, queue[0].task, queue[0].key, env);
      AttemptCounts(s, queue[0].task, queue[0].key, env, target);
      RetryPopsCounts(attempt.state, queue[1..], if attempt.served then kept else kept + [queue[0]], env, target);
    }
  }

  lemma {:induction false} RetryReadsCounts(s: State, queue: seq<PendingRead>, kept: seq<PendingRead>, env: Env, target: nat)
    ensures Count(RetryReads(s, queue, kept, env), target) == Count(s, target)
    decreases |queue|
  {
    hide ReadStreams, XreadResponse, AtTarget;
    if queue != [] {
      var reading := ReadStreams(s.db, queue[0].requests, env.now);
      var after := s.(db := reading.db);
      if reading.results.None? {
        RetryReadsCounts(Answer(after, queue[0].task, WRONGTYPE), queue[1..], kept, env, target);
      } else if reading.results.value == [] {
        RetryReadsCounts(after, queue[1..], kept + [queue[0].(requests := reading.requests)], env, target);
      } else {
        RetryReadsCounts(Answer(after, queue[0].task, XreadResponse(reading.results.value)), queue[1..], kept, env, target);
      }
    }
  }

  /** The rest of a turn leaves all streams, what is no list, and the count of the replicas that reached a target. */
  lemma TurnLeaves(s: State, env: Env, key: Bytes, target: nat)
    requires DbOk(s.db)
    ensures var t := ExpireAll(RetryAll(s, env), env.now);
            && SameStreams(s.db, t.db) && Count(t, target) == Count(s, target)
            && (NoList(s.db, key, env.now) ==> NoList(t.db, key, env.now))
  {
    hide DbOk, SameStreams, RetryPops, RetryReads, RetryWaits, ExpireAll, Count;
    var a := RetryPops(s, s.pendingPops, [], env);
    var b := RetryReads(a, a.pendingReads, [], env);
    RetryPopsStreams(s, s.pendingPops, [], env);
    RetryReadsStreams(a, a.pendingReads, [], env);
    SameTrans(s.db, a.db, b.db);
    RetryPopsCounts(s, s.pendingPops, [], env, target);
    RetryReadsCounts(a, a.pendingReads, [], env, target);
    RetryWaitsCounts(b, b.pendingWaits, [], target);
    RetryWaitsSame(b, b.pendingWaits, []);
    ExpireAllLeaves(RetryAll(s, env), env.now, target);
    if NoList(s.db, key, env.now) {
      RetryPopsNoList(s, s.pendingPops, [], env, key);
      RetryReadsStays(a, a.pendingReads, [], env, key);
    }
  }

  /* ---------- The turn that takes the command ---------- */

  /** The command blocks, or is answered as it may be. */
  ghost predicate BlocksOrMeets(s: State, t: State, b: Blocked, o: Occasion) {
    || (t.replies == s.replies && Pends(t, b))
    || (exists response :: t.replies == s.replies + [Reply(IdOf(b), response)] && Meets(b, o, response))
  }

  lemma BlpopTaken(s: State, task: Task, env: Env, o: Occasion)
    requires PopAsked(task, env).Some? && o.event.Work? && o.event.env == env && |task.command| == 3
    requires NoList(ProcessBlpop(s, task, env).db, task.command[1], env.now) ==> NoList(o.after.db, task.command[1], env.now)
    ensures BlocksOrMeets(s, ProcessBlpop(s, task, env), PopAsked(task, env).value, o)
  {
    hide AttemptPop, Meets, NoList, AttemptAnswer;
    var b := PopAsked(task, env).value;
    var key := task.command[1];
    var attempt := AttemptPop(s, task, key, env);
    if attempt.served {
      var response := AttemptTells(s, task, key, env);
      AttemptMeets(b, o, attempt.state.db, response);
    } else {
      AttemptAnswers(s, b.pop, env);
    }
  }

  lemma XreadTaken(s: State, task: Task, env: Env, o: Occasion)
    requires DbOk(s.db) && ReadAsked(s, task, env).Some? && o.event.Work? && o.event.env == env && o.before == s
    requires SameStreams(ProcessXread(s, task, env).db, o.after.db)
    ensures BlocksOrMeets(s, ProcessXread(s, task, env), ReadAsked(s, task, env).value, o)
  {
    hide DbOk, ParseXread, ReadStreams, AnswerOrBlock, Meets, PositionAll, SameStreams, SomeNoStream, BlocksOrMeets, Due;
    var b := ReadAsked(s, task, env).value;
    var reading := ReadStreams(s.db, b.requests, env.now);
    AnswerDb(s.(db := reading.db), task, b.mode, reading, env.now);
    if reading.results.None? {
      RefusedReading(s.db, b.requests, env.now);
      WrongTypeMeets(b, o);
    } else {
      ReadingStart(s.db, b.requests, env.now, o.after.db);
      FirstReadingDue(Question(s.db, b.requests, o.after.db), env.now);
      if reading.results.value != [] {
        EntriesMeet(b, o, reading.results.value);
      } else if b.mode.Immediate? {
        ImmediateMeets(b, o);
      }
    }
    AnswerMeets(s, s.(db := reading.db), task, reading, env.now, b, o);
  }

  lemma ImmediateMeets(b: Blocked, o: Occasion)
    requires b.BlockedRead? && b.mode.Immediate? && Due(b.held, b.requests, o.after.db) == []
    ensures Meets(b, o, NullArray)
  {
    hide PopAnswer, WaitAnswer, SomeNoStream, XreadResponse, Due;
  }

  lemma AnswerDb(s: State, task: Task, mode: ReadMode, reading: Reading, now: nat)
    ensures AnswerOrBlock(s, task, mode, reading, now).db == s.db
  {
    hide XreadResponse;
  }

  lemma AnswerMeets(s: State, after: State, task: Task, reading: Reading, now: nat, b: Blocked, o: Occasion)
    requires b.BlockedRead? && b.read == PendingRead(task, b.read.requests, ReadDeadline(b.mode, now))
    requires after.replies == s.replies && after.pendingReads == s.pendingReads
    requires reading.results.None? ==> Meets(b, o, WRONGTYPE)
    requires reading.results.Some? && reading.results.value != [] ==> Meets(b, o, XreadResponse(reading.results.value))
    requires reading.results == Some([]) ==>
               reading.requests == b.read.requests && (b.mode.Immediate? ==> Meets(b, o, NullArray))
    ensures BlocksOrMeets(s, AnswerOrBlock(after, task, b.mode, reading, now), b, o)
  {
    hide XreadResponse, Meets, ReadDeadline;
  }

  lemma WaitTaken(s: State, task: Task, env: Env, o: Occasion)
    requires WaitAsked(s, task, env).Some?
    requires Count(ProcessWait(s, task, env), WriteOffset(s.replication, task.client)) ==
             Count(o.after, WriteOffset(s.replication, task.client))
    ensures BlocksOrMeets(s, ProcessWait(s, task, env), WaitAsked(s, task, env).value, o)
  {
    hide ParseWait, CountReached, AtTarget, Prune, AppendFrame, Meets, SerializeCommand;
    var b := WaitAsked(s, task, env).value;
    var count := CountReached(s.replication.sessions, s.replication.acknowledged, b.wait.target);
    CountTrue(s, b.wait.target);
    if b.wait.target == 0 || count >= b.wait.required {
      PruneCounts(s, b.wait.target);
      CountMeets(b, o, count);
    }
  }

  /** Which part of the processor an admitted command reaches. */
  lemma AdmittedRuns(s: State, task: Task, env: Env)
    requires BlockingVerb(VerbOf(task.command)) && Admitted(s, task)
    ensures VerbOf(task.command).Blpop? ==> ProcessTask(s, task, env) == ProcessBlpop(s, task, env)
    ensures VerbOf(task.command).Xread? ==> ProcessTask(s, task, env) == ProcessXread(s, task, env)
    ensures VerbOf(task.command).Wait? ==> ProcessTask(s, task, env) == ProcessWait(s, task, env)
  {
    hide VerbOf, IsWrite, ProcessBlpop, ProcessXread, ProcessWait, ProcessDirect, Refuse, RefuseWrite;
  }

  lemma NotAdmittedRefused(s: State, task: Task, env: Env)
    requires BlockingVerb(VerbOf(task.command)) && !Admitted(s, task)
    ensures Refused(s, ProcessTask(s, task, env), task)
  {
    assert task.command != [];
    hide VerbOf, IsWrite, Refused, ProcessBlpop, ProcessXread, ProcessWait, ProcessDirect, Refuse, RefuseWrite;
    RefuseRefused(s, task, NOAUTH, env);
    RefuseRefused(s, task, ERR, env);
    RefuseWriteRefused(s, task);
    if task.client in s.transactions {
      QueuedRefused(s, task, env);
    }
  }

  /** A malformed command is answered with an error. */
  lemma MalformedRefused(s: State, task: Task, env: Env)
    ensures PopAsked(task, env).None? ==> Refused(s, ProcessBlpop(s, task, env), task)
    ensures ReadAsked(s, task, env).None? ==> Refused(s, ProcessXread(s, task, env), task)
    ensures WaitAsked(s, task, env).None? ==> Refused(s, ProcessWait(s, task, env), task)
  {
    hide AttemptPop, ParseXread, ReadStreams, AnswerOrBlock, ParseWait, Prune, AppendFrame, CountReached, PositionAll;
    assert TurnedAway(ERR) && Answer(s, task, ERR).replies == s.replies + [Reply(task.id, ERR)];
  }

  lemma TaskTaken(s: State, task: Task, env: Env, o: Occasion)
    requires DbOk(s.db) && ClocksRun(env) && BlockingVerb(VerbOf(task.command))
    requires o == Occasion(s, Work(CommandTask(task), env), Step(s, CommandTask(task), env))
    ensures var t := ProcessTask(s, task, env);
            if AskedFor(s, task, env).Some? then BlocksOrMeets(s, t, AskedFor(s, task, env).value, o) else Refused(s, t, task)
  {
    hide DbOk, ClocksRun, VerbOf, Refused, ProcessTask, ProcessBlpop, ProcessXread, ProcessWait, RetryAll, ExpireAll,
         SameStreams, Count, NoList, BlocksOrMeets, ReadAsked, WaitAsked, Admitted;
    var t := ProcessTask(s, task, env);
    ProcessedDb(s, CommandTask(task), env);
    if !Admitted(s, task) {
      NotAdmittedRefused(s, task, env);
    } else {
      AdmittedRuns(s, task, env);
      MalformedRefused(s, task, env);
      TurnLeaves(t, env, if |task.command| > 1 then task.command[1] else [], WriteOffset(s.replication, task.client));
      if VerbOf(task.command).Blpop? && PopAsked(task, env).Some? {
        BlpopTaken(s, task, env, o);
      } else if VerbOf(task.command).Xread? && ReadAsked(s, task, env).Some? {
        XreadTaken(s, task, env, o);
      } else if VerbOf(task.command).Wait? && WaitAsked(s, task, env).Some? {
        WaitTaken(s, task, env, o);
      }
    }
  }

  lemma TakenTracked(s: State, t: State, b: Blocked, o: Occasion)
    requires BlocksOrMeets(s, t, b, o) && Account(t)[IdOf(b)] == 1
    ensures Tracked(t, |s.replies|, b, o)
  {
    hide Account, Pends, IdOf, Meets;
    if t.replies != s.replies {
      assert t.replies[|s.replies|].id == IdOf(b);
    }
  }

  lemma AskedResolved(s: State, task: Task, env: Env)
    requires DbOk(s.db) && AskedFor(s, task, env).Some?
    ensures Resolved(AskedFor(s, task, env).value)
  {
    hide DbOk, VerbOf, ParseXread, ParseWait, PositionAll, Admitted;
  }

  /** The turn that takes the command. */
  lemma TakenMeets(s: State, task: Task, env: Env)
    requires DbOk(s.db) && ClocksRun(env) && BlockingVerb(VerbOf(task.command)) && Account(s)[task.id] == 0
    requires AskedFor(s, task, env).Some?
    ensures var t := Step(s, CommandTask(task), env);
            var b := AskedFor(s, task, env).value;
            Waiting(t, b) && AllMeet(t.replies, |s.replies|, b, Occasion(s, Work(CommandTask(task), env), t))
  {
    hide DbOk, ClocksRun, VerbOf, Account, AskedFor, ProcessTask, BlocksOrMeets, Tracked, Waiting, AllMeet, Resolved,
         RetryAll, ExpireAll, Refused;
    var o := Occasion(s, Work(CommandTask(task), env), Step(s, CommandTask(task), env));
    var b := AskedFor(s, task, env).value;
    var processed := ProcessTask(s, task, env);
    TaskTaken(s, task, env, o);
    TaskAccount(s, task, env);
    TakenTracked(s, processed, b, o);
    ProcessedDb(s, CommandTask(task), env);
    AskedResolved(s, task, env);
    SettleTracked(processed, env, |s.replies|, b, o);
    TrackedWaiting(o.after, |s.replies|, b, o);
  }

  /** A command that was turned away has its one answer in the turn that took it. */
  lemma RefusedOnce(s: State, task: Task, env: Env, events: seq<Event>, q: nat)
    requires Account(s)[task.id] == 0 && AllElsewhere(events, task.id) && Refused(s, ProcessTask(s, task, env), task)
    requires var t := Run(Step(s, CommandTask(task), env), events);
             |s.replies| <= q < |t.replies| && t.replies[q].id == task.id
    ensures q < |Step(s, CommandTask(task), env).replies|
    ensures TurnedAway(Run(Step(s, CommandTask(task), env), events).replies[q].response)
  {
    hide Account, AllElsewhere, ProcessTask, RetryAll, ExpireAll, Run, TurnedAway;
    var processed := ProcessTask(s, task, env);
    var t := Step(s, CommandTask(task), env);
    var later := Run(t, events);
    RetryReplies(processed, env);
    ExpireReplies(RetryAll(processed, env), env.now);
    RunReplies(t, events);
    TaskAccount(s, task, env);
    SettleAccount(processed, env);
    ExpireAccount(RetryAll(processed, env), env.now);
    RunAccounted(t, events, task.id);
    assert processed.replies[|s.replies|].id == task.id;
    assert later.replies[|s.replies|] == processed.replies[|s.replies|];
    AnsweredOnce(later, |s.replies|, |s.replies| + 1);
  }

  /** A promise that no event submits keeps its place in the account. */
  lemma {:induction false} RunAccounted(s: State, events: seq<Event>, id: TaskId)
    requires AllElsewhere(events, id)
    ensures Account(Run(s, events))[id] == Account(s)[id]
    decreases |events|
  {
    hide Account, Next;
    if events != [] {
      assert Elsewhere(events[0], id);
      NextAccounted(s, events[0], id);
      RunAccounted(Next(s, events[0]), events[1..], id);
    }
  }

  lemma NextAccounted(s: State, event: Event, id: TaskId)
    requires Elsewhere(event, id)
    ensures Account(Next(s, event))[id] == Account(s)[id]
  {
    match event {
      case Work(t, env) =>
        hide Account, Step;
        StepAccount(s, t, env);
      case Tick(now) =>
        hide Account, ExpireAll;
        ExpireAccount(s, now);
      case Connection(_, _) =>
        hide StepSessions;
    }
  }

  /**
   Whatever a BLPOP, XREAD or WAIT is answered with, in the turn that takes it or after blocking through any
   run: a command that is not admitted or malformed is turned away in that turn; otherwise the event that
   answers answers as `Meets` says. So nothing is timed out before its deadline, without one, or while there
   was something to return.
   */
  lemma BlockingAnswered(s: State, task: Task, env: Env, events: seq<Event>, q: nat) returns (k: nat)
    requires DbOk(s.db) && BlockingVerb(VerbOf(task.command))
    requires Account(s)[task.id] == 0 && AllElsewhere(events, task.id)
    requires ClocksRun(env) && AllTimely(events)
    requires var t := Run(s, [Work(CommandTask(task), env)] + events); q < |t.replies| && t.replies[q].id == task.id
    ensures var all := [Work(CommandTask(task), env)] + events;
            var response := Run(s, all).replies[q].response;
            && GivenIn(s, all, k, q)
            && if AskedFor(s, task, env).Some? then Meets(AskedFor(s, task, env).value, OccasionAt(s, all, k), response)
               else k == 0 && TurnedAway(response)
  {
    hide DbOk, ClocksRun, VerbOf, Account, AllElsewhere, AllTimely, Run, Step, Quiet, AskedFor, Meets, Waiting,
         Resolved, TurnedAway, GivenIn, OccasionAt, ProcessTask, Refused;
    var event := Work(CommandTask(task), env);
    var all := [event] + events;
    var t := Step(s, CommandTask(task), env);
    RunFirst(s, event, events);
    assert all[0] == event && all[1..] == events && Next(s, event) == t;
    NotYet(s, task.id, Run(t, events), q) by {
      NextReplies(s, event);
      RunReplies(t, events);
    }
    if AskedFor(s, task, env).None? {
      TaskTaken(s, task, env, Occasion(s, event, t));
      RefusedOnce(s, task, env, events, q);
      k := 0;
      GivenNow(s, all, q);
    } else {
      k := AskedAnswered(s, task, env, events, q);
    }
  }

  lemma NotYet(s: State, id: TaskId, t: State, q: nat)
    requires Account(s)[id] == 0 && s.replies <= t.replies && q < |t.replies| && t.replies[q].id == id
    ensures |s.replies| <= q
  {
    hide Account;
    NowhereSilent(s, id);
    if q < |s.replies| {
      assert false;
    }
  }

  lemma AskedAnswered(s: State, task: Task, env: Env, events: seq<Event>, q: nat) returns (k: nat)
    requires DbOk(s.db) && BlockingVerb(VerbOf(task.command)) && AskedFor(s, task, env).Some?
    requires Account(s)[task.id] == 0 && AllElsewhere(events, task.id)
    requires ClocksRun(env) && AllTimely(events)
    requires var t := Run(Step(s, CommandTask(task), env), events);
             |s.replies| <= q < |t.replies| && t.replies[q].id == task.id
    ensures var all := [Work(CommandTask(task), env)] + events;
            && GivenIn(s, all, k, q)
            && Meets(AskedFor(s, task, env).value, OccasionAt(s, all, k),
                     Run(Step(s, CommandTask(task), env), events).replies[q].response)
  {
    hide DbOk, ClocksRun, VerbOf, Account, AllElsewhere, AllTimely, Run, Step, Quiet, AskedFor, Meets, Waiting,
         Resolved, GivenIn, OccasionAt;
    var event := Work(CommandTask(task), env);
    var all := [event] + events;
    var t := Step(s, CommandTask(task), env);
    assert all[0] == event && all[1..] == events && Next(s, event) == t;
    var b := AskedFor(s, task, env).value;
    TakenMeets(s, task, env);
    RunReplies(t, events);
    if q < |t.replies| {
      k := 0;
      GivenNow(s, all, q);
    } else {
      AskedResolved(s, task, env);
      StepQuiet(s, CommandTask(task), env);
      EventDb(s, event);
      k := BlockedAnswered(t, events, b, q);
      GivenLater(s, all, k, q);
      k := k + 1;
    }
  }

  /* ---------- What this says of each command ---------- */

  /** A BLPOP is told that its time is up only when it is, never without a timeout, and only while its key does not exist. */
  lemma BlpopTimesOutInTime(s: State, task: Task, env: Env, events: seq<Event>, q: nat) returns (k: nat)
    requires DbOk(s.db) && VerbOf(task.command).Blpop?
    requires Account(s)[task.id] == 0 && AllElsewhere(events, task.id)
    requires ClocksRun(env) && AllTimely(events)
    requires var t := Run(s, [Work(CommandTask(task), env)] + events);
             q < |t.replies| && t.replies[q] == Reply(task.id, NullArray)
    ensures |task.command| == 3 && k <= |events| && GivenIn(s, [Work(CommandTask(task), env)] + events, k, q)
    ensures var all := [Work(CommandTask(task), env)] + events;
            var timeout := env.context(0).timeout(task.command[2]);
            && timeout.Some? && timeout.value.Within? && env.now + timeout.value.milliseconds <= Clock(all[k])
            && task.command[1] !in Run(s, all[..k + 1]).db.entries
  {
    hide DbOk, ClocksRun, VerbOf, Account, AllElsewhere, AllTimely, Run, Admitted, ReadAsked, WaitAsked, Clock,
         AttemptAnswer, ReadAnswer, WaitAnswer, GivenIn;
    k := BlockingAnswered(s, task, env, events, q);
    var all := [Work(CommandTask(task), env)] + events;
    GivenBound(s, all, k, q);
    AttemptNeverTimesOut(all[k], Run(s, all[..k + 1]).db, if |task.command| > 1 then task.command[1] else []);
  }

  lemma GivenBound(s: State, events: seq<Event>, k: nat, q: nat)
    requires GivenIn(s, events, k, q)
    ensures k < |events|
  {
  }

  lemma AttemptNeverTimesOut(event: Event, db: Db, key: Bytes)
    ensures event.Work? ==> !AttemptAnswer(db, key, event.env, NullArray)
  {
  }

  function RequestsOf(command: Command): seq<ReadRequest> {
    match ParseXread(command)
    case Some(read) => read.requests
    case None => []
  }

  /**
   Whatever reply an XREAD ever gets, at once or after blocking through any run: if it carries entries,
   they are exactly those above the requested positions that the database holds at the end of the turn
   that answers; if it is the null array, there are none. `$` stands for all that the stream held when the
   command was taken, and a missing stream held nothing.
   */
  lemma ReadsWhatWasAsked(s: State, task: Task, env: Env, events: seq<Event>, q: nat) returns (k: nat)
    requires DbOk(s.db) && VerbOf(task.command).Xread?
    requires Account(s)[task.id] == 0 && AllElsewhere(events, task.id)
    requires ClocksRun(env) && AllTimely(events)
    requires var t := Run(s, [Work(CommandTask(task), env)] + events); q < |t.replies| && t.replies[q].id == task.id
    ensures k <= |events| && GivenIn(s, [Work(CommandTask(task), env)] + events, k, q)
    ensures var all := [Work(CommandTask(task), env)] + events;
            var response := Run(s, all).replies[q].response;
            var due := Due(s.db, RequestsOf(task.command), Run(s, all[..k + 1]).db);
            && (response.ResponseArray? ==> response == XreadResponse(due) && ReadsResults(response, due))
            && (response == NullArray ==>
                  && due == [] && ParseXread(task.command).Some?
                  && var mode := ParseXread(task.command).value.mode;
                     mode.Immediate? || (mode.BlockFor? && env.now + mode.milliseconds <= Clock(all[k])))
  {
    hide DbOk, ClocksRun, VerbOf, Account, AllElsewhere, AllTimely, Run, Admitted, PopAsked, WaitAsked, PopAnswer,
         WaitAnswer, GivenIn, ParseXread, ReadsResults, Due, SomeNoStream, Clock, ReadReplies;
    k := BlockingAnswered(s, task, env, events, q);
    var all := [Work(CommandTask(task), env)] + events;
    GivenBound(s, all, k, q);
    if Run(s, all).replies[q].response.ResponseArray? {
      FirstTimely(task, env, events, k);
      RunDb(s, all[..k + 1]);
      DueReadsBack(s.db, RequestsOf(task.command), Run(s, all[..k + 1]).db);
    }
  }

  lemma FirstTimely(task: Task, env: Env, events: seq<Event>, k: nat)
    requires ClocksRun(env) && AllTimely(events) && k <= |events|
    ensures AllTimely(([Work(CommandTask(task), env)] + events)[..k + 1])
  {
    hide ClocksRun;
  }

  /** Inside a transaction XREAD reads at once: what is asked for at that moment, nothing under `$`. */
  lemma TransactionReads(db: Db, command: Command, context: Context)
    requires DbOk(db) && VerbOf(command).Xread? && ParseXread(command).Some?
    ensures var outcome := Dispatch(db, command, context);
            var requests := RequestsOf(command);
            || (outcome.response == WRONGTYPE && SomeNoStream(db, requests, context.now))
            || (&& outcome.response == XreadResponse(Due(db, requests, outcome.db))
                && (outcome.response.ResponseArray? ==> ReadsResults(outcome.response, Due(db, requests, outcome.db))))
  {
    XreadDispatched(db, command, context);
    hide DbOk, VerbOf, ParseXread, ReadStreams, ReadReplies, ReadsResults, Due, SomeNoStream, Dispatch, SameStreams;
    var requests := RequestsOf(command);
    var reading := ReadStreams(db, requests, context.now);
    if reading.results.None? {
      RefusedReading(db, requests, context.now);
    } else {
      SameItself(reading.db);
      ReadingStart(db, requests, context.now, reading.db);
      FirstReadingDue(Question(db, requests, reading.db), context.now);
      if Due(db, requests, reading.db) != [] {
        ReadOk(db, requests, context.now);
        DueReadsBack(db, requests, reading.db);
      }
    }
  }

  lemma XreadDispatched(db: Db, command: Command, context: Context)
    requires VerbOf(command).Xread? && ParseXread(command).Some?
    ensures Dispatch(db, command, context) == DispatchXread(db, RequestsOf(command), context.now)
  {
    hide VerbNamed, ParseXread, DispatchXread, DispatchKey;
  }

  /** The number a WAIT is answered with is that of the replicas at its target, which was fixed when it was taken. */
  lemma WaitAnsweredTruly(s: State, task: Task, env: Env, events: seq<Event>, q: nat) returns (k: nat)
    requires DbOk(s.db) && VerbOf(task.command).Wait?
    requires Account(s)[task.id] == 0 && AllElsewhere(events, task.id)
    requires ClocksRun(env) && AllTimely(events)
    requires var t := Run(s, [Work(CommandTask(task), env)] + events);
             q < |t.replies| && t.replies[q].id == task.id && t.replies[q].response.Integer?
    ensures ParseWait(task.command).Some? && k <= |events| && GivenIn(s, [Work(CommandTask(task), env)] + events, k, q)
    ensures var all := [Work(CommandTask(task), env)] + events;
            var request := ParseWait(task.command).value;
            var target := WriteOffset(s.replication, task.client);
            var count := Count(Run(s, all[..k + 1]), target);
            && Run(s, all).replies[q].response == Integer(count)
            && (count >= request.required || target == 0
                || (request.timeout.Within? && env.now + request.timeout.milliseconds <= Clock(all[k])))
  {
    hide DbOk, ClocksRun, VerbOf, Account, AllElsewhere, AllTimely, Run, Admitted, PopAsked, ReadAsked, PopAnswer,
         ReadAnswer, GivenIn, ParseWait, Count, Clock;
    k := BlockingAnswered(s, task, env, events, q);
    GivenBound(s, [Work(CommandTask(task), env)] + events, k, q);
  }
}
