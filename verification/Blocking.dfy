/** Blocked commands: nothing a blocked client waits for is ever left lying, and service is in arrival order. */
module Blocking {
  import opened Wrappers
  import opened Decimal
  import opened Resp
  import opened Responses
  import opened Keyspace
  import opened Commands
  import opened Channels
  import opened ReplicationStream
  import opened Processor
  import opened Invariants

  /* ---------- Quiet states ---------- */

  /** Nothing to pop: the key does not exist. */
  ghost predicate PopsQuiet(pops: seq<PendingPop>, db: Db) {
    forall i :: 0 <= i < |pops| ==> pops[i].key !in db.entries
  }

  /** A resolved request on a stream that has nothing after its position, or on no stream at all. */
  predicate Idle(db: Db, request: ReadRequest) {
    && request.start.AfterId?
    && (Look(db, request.key).Some? ==> Look(db, request.key).value.value.Stream?)
    && Available(db, request) == []
  }

  predicate AllIdle(db: Db, requests: seq<ReadRequest>) {
    forall i :: 0 <= i < |requests| ==> Idle(db, requests[i])
  }

  ghost predicate ReadsQuiet(pending: seq<PendingRead>, db: Db) {
    forall i :: 0 <= i < |pending| ==> AllIdle(db, pending[i].requests)
  }

  /** Fewer replicas than required have reached the target. */
  ghost predicate WaitsQuiet(pending: seq<PendingWait>, r: Replication) {
    forall i :: 0 <= i < |pending| ==> CountReached(r.sessions, r.acknowledged, pending[i].target) < pending[i].required
  }

  /** Between two tasks no blocked pop, read or wait could be served. */
  ghost predicate Quiet(s: State) {
    && PopsQuiet(s.pendingPops, s.db) && ReadsQuiet(s.pendingReads, s.db)
    && WaitsQuiet(s.pendingWaits, s.replication)
  }

  /* ---------- Pops ---------- */

  /** The database after one attempt to pop. */
  function PopDb(db: Db, key: Bytes, now: nat): Db {
    var settled := Settle(db, key, now);
    Apply(settled, key, PopOne(Look(settled, key)).change)
  }

  function PopFinds(db: Db, key: Bytes, now: nat): PopOutcome {
    PopOne(Look(Settle(db, key, now), key)).outcome
  }

  /** An attempt in terms of what it finds. */
  lemma AttemptShape(s: State, task: Task, key: Bytes, env: Env)
    ensures var attempt := AttemptPop(s, task, key, env);
            && attempt.state.db == PopDb(s.db, key, env.now)
            && (attempt.served <==> !PopFinds(s.db, key, env.now).NothingThere?)
            && (!attempt.served ==> attempt.state.replies == s.replies)
            && (PopFinds(s.db, key, env.now).NotAList? ==> attempt.state.replies == s.replies + [Reply(task.id, WRONGTYPE)])
  {
    hide Record, SerializeCommand, Settle, Apply, Look, PopOne;
    RecordDb(s.(db := PopDb(s.db, key, env.now)), task.client, task.source, SerializeCommand(["LPOP", key]), env);
  }

  lemma PopLeavesNothing(db: Db, key: Bytes, now: nat)
    requires DbOk(db)
    ensures PopDb(db, key, now).entries.Keys <= db.entries.Keys
    ensures PopFinds(db, key, now).NothingThere? ==> key !in PopDb(db, key, now).entries
  {
    SettleOk(db, key, now);
    var settled := Settle(db, key, now);
    if Look(settled, key).Some? {
      EntryAt(settled, key);
    }
    hide DbOk;
  }

  /** A pop that is not served leaves no entry under its key, and no pop creates a key. */
  lemma AttemptLeavesNothing(s: State, task: Task, key: Bytes, env: Env)
    requires DbOk(s.db)
    ensures var attempt := AttemptPop(s, task, key, env);
            && DbOk(attempt.state.db)
            && attempt.state.db.entries.Keys <= s.db.entries.Keys
            && (!attempt.served ==> key !in attempt.state.db.entries)
  {
    PopDbKeeps(s.db, key, env.now);
    hide DbOk, Evolves, AttemptPop, Settle, Apply, Look, PopOne;
    PopLeavesNothing(s.db, key, env.now);
    AttemptShape(s, task, key, env);
  }

  lemma EntryAt(db: Db, key: Bytes)
    requires DbOk(db) && key in db.entries
    ensures db.entries[key].value.List? ==> db.entries[key].value.items != []
  {
  }

  lemma RecordDb(s: State, client: ClientId, source: Source, payload: Bytes, env: Env)
    ensures Record(s, client, source, payload, env).state.db == s.db
  {
    hide AppendClientFrame;
  }

  lemma {:induction false} RetryPopsQuiet(s: State, queue: seq<PendingPop>, kept: seq<PendingPop>, env: Env)
    requires DbOk(s.db) && PopsQuiet(kept, s.db)
    ensures var t := RetryPops(s, queue, kept, env);
            DbOk(t.db) && PopsQuiet(t.pendingPops, t.db)
    decreases |queue|
  {
    hide DbOk, AttemptPop;
    if queue != [] {
      var attempt := AttemptPop(s, queue[0].task, queue[0].key, env);
      AttemptLeavesNothing(s, queue[0].task, queue[0].key, env);
      RetryPopsQuiet(attempt.state, queue[1..], if attempt.served then kept else kept + [queue[0]], env);
    }
  }

  /* ---------- Reads ---------- */

  /** Settling another key can only remove a text, so an idle request stays idle. */
  lemma SettleIdle(db: Db, key: Bytes, now: nat, request: ReadRequest)
    requires DbOk(db) && Idle(db, request)
    ensures Idle(Settle(db, key, now), request)
  {
    if key == request.key && key in db.entries {
      assert EntryOk(db.entries[key]);
    }
  }

  lemma SettleAllIdle(db: Db, key: Bytes, now: nat, requests: seq<ReadRequest>)
    requires DbOk(db) && AllIdle(db, requests)
    ensures AllIdle(Settle(db, key, now), requests)
  {
    forall i | 0 <= i < |requests| ensures Idle(Settle(db, key, now), requests[i]) {
      assert Idle(db, requests[i]);
      SettleIdle(db, key, now, requests[i]);
    }
  }

  lemma {:induction false} ResolveKeepsIdle(db: Db, others: seq<ReadRequest>, now: nat, requests: seq<ReadRequest>)
    requires DbOk(db) && AllIdle(db, requests)
    ensures AllIdle(ResolveAll(db, others, now).db, requests)
    decreases |others|
  {
    hide DbOk, AllIdle, Settle, ResolveRequest;
    if others != [] {
      SettleOk(db, others[0].key, now);
      SettleAllIdle(db, others[0].key, now, requests);
      ResolveKeepsIdle(Settle(db, others[0].key, now), others[1..], now, requests);
    }
  }

  /** A request whose key holds a stream or nothing, with its position resolved. */
  predicate Readable(db: Db, request: ReadRequest) {
    request.start.AfterId? && (Look(db, request.key).Some? ==> Look(db, request.key).value.value.Stream?)
  }

  lemma {:induction false} ResolveKeepsReadable(db: Db, others: seq<ReadRequest>, now: nat, request: ReadRequest)
    requires DbOk(db) && Readable(db, request)
    ensures Readable(ResolveAll(db, others, now).db, request)
    decreases |others|
  {
    hide DbOk, Settle, ResolveRequest, Readable;
    if others != [] {
      SettleOk(db, others[0].key, now);
      SettleReadable(db, others[0].key, now, request);
      ResolveKeepsReadable(Settle(db, others[0].key, now), others[1..], now, request);
    }
  }

  lemma SettleReadable(db: Db, key: Bytes, now: nat, request: ReadRequest)
    requires DbOk(db) && Readable(db, request)
    ensures Readable(Settle(db, key, now), request)
  {
  }

  /** A successful resolution leaves every request readable in the database it returns. */
  lemma {:induction false} ResolvedReadable(db: Db, requests: seq<ReadRequest>, now: nat)
    requires DbOk(db) && ResolveAll(db, requests, now).ok
    ensures var r := ResolveAll(db, requests, now);
            forall i :: 0 <= i < |r.requests| ==> Readable(r.db, r.requests[i])
    decreases |requests|
  {
    hide DbOk, Settle, Readable;
    if requests != [] {
      var settled := Settle(db, requests[0].key, now);
      var entry := Look(settled, requests[0].key);
      SettleOk(db, requests[0].key, now);
      ResolvedReadable(settled, requests[1..], now);
      var first := ResolveRequest(requests[0], entry);
      FirstReadable(settled, requests[0]);
      ResolveKeepsReadable(settled, requests[1..], now, first);
      var r := ResolveAll(db, requests, now);
      var rest := ResolveAll(settled, requests[1..], now);
      forall i | 0 <= i < |r.requests| ensures Readable(r.db, r.requests[i]) {
        if i > 0 {
          assert r.requests[i] == rest.requests[i - 1];
        }
      }
    }
  }

  lemma FirstReadable(db: Db, request: ReadRequest)
    requires Look(db, request.key).Some? ==> Look(db, request.key).value.value.Stream?
    ensures Readable(db, ResolveRequest(request, Look(db, request.key)))
  {
  }

  lemma {:induction false} NothingCollected(db: Db, requests: seq<ReadRequest>)
    requires Collect(db, requests) == []
    ensures forall i :: 0 <= i < |requests| ==> Available(db, requests[i]) == []
  {
    if requests != [] {
      NothingCollected(db, requests[1..]);
    }
  }

  /** A read that returns nothing and is not refused leaves all its requests idle. */
  lemma EmptyReadIdle(db: Db, requests: seq<ReadRequest>, now: nat)
    requires DbOk(db)
    requires ReadStreams(db, requests, now).results == Some([])
    ensures var reading := ReadStreams(db, requests, now); AllIdle(reading.db, reading.requests)
  {
    hide DbOk, ResolveAll, Collect, Available, Look;
    var r := ResolveAll(db, requests, now);
    ResolvedReadable(db, requests, now);
    NothingCollected(r.db, r.requests);
    forall i | 0 <= i < |r.requests| ensures Idle(r.db, r.requests[i]) {
      assert Readable(r.db, r.requests[i]);
    }
  }

  lemma {:induction false} ResolveShrinks(db: Db, requests: seq<ReadRequest>, now: nat)
    ensures ResolveAll(db, requests, now).db.entries.Keys <= db.entries.Keys
    decreases |requests|
  {
    hide ResolveRequest;
    if requests != [] {
      ResolveShrinks(Settle(db, requests[0].key, now), requests[1..], now);
    }
  }

  lemma ReadQuiet(s: State, requests: seq<ReadRequest>, now: nat, kept: seq<PendingRead>, pops: seq<PendingPop>)
    requires DbOk(s.db) && ReadsQuiet(kept, s.db) && PopsQuiet(pops, s.db)
    ensures var reading := ReadStreams(s.db, requests, now);
            DbOk(reading.db) && ReadsQuiet(kept, reading.db) && PopsQuiet(pops, reading.db)
  {
    hide DbOk, ResolveAll, AllIdle, Collect;
    ResolveOk(s.db, requests, now);
    ResolveShrinks(s.db, requests, now);
    forall i | 0 <= i < |kept| ensures AllIdle(ReadStreams(s.db, requests, now).db, kept[i].requests) {
      assert AllIdle(s.db, kept[i].requests);
      ResolveKeepsIdle(s.db, requests, now, kept[i].requests);
    }
  }

  lemma {:induction false} RetryReadsQuiet(s: State, queue: seq<PendingRead>, kept: seq<PendingRead>, env: Env)
    requires DbOk(s.db) && ReadsQuiet(kept, s.db) && PopsQuiet(s.pendingPops, s.db)
    ensures var t := RetryReads(s, queue, kept, env);
            PopsQuiet(t.pendingPops, t.db) && ReadsQuiet(t.pendingReads, t.db)
    decreases |queue|
  {
    hide DbOk, ReadStreams, AllIdle, PopsQuiet, XreadResponse;
    if queue != [] {
      var reading := ReadStreams(s.db, queue[0].requests, env.now);
      ReadQuiet(s, queue[0].requests, env.now, kept, s.pendingPops);
      var after := s.(db := reading.db);
      if reading.results.None? {
        RetryReadsQuiet(Answer(after, queue[0].task, WRONGTYPE), queue[1..], kept, env);
      } else if reading.results.value == [] {
        EmptyReadIdle(s.db, queue[0].requests, env.now);
        RetryReadsQuiet(after, queue[1..], kept + [queue[0].(requests := reading.requests)], env);
      } else {
        RetryReadsQuiet(Answer(after, queue[0].task, XreadResponse(reading.results.value)), queue[1..], kept, env);
      }
    }
  }

  /* ---------- The other loops change no key and only shorten the queues ---------- */

  lemma {:induction false} RetryWaitsSame(s: State, queue: seq<PendingWait>, kept: seq<PendingWait>)
    ensures var t := RetryWaits(s, queue, kept);
            t.db == s.db && t.pendingPops == s.pendingPops && t.pendingReads == s.pendingReads
    decreases |queue|
  {
    hide CountReached, Prune;
    if queue != [] {
      var count := CountReached(s.replication.sessions, s.replication.acknowledged, queue[0].target);
      var pruned := s.(replication := Prune(s.replication));
      if count < queue[0].required {
        RetryWaitsSame(pruned, queue[1..], kept + [queue[0]]);
      } else {
        RetryWaitsSame(Answer(pruned, queue[0].task, Integer(count)), queue[1..], kept);
      }
    }
  }

  /** Dropped sessions never count. */
  lemma {:induction false} LiveCounts(sessions: seq<Session>, acknowledged: map<ClientId, nat>, target: nat)
    ensures CountReached(Live(sessions), acknowledged, target) == CountReached(sessions, acknowledged, target)
  {
    if sessions != [] {
      LiveCounts(sessions[1..], acknowledged, target);
    }
  }

  lemma PruneQuiet(pending: seq<PendingWait>, r: Replication)
    requires WaitsQuiet(pending, r)
    ensures WaitsQuiet(pending, Prune(r))
  {
    hide CountReached, Live;
    forall i | 0 <= i < |pending|
      ensures CountReached(Prune(r).sessions, r.acknowledged, pending[i].target) < pending[i].required
    {
      LiveCounts(r.sessions, r.acknowledged, pending[i].target);
    }
  }

  lemma {:induction false} RetryWaitsQuiet(s: State, queue: seq<PendingWait>, kept: seq<PendingWait>)
    requires WaitsQuiet(kept, s.replication)
    ensures var t := RetryWaits(s, queue, kept); WaitsQuiet(t.pendingWaits, t.replication)
    decreases |queue|
  {
    hide CountReached, Prune;
    if queue != [] {
      var r := s.replication;
      var count := CountReached(r.sessions, r.acknowledged, queue[0].target);
      var pruned := s.(replication := Prune(r));
      if count < queue[0].required {
        PruneQuiet(kept + [queue[0]], r);
        RetryWaitsQuiet(pruned, queue[1..], kept + [queue[0]]);
      } else {
        PruneQuiet(kept, r);
        RetryWaitsQuiet(Answer(pruned, queue[0].task, Integer(count)), queue[1..], kept);
      }
    }
  }

  /** After the retries nothing that a blocked command waits for is there. */
  lemma RetryAllQuiet(s: State, env: Env)
    requires DbOk(s.db)
    ensures Quiet(RetryAll(s, env))
  {
    hide DbOk, RetryPops, RetryReads, RetryWaits, ReadsQuiet, PopsQuiet, CountReached;
    var a := RetryPops(s, s.pendingPops, [], env);
    NothingQuiet(s.db);
    RetryPopsQuiet(s, s.pendingPops, [], env);
    NothingQuiet(a.db);
    RetryReadsQuiet(a, a.pendingReads, [], env);
    var b := RetryReads(a, a.pendingReads, [], env);
    RetryWaitsSame(b, b.pendingWaits, []);
    RetryWaitsQuiet(b, b.pendingWaits, []);
  }

  lemma NothingQuiet(db: Db)
    ensures PopsQuiet([], db) && ReadsQuiet([], db)
  {
  }

  lemma {:induction false} ExpirePopsQuiet(s: State, queue: seq<PendingPop>, kept: seq<PendingPop>, now: nat)
    requires PopsQuiet(queue, s.db) && PopsQuiet(kept, s.db)
    ensures var t := ExpirePops(s, queue, kept, now);
            && t.db == s.db && t.pendingReads == s.pendingReads && PopsQuiet(t.pendingPops, s.db)
            && t.pendingWaits == s.pendingWaits && t.replication == s.replication
    decreases |queue|
  {
    if queue != [] {
      if !Overdue(queue[0].deadline, now) {
        ExpirePopsQuiet(s, queue[1..], kept + [queue[0]], now);
      } else {
        ExpirePopsQuiet(Answer(s, queue[0].task, NullArray), queue[1..], kept, now);
      }
    }
  }

  lemma {:induction false} ExpireReadsQuiet(s: State, queue: seq<PendingRead>, kept: seq<PendingRead>, now: nat)
    requires ReadsQuiet(queue, s.db) && ReadsQuiet(kept, s.db)
    ensures var t := ExpireReads(s, queue, kept, now);
            && t.db == s.db && t.pendingPops == s.pendingPops && ReadsQuiet(t.pendingReads, s.db)
            && t.pendingWaits == s.pendingWaits && t.replication == s.replication
    decreases |queue|
  {
    hide AllIdle;
    if queue != [] {
      if !Overdue(queue[0].deadline, now) {
        ExpireReadsQuiet(s, queue[1..], kept + [queue[0]], now);
      } else {
        ExpireReadsQuiet(Answer(s, queue[0].task, NullArray), queue[1..], kept, now);
      }
    }
  }

  lemma {:induction false} ExpireWaitsSame(s: State, queue: seq<PendingWait>, kept: seq<PendingWait>, now: nat)
    ensures var t := ExpireWaits(s, queue, kept, now);
            t.db == s.db && t.pendingPops == s.pendingPops && t.pendingReads == s.pendingReads
    decreases |queue|
  {
    hide CountReached, Prune, Overdue;
    if queue != [] {
      var count := CountReached(s.replication.sessions, s.replication.acknowledged, queue[0].target);
      var pruned := s.(replication := Prune(s.replication));
      if !Overdue(queue[0].deadline, now) {
        ExpireWaitsSame(s, queue[1..], kept + [queue[0]], now);
      } else {
        ExpireWaitsSame(Answer(pruned, queue[0].task, Integer(count)), queue[1..], kept, now);
      }
    }
  }

  lemma {:induction false} ExpireWaitsQuiet(s: State, queue: seq<PendingWait>, kept: seq<PendingWait>, now: nat)
    requires WaitsQuiet(queue, s.replication) && WaitsQuiet(kept, s.replication)
    ensures var t := ExpireWaits(s, queue, kept, now); WaitsQuiet(t.pendingWaits, t.replication)
    decreases |queue|
  {
    hide CountReached, Prune, Overdue;
    if queue != [] {
      if !Overdue(queue[0].deadline, now) {
        ExpireWaitsQuiet(s, queue[1..], kept + [queue[0]], now);
      } else {
        var r := s.replication;
        var count := CountReached(r.sessions, r.acknowledged, queue[0].target);
        PruneQuiet(queue[1..], r);
        PruneQuiet(kept, r);
        ExpireWaitsQuiet(Answer(s.(replication := Prune(r)), queue[0].task, Integer(count)), queue[1..], kept, now);
      }
    }
  }

  lemma ExpireAllQuiet(s: State, now: nat)
    requires Quiet(s)
    ensures Quiet(ExpireAll(s, now))
  {
    hide ExpirePops, ExpireReads, ExpireWaits, PopsQuiet, ReadsQuiet, CountReached;
    NothingQuiet(s.db);
    ExpirePopsQuiet(s, s.pendingPops, [], now);
    var a := ExpirePops(s, s.pendingPops, [], now);
    ExpireReadsQuiet(a, a.pendingReads, [], now);
    var b := ExpireReads(a, a.pendingReads, [], now);
    ExpireWaitsSame(b, b.pendingWaits, [], now);
    ExpireWaitsQuiet(b, b.pendingWaits, [], now);
  }

  /* ---------- No missed wake-up ---------- */

  /** Whatever a task does, nothing that a blocked command waits for is left when the turn ends. */
  lemma StepQuiet(s: State, t: ProcessorTask, env: Env)
    requires DbOk(s.db) && ClocksRun(env)
    ensures Quiet(RetryAll(Process(s, t, env), env))
    ensures Quiet(Step(s, t, env))
  {
    hide DbOk, Process, RetryAll, ExpireAll, Quiet, ClocksRun;
    var processed := Process(s, t, env);
    assert DbOk(processed.db) by {
      if t.RegisterClient? {
        RegisterClientKeeps(s, t.client, env);
      } else {
        ProcessKeeps(s, t, env, CLOCK_ONLY);
      }
    }
    RetryAllQuiet(processed, env);
    ExpireAllQuiet(RetryAll(processed, env), env.now);
  }

  /** No missed wake-up: every reachable state is quiet, so timeouts are only reported when nothing was there. */
  lemma {:induction false} RunQuiet(s: State, events: seq<Event>)
    requires DbOk(s.db) && Quiet(s) && AllTimely(events)
    ensures Quiet(Run(s, events))
    decreases |events|
  {
    hide DbOk, Quiet, Next, ClocksRun;
    if events != [] {
      var event := events[0];
      assert Timely(event);
      EventDb(s, event);
      EventQuiet(s, event);
      RunQuiet(Next(s, event), events[1..]);
    }
  }

  lemma EventDb(s: State, event: Event)
    requires DbOk(s.db) && Timely(event)
    ensures DbOk(Next(s, event).db)
  {
    hide DbOk, Process, RetryAll, ExpireAll, StepSessions, ClocksRun, Evolves, Accounted, Mirror, Extends;
    match event {
      case Work(t, env) =>
        SettleStep(Process(s, t, env), env, CLOCK_ONLY);
        if t.RegisterClient? {
          RegisterClientKeeps(s, t.client, env);
        } else {
          ProcessKeeps(s, t, env, CLOCK_ONLY);
        }
      case Tick(now) => ExpireAllKeeps(s, now, CLOCK_ONLY);
      case Connection(_, _) =>
    }
  }

  lemma {:induction false} RunDb(s: State, events: seq<Event>)
    requires DbOk(s.db) && AllTimely(events)
    ensures DbOk(Run(s, events).db)
    decreases |events|
  {
    hide DbOk, Next, Timely;
    if events != [] {
      EventDb(s, events[0]);
      RunDb(Next(s, events[0]), events[1..]);
    }
  }

  lemma EventQuiet(s: State, event: Event)
    requires DbOk(s.db) && Quiet(s) && Timely(event)
    ensures Quiet(Next(s, event))
  {
    hide DbOk, Step, ExpireAll, StepSessions, ClocksRun, PopsQuiet, ReadsQuiet, WaitsQuiet;
    match event {
      case Work(t, env) => StepQuiet(s, t, env);
      case Tick(now) => ExpireAllQuiet(s, now);
      case Connection(index, step) => SessionQuiet(s.pendingWaits, s.replication, index, step);
    }
  }

  lemma {:induction false} StepCounts(
    sessions: seq<Session>, i: nat, step: SessionStep, acknowledged: map<ClientId, nat>, target: nat)
    requires i < |sessions|
    ensures CountReached(sessions[i := StepSession(sessions[i], step)], acknowledged, target) <=
            CountReached(sessions, acknowledged, target)
    decreases |sessions|
  {
    var after := sessions[i := StepSession(sessions[i], step)];
    if i > 0 {
      StepCounts(sessions[1..], i - 1, step, acknowledged, target);
      assert after[1..] == sessions[1..][i - 1 := StepSession(sessions[i], step)];
    } else {
      assert after[1..] == sessions[1..];
    }
  }

  /** A connection thread can take a replica away, never add one. */
  lemma SessionQuiet(pending: seq<PendingWait>, r: Replication, index: nat, step: SessionStep)
    requires WaitsQuiet(pending, r)
    ensures WaitsQuiet(pending, StepSessions(r, index, step))
  {
    hide CountReached, StepSession;
    if index < |r.sessions| {
      var t := StepSessions(r, index, step);
      forall i | 0 <= i < |pending|
        ensures CountReached(t.sessions, t.acknowledged, pending[i].target) < pending[i].required
      {
        StepCounts(r.sessions, index, step, r.acknowledged, pending[i].target);
      }
    }
  }

  /** A newcomer never overtakes: if BLPOP finds an element at once, nobody was waiting for that key. */
  lemma NewcomerDoesNotOvertake(s: State, task: Task, key: Bytes, env: Env)
    requires Quiet(s) && AttemptPop(s, task, key, env).served
    ensures forall i :: 0 <= i < |s.pendingPops| ==> s.pendingPops[i].key != key
  {
    hide Record, SerializeCommand, ReadsQuiet, WaitsQuiet;
    var settled := Settle(s.db, key, env.now);
    assert Look(settled, key).Some?;
    assert key in s.db.entries;
  }

  /* ---------- Deadlines ---------- */

  /** Every deadline still lies ahead. */
  ghost predicate NothingOverdue(s: State, now: nat) {
    && PopsAhead(s.pendingPops, now) && ReadsAhead(s.pendingReads, now) && WaitsAhead(s.pendingWaits, now)
  }

  predicate PopsAhead(queue: seq<PendingPop>, now: nat) {
    forall i :: 0 <= i < |queue| ==> queue[i].deadline.Some? ==> now < queue[i].deadline.value
  }

  predicate ReadsAhead(queue: seq<PendingRead>, now: nat) {
    forall i :: 0 <= i < |queue| ==> queue[i].deadline.Some? ==> now < queue[i].deadline.value
  }

  predicate WaitsAhead(queue: seq<PendingWait>, now: nat) {
    forall i :: 0 <= i < |queue| ==> queue[i].deadline.Some? ==> now < queue[i].deadline.value
  }

  lemma {:induction false} ExpirePopsAhead(s: State, queue: seq<PendingPop>, kept: seq<PendingPop>, now: nat)
    requires PopsAhead(kept, now)
    ensures PopsAhead(ExpirePops(s, queue, kept, now).pendingPops, now)
    decreases |queue|
  {
    if queue != [] {
      if !Overdue(queue[0].deadline, now) {
        ExpirePopsAhead(s, queue[1..], kept + [queue[0]], now);
      } else {
        ExpirePopsAhead(Answer(s, queue[0].task, NullArray), queue[1..], kept, now);
      }
    }
  }

  lemma {:induction false} ExpireReadsAhead(s: State, queue: seq<PendingRead>, kept: seq<PendingRead>, now: nat)
    requires ReadsAhead(kept, now)
    ensures ReadsAhead(ExpireReads(s, queue, kept, now).pendingReads, now)
    ensures ExpireReads(s, queue, kept, now).pendingPops == s.pendingPops
    decreases |queue|
  {
    if queue != [] {
      if !Overdue(queue[0].deadline, now) {
        ExpireReadsAhead(s, queue[1..], kept + [queue[0]], now);
      } else {
        ExpireReadsAhead(Answer(s, queue[0].task, NullArray), queue[1..], kept, now);
      }
    }
  }

  lemma {:induction false} ExpireWaitsAhead(s: State, queue: seq<PendingWait>, kept: seq<PendingWait>, now: nat)
    requires WaitsAhead(kept, now)
    ensures WaitsAhead(ExpireWaits(s, queue, kept, now).pendingWaits, now)
    decreases |queue|
  {
    hide CountReached, Prune;
    if queue != [] {
      if !Overdue(queue[0].deadline, now) {
        ExpireWaitsAhead(s, queue[1..], kept + [queue[0]], now);
      } else {
        var count := CountReached(s.replication.sessions, s.replication.acknowledged, queue[0].target);
        ExpireWaitsAhead(Answer(s.(replication := Prune(s.replication)), queue[0].task, Integer(count)), queue[1..], kept, now);
      }
    }
  }

  /** After a turn, and after a wake-up for a deadline, no blocked command is overdue. */
  lemma TurnLeavesNothingOverdue(s: State, now: nat)
    ensures NothingOverdue(ExpireAll(s, now), now)
  {
    hide ExpirePops, ExpireReads, ExpireWaits;
    var a := ExpirePops(s, s.pendingPops, [], now);
    var b := ExpireReads(a, a.pendingReads, [], now);
    ExpirePopsAhead(s, s.pendingPops, [], now);
    ExpireReadsAhead(a, a.pendingReads, [], now);
    ExpireWaitsAhead(b, b.pendingWaits, [], now);
    ExpireWaitsSame(b, b.pendingWaits, [], now);
  }

  /* ---------- Service in arrival order ---------- */

  function WaitersOn(queue: seq<PendingPop>, key: Bytes): seq<PendingPop> {
    if queue == [] then []
    else if queue[0].key == key then [queue[0]] + WaitersOn(queue[1..], key)
    else WaitersOn(queue[1..], key)
  }

  /** The replies that hand out elements of a list. */
  function RepliesFor(replies: seq<Reply>, key: Bytes): seq<Reply> {
    if replies == [] then []
    else
      var rest := RepliesFor(replies[1..], key);
      var response := replies[0].response;
      if response.Array? && |response.values| == 2 && response.values[0] == key then [replies[0]] + rest else rest
  }

  /** The i-th waiter gets the i-th element, as far as both reach. */
  function Handouts(waiters: seq<PendingPop>, key: Bytes, items: seq<Bytes>): seq<Reply> {
    if waiters == [] || items == [] then []
    else [Reply(waiters[0].task.id, Array([key, items[0]]))] + Handouts(waiters[1..], key, items[1..])
  }

  /** The elements under a key at the time of the retry. */
  function ItemsAt(db: Db, key: Bytes): seq<Bytes> {
    if key in db.entries && db.entries[key].value.List? then db.entries[key].value.items else []
  }

  ghost predicate AppendsSucceed(env: Env) {
    forall length: nat :: env.append(length) == Written
  }

  lemma RecordSucceeds(s: State, client: ClientId, source: Source, payload: Bytes, env: Env)
    requires AppendsSucceed(env)
    ensures Record(s, client, source, payload, env).ok
  {
    hide AppendClientFrame;
  }

  lemma ElementReply(s: State, task: Task, key: Bytes, env: Env)
    requires AppendsSucceed(env) && PopFinds(s.db, key, env.now).Element?
    ensures AttemptPop(s, task, key, env).state.replies ==
            s.replies + [Reply(task.id, Array([key, PopFinds(s.db, key, env.now).value]))]
  {
    hide Record, SerializeCommand, Settle, Apply, Look, PopOne, AppendsSucceed;
    var after := s.(db := PopDb(s.db, key, env.now));
    RecordSucceeds(after, task.client, task.source, SerializeCommand(["LPOP", key]), env);
    RecordReplies(after, task.client, task.source, SerializeCommand(["LPOP", key]), env);
  }

  /** What a pop finds and leaves, in terms of the elements under each key. */
  lemma PopItems(db: Db, key: Bytes, now: nat, other: Bytes)
    requires DbOk(db)
    ensures other != key ==> ItemsAt(PopDb(db, key, now), other) == ItemsAt(db, other)
    ensures var items := ItemsAt(db, key);
            if items == [] then !PopFinds(db, key, now).Element? && ItemsAt(PopDb(db, key, now), key) == []
            else PopFinds(db, key, now) == Element(items[0]) && ItemsAt(PopDb(db, key, now), key) == items[1..]
  {
    if key in db.entries {
      assert EntryOk(db.entries[key]);
    }
    hide DbOk, EntryOk;
  }

  /** What one attempt does to the elements under any key and to the replies. */
  lemma AttemptHandsOut(s: State, task: Task, key: Bytes, env: Env, other: Bytes)
    requires DbOk(s.db) && AppendsSucceed(env)
    ensures var attempt := AttemptPop(s, task, key, env);
            var items := ItemsAt(s.db, key);
            && (other != key ==> ItemsAt(attempt.state.db, other) == ItemsAt(s.db, other))
            && (items == [] ==> ItemsAt(attempt.state.db, key) == [])
            && (items != [] ==> ItemsAt(attempt.state.db, key) == items[1..])
            && attempt.state.replies == s.replies + AttemptReply(task, key, items, attempt.served)
  {
    hide DbOk, AppendsSucceed, AttemptPop, ItemsAt, PopDb, PopFinds;
    PopItems(s.db, key, env.now, other);
    AttemptShape(s, task, key, env);
    if PopFinds(s.db, key, env.now).Element? {
      ElementReply(s, task, key, env);
    }
    assert s.replies + [] == s.replies;
  }

  /** The reply that an attempt adds, if any. */
  function AttemptReply(task: Task, key: Bytes, items: seq<Bytes>, served: bool): seq<Reply> {
    if items != [] then [Reply(task.id, Array([key, items[0]]))]
    else if served then [Reply(task.id, WRONGTYPE)]
    else []
  }

  lemma RecordReplies(s: State, client: ClientId, source: Source, payload: Bytes, env: Env)
    ensures Record(s, client, source, payload, env).state.replies == s.replies
  {
    hide AppendClientFrame;
  }

  lemma {:induction false} RepliesForAppended(first: seq<Reply>, second: seq<Reply>, key: Bytes)
    ensures RepliesFor(first + second, key) == RepliesFor(first, key) + RepliesFor(second, key)
  {
    if first == [] {
      assert first + second == second;
    } else {
      assert (first + second)[1..] == first[1..] + second && (first + second)[0] == first[0];
      RepliesForAppended(first[1..], second, key);
      var rest, more := RepliesFor(first[1..], key), RepliesFor(second, key);
      assert [first[0]] + rest + more == [first[0]] + (rest + more);
    }
  }

  /**
   First come, first served: one pass over the queue hands the elements of a list, in order, to the
   clients that wait for it, in the order in which they arrived.
   */
  lemma {:induction false} ServedInOrder(
    s: State, queue: seq<PendingPop>, kept: seq<PendingPop>, env: Env, key: Bytes)
    requires DbOk(s.db) && AppendsSucceed(env)
    ensures RepliesFor(RetryPops(s, queue, kept, env).replies, key) ==
            RepliesFor(s.replies, key) + Handouts(WaitersOn(queue, key), key, ItemsAt(s.db, key))
    decreases |queue|
  {
    hide DbOk, AppendsSucceed, AttemptPop, ItemsAt, AttemptReply, RepliesFor, Handouts;
    if queue == [] {
      NoHandouts(key, ItemsAt(s.db, key));
      assert RepliesFor(s.replies, key) + [] == RepliesFor(s.replies, key);
    } else {
      var pop := queue[0];
      var attempt := AttemptPop(s, pop.task, pop.key, env);
      AttemptLeavesNothing(s, pop.task, pop.key, env);
      AttemptHandsOut(s, pop.task, pop.key, env, key);
      ServedInOrder(attempt.state, queue[1..], if attempt.served then kept else kept + [pop], env, key);
      var items := ItemsAt(s.db, pop.key);
      RepliesForAppended(s.replies, AttemptReply(pop.task, pop.key, items, attempt.served), key);
      HandsOutOne(RepliesFor(s.replies, key), pop, attempt.served, items, ItemsAt(s.db, key), ItemsAt(attempt.state.db, key),
                  WaitersOn(queue[1..], key), key);
    }
  }

  lemma NoHandouts(key: Bytes, items: seq<Bytes>)
    ensures Handouts([], key, items) == []
  {
  }

  /** One waiter served before the others. */
  lemma HandsOutOne(given: seq<Reply>, pop: PendingPop, served: bool, items: seq<Bytes>, before: seq<Bytes>, after: seq<Bytes>,
                    rest: seq<PendingPop>, key: Bytes)
    requires pop.key == key ==> items == before && after == if items == [] then [] else items[1..]
    requires pop.key != key ==> after == before
    ensures given + RepliesFor(AttemptReply(pop.task, pop.key, items, served), key) + Handouts(rest, key, after) ==
            given + Handouts(if pop.key == key then [pop] + rest else rest, key, before)
  {
    var added := RepliesFor(AttemptReply(pop.task, pop.key, items, served), key);
    OneReply(pop.task, pop.key, items, served, key);
    if pop.key == key && items != [] {
      assert ([pop] + rest)[1..] == rest;
      assert given + added + Handouts(rest, key, after) == given + (added + Handouts(rest, key, after));
    } else {
      assert given + [] == given;
    }
  }

  lemma OneReply(task: Task, popped: Bytes, items: seq<Bytes>, served: bool, key: Bytes)
    ensures RepliesFor(AttemptReply(task, popped, items, served), key) ==
            if popped == key && items != [] then [Reply(task.id, Array([key, items[0]]))] else []
  {
    var added := AttemptReply(task, popped, items, served);
    assert RepliesFor([], key) == [];
    assert added != [] ==> added[1..] == [];
  }
}
