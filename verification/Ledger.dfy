/** Every promise is fulfilled at most once, and until then its task sits in exactly one queue. */
module Ledger {
  import opened Wrappers
  import opened Decimal
  import opened Resp
  import opened Aof
  import opened Responses
  import opened Keyspace
  import opened Commands
  import opened Channels
  import opened ReplicationStream
  import opened Processor

  function ReplyIds(replies: seq<Reply>): seq<TaskId> {
    seq(|replies|, i requires 0 <= i < |replies| => replies[i].id)
  }

  function PopIds(queue: seq<PendingPop>): seq<TaskId> {
    seq(|queue|, i requires 0 <= i < |queue| => queue[i].task.id)
  }

  function ReadIds(queue: seq<PendingRead>): seq<TaskId> {
    seq(|queue|, i requires 0 <= i < |queue| => queue[i].task.id)
  }

  function WaitIds(queue: seq<PendingWait>): seq<TaskId> {
    seq(|queue|, i requires 0 <= i < |queue| => queue[i].task.id)
  }

  /** All promises the state knows of: those of blocked commands and those fulfilled. */
  function Account(s: State): multiset<TaskId> {
    multiset(PopIds(s.pendingPops)) + multiset(ReadIds(s.pendingReads)) + multiset(WaitIds(s.pendingWaits))
    + multiset(ReplyIds(s.replies))
  }

  /* ---------- Parts of a step that touch no promise ---------- */

  predicate SameQueues(s: State, t: State) {
    && t.pendingPops == s.pendingPops && t.pendingReads == s.pendingReads
    && t.pendingWaits == s.pendingWaits && t.replies == s.replies
  }

  lemma RecordQueues(s: State, client: ClientId, source: Source, payload: Bytes, env: Env)
    ensures SameQueues(s, Record(s, client, source, payload, env).state)
    ensures Record(s, client, source, payload, env).state.hub == s.hub
  {
    hide AppendClientFrame;
  }

  lemma RunTransactionQueues(s: State, client: ClientId, commands: seq<Command>, source: Source, env: Env)
    ensures SameQueues(s, RunTransaction(s, client, commands, source, env).state)
  {
    hide RunQueue, Record, SerializeAll, Bracketed;
    var ran := RunQueue(s.db, commands, 0, env);
    RecordQueues(s.(db := ran.db), client, source, SerializeAll(Bracketed(ran.logged)), env);
  }

  lemma ExecuteQueues(s: State, client: ClientId, source: Source, env: Env)
    ensures SameQueues(s, ExecuteTransaction(s, client, source, env).state)
  {
    hide RunTransaction, CheckWatched;
    if client in s.transactions {
      var transaction := s.transactions[client];
      var checked := CheckWatched(s.db, WatchedBy(s, client), env.watchOrder, env.now);
      var ended := s.(db := checked.db, transactions := s.transactions - {client}, watched := s.watched - {client});
      RunTransactionQueues(ended, client, transaction.commands, source, env);
    }
  }

  lemma PublishQueues(s: State, command: Command, env: Env)
    ensures SameQueues(s, DoPublish(s, command, env).state)
  {
    hide DropFrom;
  }

  lemma ImmediateQueues(s: State, client: ClientId, command: Command, source: Source, env: Env)
    requires command != []
    ensures SameQueues(s, ProcessImmediate(s, client, command, source, env).state)
  {
    hide VerbOf, DoSubscribe, DoUnsubscribe, DoPublish, DoWatch, DoMulti, DoDiscard, DoAuth, ExecuteTransaction,
         ProcessAdministrative, SameQueues;
    PublishQueues(s, command, env);
    ExecuteQueues(s, client, source, env);
    SessionQueues(s, client, command, env);
    TransactionQueues(s, client, command, env);
  }

  lemma SessionQueues(s: State, client: ClientId, command: Command, env: Env)
    requires command != []
    ensures SameQueues(s, DoSubscribe(s, client, command, env).state)
    ensures SameQueues(s, DoUnsubscribe(s, client, command, env).state)
    ensures SameQueues(s, DoAuth(s, client, env).state)
    ensures SameQueues(s, ProcessAdministrative(s, client, command, env).state)
  {
    hide VerbOf, JoinAll, LeaveAll, Forget;
  }

  lemma TransactionQueues(s: State, client: ClientId, command: Command, env: Env)
    ensures SameQueues(s, DoWatch(s, client, command, env).state)
    ensures SameQueues(s, DoMulti(s, client).state)
    ensures SameQueues(s, DoDiscard(s, client).state)
  {
    hide WatchKeys;
  }

  lemma CommandQueues(s: State, client: ClientId, command: Command, source: Source, env: Env)
    ensures SameQueues(s, ProcessCommand(s, client, command, source, env).state)
  {
    hide VerbOf, ProcessImmediate, Dispatch;
    if command != [] {
      ImmediateQueues(s, client, command, source, env);
    }
  }

  /* ---------- Parts that fulfil one promise ---------- */

  /** The blocked commands stay and exactly the promise `id` is fulfilled. */
  ghost predicate Fulfils(s: State, t: State, id: TaskId) {
    && t.pendingPops == s.pendingPops && t.pendingReads == s.pendingReads && t.pendingWaits == s.pendingWaits
    && exists response :: t.replies == s.replies + [Reply(id, response)]
  }

  lemma FulfilsAccount(s: State, t: State, id: TaskId)
    requires Fulfils(s, t, id)
    ensures Account(t) == Account(s) + multiset{id}
  {
    var response :| t.replies == s.replies + [Reply(id, response)];
    assert ReplyIds(t.replies) == ReplyIds(s.replies) + [id];
  }

  lemma AnswerFulfils(s: State, middle: State, task: Task, response: Response)
    requires SameQueues(s, middle)
    ensures Fulfils(s, Answer(middle, task, response), task.id)
  {
  }

  lemma ConcludeFulfils(s: State, middle: State, task: Task, succeeded: bool, response: Response, env: Env)
    requires SameQueues(s, middle)
    ensures Fulfils(s, Conclude(middle, task, succeeded, response, env), task.id)
  {
    hide Fulfils, Answer;
    var advanced := if task.source.FromMaster? && succeeded
                    then middle.(replication := middle.replication.(offset := middle.replication.offset + task.bytes)) else middle;
    var deflected := Deflect(advanced, task.client, env);
    AnswerFulfils(s, advanced, task, response);
    AnswerFulfils(s, deflected.state, task, deflected.response);
  }

  lemma DirectFulfils(s: State, task: Task, env: Env)
    ensures Fulfils(s, ProcessDirect(s, task, env), task.id)
  {
    hide Fulfils, ProcessCommand, Record, Conclude, IsWrite, Modified, Normalize, SerializeCommand;
    var processed := ProcessCommand(s, task.client, task.command, task.source, env);
    CommandQueues(s, task.client, task.command, task.source, env);
    var succeeded := !processed.response.SimpleError?;
    var payload := SerializeCommand(Normalize(task.command, processed.response));
    var recorded := Record(processed.state, task.client, task.source, payload, env);
    RecordQueues(processed.state, task.client, task.source, payload, env);
    ConcludeFulfils(s, recorded.state, task, succeeded, if recorded.ok then processed.response else MISCONF, env);
    ConcludeFulfils(s, processed.state, task, succeeded, processed.response, env);
  }

  lemma RefuseFulfils(s: State, task: Task, response: Response, env: Env)
    ensures Fulfils(s, Refuse(s, task, response, env), task.id)
  {
    hide Fulfils, Answer;
    var deflected := Deflect(s, task.client, env);
    AnswerFulfils(s, deflected.state, task, deflected.response);
    AnswerFulfils(s, s, task, response);
  }

  lemma RefuseWriteFulfils(s: State, task: Task)
    ensures Fulfils(s, RefuseWrite(s, task), task.id)
  {
    var flagged := if task.client in s.transactions
                   then s.(transactions := s.transactions[task.client := s.transactions[task.client].(hasError := true)])
                   else s;
    AnswerFulfils(s, flagged, task, READONLY);
  }

  lemma AttemptFulfils(s: State, task: Task, key: Bytes, env: Env)
    ensures var attempt := AttemptPop(s, task, key, env);
            if attempt.served then Fulfils(s, attempt.state, task.id) else SameQueues(s, attempt.state)
  {
    hide Fulfils, Settle, Apply, PopOne, Look, Record, SerializeCommand;
    var settled := Settle(s.db, key, env.now);
    var popped := PopOne(Look(settled, key));
    var after := s.(db := Apply(settled, key, popped.change));
    var recorded := Record(after, task.client, task.source, SerializeCommand(["LPOP", key]), env);
    RecordQueues(after, task.client, task.source, SerializeCommand(["LPOP", key]), env);
    match popped.outcome {
      case Element(value) =>
        AnswerFulfils(s, recorded.state, task, if recorded.ok then Array([key, value]) else MISCONF);
      case NotAList => AnswerFulfils(s, after, task, WRONGTYPE);
      case NothingThere =>
    }
  }

  /* ---------- A command task adds its promise to the account ---------- */

  lemma PopBlocked(s: State, t: State, pop: PendingPop)
    requires t.pendingPops == s.pendingPops + [pop]
    requires t.pendingReads == s.pendingReads && t.pendingWaits == s.pendingWaits && t.replies == s.replies
    ensures Account(t) == Account(s) + multiset{pop.task.id}
  {
    assert PopIds(t.pendingPops) == PopIds(s.pendingPops) + [pop.task.id];
  }

  lemma ReadBlocked(s: State, t: State, read: PendingRead)
    requires t.pendingReads == s.pendingReads + [read]
    requires t.pendingPops == s.pendingPops && t.pendingWaits == s.pendingWaits && t.replies == s.replies
    ensures Account(t) == Account(s) + multiset{read.task.id}
  {
    assert ReadIds(t.pendingReads) == ReadIds(s.pendingReads) + [read.task.id];
  }

  lemma WaitBlocked(s: State, t: State, wait: PendingWait)
    requires t.pendingWaits == s.pendingWaits + [wait]
    requires t.pendingPops == s.pendingPops && t.pendingReads == s.pendingReads && t.replies == s.replies
    ensures Account(t) == Account(s) + multiset{wait.task.id}
  {
    assert WaitIds(t.pendingWaits) == WaitIds(s.pendingWaits) + [wait.task.id];
  }

  lemma BlpopAccount(s: State, task: Task, env: Env)
    ensures Account(ProcessBlpop(s, task, env)) == Account(s) + multiset{task.id}
  {
    hide Account, AttemptPop, Fulfils;
    if |task.command| != 3 || env.context(0).timeout(task.command[2]).None? {
      AnswerFulfils(s, s, task, ERR);
      FulfilsAccount(s, ProcessBlpop(s, task, env), task.id);
    } else {
      var key := task.command[1];
      var attempt := AttemptPop(s, task, key, env);
      AttemptFulfils(s, task, key, env);
      if attempt.served {
        FulfilsAccount(s, attempt.state, task.id);
      } else {
        var deadline := Deadline(env.now, env.context(0).timeout(task.command[2]).value);
        PopBlocked(s, ProcessBlpop(s, task, env), PendingPop(task, key, deadline));
      }
    }
  }

  lemma AnswerOrBlockAccount(s: State, task: Task, mode: ReadMode, reading: Reading, now: nat)
    ensures Account(AnswerOrBlock(s, task, mode, reading, now)) == Account(s) + multiset{task.id}
  {
    hide Account, Fulfils, XreadResponse, Answer;
    var t := AnswerOrBlock(s, task, mode, reading, now);
    if reading.results.None? {
      AnswerFulfils(s, s, task, WRONGTYPE);
      FulfilsAccount(s, t, task.id);
    } else if reading.results.value != [] {
      AnswerFulfils(s, s, task, XreadResponse(reading.results.value));
      FulfilsAccount(s, t, task.id);
    } else if mode.Immediate? {
      AnswerFulfils(s, s, task, NullArray);
      FulfilsAccount(s, t, task.id);
    } else {
      ReadBlocked(s, t, PendingRead(task, reading.requests, ReadDeadline(mode, now)));
    }
  }

  lemma XreadAccount(s: State, task: Task, env: Env)
    ensures Account(ProcessXread(s, task, env)) == Account(s) + multiset{task.id}
  {
    hide AnswerOrBlock, ReadStreams, ParseXread;
    match ParseXread(task.command) {
      case None =>
        AnswerFulfils(s, s, task, ERR);
        FulfilsAccount(s, ProcessXread(s, task, env), task.id);
      case Some(read) =>
        var reading := ReadStreams(s.db, read.requests, env.now);
        AnswerOrBlockAccount(s.(db := reading.db), task, read.mode, reading, env.now);
    }
  }

  lemma WaitAccount(s: State, task: Task, env: Env)
    ensures Account(ProcessWait(s, task, env)) == Account(s) + multiset{task.id}
  {
    hide Account, Fulfils, Answer, ParseWait, CountReached, Prune, AppendFrame;
    var t := ProcessWait(s, task, env);
    if !s.replication.role.Master? || ParseWait(task.command).None? {
      AnswerFulfils(s, s, task, ERR);
      FulfilsAccount(s, t, task.id);
    } else {
      var request := ParseWait(task.command).value;
      var target := WriteOffset(s.replication, task.client);
      var count := CountReached(s.replication.sessions, s.replication.acknowledged, target);
      var pruned := s.(replication := Prune(s.replication));
      if target == 0 || count >= request.required {
        AnswerFulfils(s, pruned, task, Integer(count));
        FulfilsAccount(s, t, task.id);
      } else {
        WaitBlocked(s, t, PendingWait(task, request.required, target, Deadline(env.now, request.timeout)));
      }
    }
  }

  lemma TaskAccount(s: State, task: Task, env: Env)
    ensures Account(ProcessTask(s, task, env)) == Account(s) + multiset{task.id}
  {
    hide VerbOf, Account, Fulfils, Refuse, RefuseWrite, ProcessDirect, ProcessBlpop, ProcessXread, ProcessWait;
    RefuseFulfils(s, task, NOAUTH, env);
    FulfilsAccount(s, Refuse(s, task, NOAUTH, env), task.id);
    RefuseFulfils(s, task, ERR, env);
    FulfilsAccount(s, Refuse(s, task, ERR, env), task.id);
    RefuseWriteFulfils(s, task);
    FulfilsAccount(s, RefuseWrite(s, task), task.id);
    DirectFulfils(s, task, env);
    FulfilsAccount(s, ProcessDirect(s, task, env), task.id);
    BlpopAccount(s, task, env);
    XreadAccount(s, task, env);
    WaitAccount(s, task, env);
  }

  /* ---------- The loops only move promises ---------- */

  /* During a loop over a queue, the promises of that queue are those of `queue` and `kept`. */

  function PopAccount(s: State, queue: seq<PendingPop>, kept: seq<PendingPop>): multiset<TaskId> {
    multiset(PopIds(queue)) + multiset(PopIds(kept)) + multiset(ReadIds(s.pendingReads))
    + multiset(WaitIds(s.pendingWaits)) + multiset(ReplyIds(s.replies))
  }

  function ReadAccount(s: State, queue: seq<PendingRead>, kept: seq<PendingRead>): multiset<TaskId> {
    multiset(ReadIds(queue)) + multiset(ReadIds(kept)) + multiset(PopIds(s.pendingPops))
    + multiset(WaitIds(s.pendingWaits)) + multiset(ReplyIds(s.replies))
  }

  function WaitsAccount(s: State, queue: seq<PendingWait>, kept: seq<PendingWait>): multiset<TaskId> {
    multiset(WaitIds(queue)) + multiset(WaitIds(kept)) + multiset(PopIds(s.pendingPops))
    + multiset(ReadIds(s.pendingReads)) + multiset(ReplyIds(s.replies))
  }

  /** The front of a queue is kept, possibly with new requests, and no promise moves. */
  lemma PopKept(s: State, t: State, queue: seq<PendingPop>, kept: seq<PendingPop>)
    requires queue != [] && SameQueues(s, t)
    ensures PopAccount(t, queue[1..], kept + [queue[0]]) == PopAccount(s, queue, kept)
  {
    assert PopIds(queue) == [queue[0].task.id] + PopIds(queue[1..]);
    assert PopIds(kept + [queue[0]]) == PopIds(kept) + [queue[0].task.id];
  }

  lemma PopMoved(s: State, t: State, queue: seq<PendingPop>, kept: seq<PendingPop>)
    requires queue != [] && Fulfils(s, t, queue[0].task.id)
    ensures PopAccount(t, queue[1..], kept) == PopAccount(s, queue, kept)
  {
    var response :| t.replies == s.replies + [Reply(queue[0].task.id, response)];
    assert PopIds(queue) == [queue[0].task.id] + PopIds(queue[1..]);
    assert ReplyIds(t.replies) == ReplyIds(s.replies) + [queue[0].task.id];
  }

  lemma ReadKept(s: State, t: State, queue: seq<PendingRead>, kept: seq<PendingRead>, requests: seq<ReadRequest>)
    requires queue != [] && SameQueues(s, t)
    ensures ReadAccount(t, queue[1..], kept + [queue[0].(requests := requests)]) == ReadAccount(s, queue, kept)
  {
    assert ReadIds(queue) == [queue[0].task.id] + ReadIds(queue[1..]);
    assert ReadIds(kept + [queue[0].(requests := requests)]) == ReadIds(kept) + [queue[0].task.id];
  }

  lemma ReadMoved(s: State, t: State, queue: seq<PendingRead>, kept: seq<PendingRead>)
    requires queue != [] && Fulfils(s, t, queue[0].task.id)
    ensures ReadAccount(t, queue[1..], kept) == ReadAccount(s, queue, kept)
  {
    var response :| t.replies == s.replies + [Reply(queue[0].task.id, response)];
    assert ReadIds(queue) == [queue[0].task.id] + ReadIds(queue[1..]);
    assert ReplyIds(t.replies) == ReplyIds(s.replies) + [queue[0].task.id];
  }

  lemma WaitKept(s: State, t: State, queue: seq<PendingWait>, kept: seq<PendingWait>)
    requires queue != [] && SameQueues(s, t)
    ensures WaitsAccount(t, queue[1..], kept + [queue[0]]) == WaitsAccount(s, queue, kept)
  {
    assert WaitIds(queue) == [queue[0].task.id] + WaitIds(queue[1..]);
    assert WaitIds(kept + [queue[0]]) == WaitIds(kept) + [queue[0].task.id];
  }

  lemma WaitMoved(s: State, t: State, queue: seq<PendingWait>, kept: seq<PendingWait>)
    requires queue != [] && Fulfils(s, t, queue[0].task.id)
    ensures WaitsAccount(t, queue[1..], kept) == WaitsAccount(s, queue, kept)
  {
    var response :| t.replies == s.replies + [Reply(queue[0].task.id, response)];
    assert WaitIds(queue) == [queue[0].task.id] + WaitIds(queue[1..]);
    assert ReplyIds(t.replies) == ReplyIds(s.replies) + [queue[0].task.id];
  }

  lemma {:induction false} CancelPopsAccount(s: State, queue: seq<PendingPop>, kept: seq<PendingPop>, client: ClientId)
    ensures Account(CancelPops(s, queue, kept, client)) == PopAccount(s, queue, kept)
    decreases |queue|
  {
    if queue != [] {
      hide Account, PopAccount, Fulfils;
      if queue[0].task.client != client {
        PopKept(s, s, queue, kept);
        CancelPopsAccount(s, queue[1..], kept + [queue[0]], client);
      } else {
        var t := Answer(s, queue[0].task, NoResponse);
        AnswerFulfils(s, s, queue[0].task, NoResponse);
        PopMoved(s, t, queue, kept);
        CancelPopsAccount(t, queue[1..], kept, client);
      }
    }
  }

  lemma {:induction false} CancelReadsAccount(s: State, queue: seq<PendingRead>, kept: seq<PendingRead>, client: ClientId)
    ensures Account(CancelReads(s, queue, kept, client)) == ReadAccount(s, queue, kept)
    decreases |queue|
  {
    if queue != [] {
      hide Account, ReadAccount, Fulfils;
      if queue[0].task.client != client {
        ReadKept(s, s, queue, kept, queue[0].requests);
        CancelReadsAccount(s, queue[1..], kept + [queue[0]], client);
      } else {
        var t := Answer(s, queue[0].task, NoResponse);
        AnswerFulfils(s, s, queue[0].task, NoResponse);
        ReadMoved(s, t, queue, kept);
        CancelReadsAccount(t, queue[1..], kept, client);
      }
    }
  }

  lemma {:induction false} CancelWaitsAccount(s: State, queue: seq<PendingWait>, kept: seq<PendingWait>, client: ClientId)
    ensures Account(CancelWaits(s, queue, kept, client)) == WaitsAccount(s, queue, kept)
    decreases |queue|
  {
    if queue != [] {
      hide Account, WaitsAccount, Fulfils;
      if queue[0].task.client != client {
        WaitKept(s, s, queue, kept);
        CancelWaitsAccount(s, queue[1..], kept + [queue[0]], client);
      } else {
        var t := Answer(s, queue[0].task, NoResponse);
        AnswerFulfils(s, s, queue[0].task, NoResponse);
        WaitMoved(s, t, queue, kept);
        CancelWaitsAccount(t, queue[1..], kept, client);
      }
    }
  }

  lemma {:induction false} RetryPopsAccount(s: State, queue: seq<PendingPop>, kept: seq<PendingPop>, env: Env)
    ensures Account(RetryPops(s, queue, kept, env)) == PopAccount(s, queue, kept)
    decreases |queue|
  {
    if queue != [] {
      hide Account, PopAccount, Fulfils, AttemptPop;
      var attempt := AttemptPop(s, queue[0].task, queue[0].key, env);
      AttemptFulfils(s, queue[0].task, queue[0].key, env);
      if attempt.served {
        PopMoved(s, attempt.state, queue, kept);
        RetryPopsAccount(attempt.state, queue[1..], kept, env);
      } else {
        PopKept(s, attempt.state, queue, kept);
        RetryPopsAccount(attempt.state, queue[1..], kept + [queue[0]], env);
      }
    }
  }

  lemma {:induction false} RetryReadsAccount(s: State, queue: seq<PendingRead>, kept: seq<PendingRead>, env: Env)
    ensures Account(RetryReads(s, queue, kept, env)) == ReadAccount(s, queue, kept)
    decreases |queue|
  {
    if queue != [] {
      hide Account, ReadAccount, Fulfils, ReadStreams, XreadResponse;
      var reading := ReadStreams(s.db, queue[0].requests, env.now);
      var after := s.(db := reading.db);
      if reading.results.Some? && reading.results.value == [] {
        ReadKept(s, after, queue, kept, reading.requests);
        RetryReadsAccount(after, queue[1..], kept + [queue[0].(requests := reading.requests)], env);
      } else {
        var response := if reading.results.None? then WRONGTYPE else XreadResponse(reading.results.value);
        var t := Answer(after, queue[0].task, response);
        AnswerFulfils(s, after, queue[0].task, response);
        ReadMoved(s, t, queue, kept);
        RetryReadsAccount(t, queue[1..], kept, env);
      }
    }
  }

  lemma {:induction false} RetryWaitsAccount(s: State, queue: seq<PendingWait>, kept: seq<PendingWait>)
    ensures Account(RetryWaits(s, queue, kept)) == WaitsAccount(s, queue, kept)
    decreases |queue|
  {
    if queue != [] {
      hide Account, WaitsAccount, Fulfils, CountReached, Prune;
      var count := CountReached(s.replication.sessions, s.replication.acknowledged, queue[0].target);
      var pruned := s.(replication := Prune(s.replication));
      if count < queue[0].required {
        WaitKept(s, pruned, queue, kept);
        RetryWaitsAccount(pruned, queue[1..], kept + [queue[0]]);
      } else {
        var t := Answer(pruned, queue[0].task, Integer(count));
        AnswerFulfils(s, pruned, queue[0].task, Integer(count));
        WaitMoved(s, t, queue, kept);
        RetryWaitsAccount(t, queue[1..], kept);
      }
    }
  }

  lemma {:induction false} ExpirePopsAccount(s: State, queue: seq<PendingPop>, kept: seq<PendingPop>, now: nat)
    ensures Account(ExpirePops(s, queue, kept, now)) == PopAccount(s, queue, kept)
    decreases |queue|
  {
    if queue != [] {
      hide Account, PopAccount, Fulfils, Overdue;
      if !Overdue(queue[0].deadline, now) {
        PopKept(s, s, queue, kept);
        ExpirePopsAccount(s, queue[1..], kept + [queue[0]], now);
      } else {
        var t := Answer(s, queue[0].task, NullArray);
        AnswerFulfils(s, s, queue[0].task, NullArray);
        PopMoved(s, t, queue, kept);
        ExpirePopsAccount(t, queue[1..], kept, now);
      }
    }
  }

  lemma {:induction false} ExpireReadsAccount(s: State, queue: seq<PendingRead>, kept: seq<PendingRead>, now: nat)
    ensures Account(ExpireReads(s, queue, kept, now)) == ReadAccount(s, queue, kept)
    decreases |queue|
  {
    if queue != [] {
      hide Account, ReadAccount, Fulfils, Overdue;
      if !Overdue(queue[0].deadline, now) {
        ReadKept(s, s, queue, kept, queue[0].requests);
        ExpireReadsAccount(s, queue[1..], kept + [queue[0]], now);
      } else {
        var t := Answer(s, queue[0].task, NullArray);
        AnswerFulfils(s, s, queue[0].task, NullArray);
        ReadMoved(s, t, queue, kept);
        ExpireReadsAccount(t, queue[1..], kept, now);
      }
    }
  }

  lemma {:induction false} ExpireWaitsAccount(s: State, queue: seq<PendingWait>, kept: seq<PendingWait>, now: nat)
    ensures Account(ExpireWaits(s, queue, kept, now)) == WaitsAccount(s, queue, kept)
    decreases |queue|
  {
    if queue != [] {
      hide Account, WaitsAccount, Fulfils, CountReached, Prune, Overdue;
      if !Overdue(queue[0].deadline, now) {
        WaitKept(s, s, queue, kept);
        ExpireWaitsAccount(s, queue[1..], kept + [queue[0]], now);
      } else {
        var count := CountReached(s.replication.sessions, s.replication.acknowledged, queue[0].target);
        var pruned := s.(replication := Prune(s.replication));
        var t := Answer(pruned, queue[0].task, Integer(count));
        AnswerFulfils(s, pruned, queue[0].task, Integer(count));
        WaitMoved(s, t, queue, kept);
        ExpireWaitsAccount(t, queue[1..], kept, now);
      }
    }
  }

  /** A loop over a whole queue starts from the account of the state. */
  lemma WholeQueues(s: State)
    ensures PopAccount(s, s.pendingPops, []) == Account(s)
    ensures ReadAccount(s, s.pendingReads, []) == Account(s)
    ensures WaitsAccount(s, s.pendingWaits, []) == Account(s)
  {
  }

  lemma SettleAccount(s: State, env: Env)
    ensures Account(RetryAll(s, env)) == Account(s)
  {
    hide Account, PopAccount, ReadAccount, WaitsAccount, RetryPops, RetryReads, RetryWaits;
    var a := RetryPops(s, s.pendingPops, [], env);
    var b := RetryReads(a, a.pendingReads, [], env);
    WholeQueues(s);
    RetryPopsAccount(s, s.pendingPops, [], env);
    WholeQueues(a);
    RetryReadsAccount(a, a.pendingReads, [], env);
    WholeQueues(b);
    RetryWaitsAccount(b, b.pendingWaits, []);
  }

  lemma ExpireAccount(s: State, now: nat)
    ensures Account(ExpireAll(s, now)) == Account(s)
  {
    hide Account, PopAccount, ReadAccount, WaitsAccount, ExpirePops, ExpireReads, ExpireWaits;
    var a := ExpirePops(s, s.pendingPops, [], now);
    var b := ExpireReads(a, a.pendingReads, [], now);
    WholeQueues(s);
    ExpirePopsAccount(s, s.pendingPops, [], now);
    WholeQueues(a);
    ExpireReadsAccount(a, a.pendingReads, [], now);
    WholeQueues(b);
    ExpireWaitsAccount(b, b.pendingWaits, [], now);
  }

  /* ---------- Every task ---------- */

  lemma {:induction false} ReplayQueues(s: State, commands: seq<Command>, env: Env)
    ensures SameQueues(s, ReplayCommands(s, commands, env).state)
    decreases |commands|
  {
    hide ProcessCommand;
    if commands != [] {
      var processed := ProcessCommand(s, AOF_CLIENT, commands[0], FromAof, env);
      CommandQueues(s, AOF_CLIENT, commands[0], FromAof, env);
      if !processed.response.SimpleError? {
        ReplayQueues(processed.state, commands[1..], env);
      }
    }
  }

  lemma UnregisterAccount(s: State, client: ClientId)
    ensures Account(ProcessUnregister(s, client)) == Account(s)
  {
    hide PopAccount, ReadAccount, WaitsAccount, CancelPops, CancelReads, CancelWaits, Forget;
    var a := CancelPops(s, s.pendingPops, [], client);
    var b := CancelReads(a, s.pendingReads, [], client);
    CancelPopsOthers(s, s.pendingPops, [], client);
    CancelReadsOthers(a, s.pendingReads, [], client);
    WholeQueues(s);
    CancelPopsAccount(s, s.pendingPops, [], client);
    WholeQueues(a);
    CancelReadsAccount(a, a.pendingReads, [], client);
    WholeQueues(b);
    CancelWaitsAccount(b, b.pendingWaits, [], client);
  }

  /** The promise a task brings along. */
  function Promise(t: ProcessorTask): seq<TaskId> {
    if t.CommandTask? then [t.task.id] else []
  }

  lemma ProcessAccount(s: State, t: ProcessorTask, env: Env)
    ensures Account(Process(s, t, env)) == Account(s) + multiset(Promise(t))
  {
    hide ProcessTask, LoadEntries, ReplayCommands, ProcessUnregister;
    match t {
      case CommandTask(task) => TaskAccount(s, task, env);
      case InitializeAof(contents, commands) => ReplayQueues(s, commands, env);
      case UnregisterClient(client) => UnregisterAccount(s, client);
      case _ =>
    }
  }

  /** One turn of the worker: exactly the promise of the task joins the account, and none is lost or doubled. */
  lemma StepAccount(s: State, t: ProcessorTask, env: Env)
    ensures Account(Step(s, t, env)) == Account(s) + multiset(Promise(t))
  {
    hide Account, Process, RetryAll, ExpireAll;
    ProcessAccount(s, t, env);
    SettleAccount(Process(s, t, env), env);
    ExpireAccount(RetryAll(Process(s, t, env), env), env.now);
  }

  /* ---------- The worker and its task queue ---------- */

  datatype Worker = Worker(tasks: seq<ProcessorTask>, state: State)

  datatype WorkerEvent =
    | Submit(t: ProcessorTask)                    // any thread puts a task into the queue
    | Take(env: Env)                              // the worker takes the front task
    | WakeUp(now: nat)                            // the worker wakes up for a deadline
    | Move(index: nat, step: SessionStep)         // a replica's connection thread moves

  function WorkerNext(w: Worker, event: WorkerEvent): Worker {
    match event
    case Submit(t) => w.(tasks := w.tasks + [t])
    case Take(env) => if w.tasks == [] then w else Worker(w.tasks[1..], Step(w.state, w.tasks[0], env))
    case WakeUp(now) => w.(state := ExpireAll(w.state, now))
    case Move(index, step) => w.(state := w.state.(replication := StepSessions(w.state.replication, index, step)))
  }

  function WorkerRun(w: Worker, events: seq<WorkerEvent>): Worker
    decreases |events|
  {
    if events == [] then w else WorkerRun(WorkerNext(w, events[0]), events[1..])
  }

  function TaskPromises(tasks: seq<ProcessorTask>): seq<TaskId> {
    if tasks == [] then [] else Promise(tasks[0]) + TaskPromises(tasks[1..])
  }

  function Submitted(events: seq<WorkerEvent>): seq<TaskId> {
    if events == [] then []
    else (if events[0].Submit? then Promise(events[0].t) else []) + Submitted(events[1..])
  }

  function WorkerAccount(w: Worker): multiset<TaskId> {
    multiset(TaskPromises(w.tasks)) + Account(w.state)
  }

  lemma {:induction false} PromisesAppended(tasks: seq<ProcessorTask>, t: ProcessorTask)
    ensures TaskPromises(tasks + [t]) == TaskPromises(tasks) + Promise(t)
  {
    if tasks == [] {
      assert [] + [t] == [t];
    } else {
      PromisesAppended(tasks[1..], t);
      assert (tasks + [t])[1..] == tasks[1..] + [t];
    }
  }

  lemma NextAccount(w: Worker, event: WorkerEvent)
    ensures WorkerAccount(WorkerNext(w, event))
         == WorkerAccount(w) + multiset(if event.Submit? then Promise(event.t) else [])
  {
    hide Step, ExpireAll, StepSessions, Promise;
    match event {
      case Submit(t) =>
        hide Account;
        PromisesAppended(w.tasks, t);
      case Take(env) =>
        hide Account;
        if w.tasks != [] {
          StepAccount(w.state, w.tasks[0], env);
        }
      case WakeUp(now) =>
        hide Account;
        ExpireAccount(w.state, now);
      case Move(_, _) =>
    }
  }

  /** Over every run the account is exactly the promises submitted. */
  lemma {:induction false} RunAccount(w: Worker, events: seq<WorkerEvent>)
    ensures WorkerAccount(WorkerRun(w, events)) == WorkerAccount(w) + multiset(Submitted(events))
    decreases |events|
  {
    hide WorkerAccount, WorkerNext, Promise;
    if events != [] {
      NextAccount(w, events[0]);
      RunAccount(WorkerNext(w, events[0]), events[1..]);
    }
  }

  predicate Distinct(ids: seq<TaskId>) {
    forall i, j :: 0 <= i < j < |ids| ==> ids[i] != ids[j]
  }

  lemma {:induction false} DistinctOnce(ids: seq<TaskId>, id: TaskId)
    requires Distinct(ids)
    ensures multiset(ids)[id] == if id in ids then 1 else 0
  {
    if ids != [] {
      DistinctOnce(ids[1..], id);
      assert ids == [ids[0]] + ids[1..];
    }
  }

  /** How often a promise occurs: unanswered in one of the four queues, or as a reply. */
  function Occurrences(w: Worker, id: TaskId): nat {
    multiset(TaskPromises(w.tasks))[id] + multiset(PopIds(w.state.pendingPops))[id]
    + multiset(ReadIds(w.state.pendingReads))[id] + multiset(WaitIds(w.state.pendingWaits))[id]
    + multiset(ReplyIds(w.state.replies))[id]
  }

  lemma OccurrencesCounted(w: Worker, id: TaskId)
    ensures WorkerAccount(w)[id] == Occurrences(w, id)
  {
  }

  lemma FreshWorker(role: Role, openAccess: bool)
    ensures WorkerAccount(Worker([], InitialState(role, openAccess))) == multiset{}
  {
  }

  /**
   Exactly once: in every run from a fresh processor, a submitted command whose promise is its own has
   been answered once, or is still in exactly one place: the task queue or one of the three queues of
   blocked commands. No other promise appears anywhere.
   */
  lemma ExactlyOnce(role: Role, openAccess: bool, events: seq<WorkerEvent>, id: TaskId)
    requires Distinct(Submitted(events))
    ensures Occurrences(WorkerRun(Worker([], InitialState(role, openAccess)), events), id) ==
            if id in Submitted(events) then 1 else 0
  {
    hide WorkerRun, WorkerAccount, InitialState, Occurrences, Submitted;
    var w := WorkerRun(Worker([], InitialState(role, openAccess)), events);
    RunAccount(Worker([], InitialState(role, openAccess)), events);
    FreshWorker(role, openAccess);
    OccurrencesCounted(w, id);
    DistinctOnce(Submitted(events), id);
  }
}
