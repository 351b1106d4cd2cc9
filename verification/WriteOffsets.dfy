/**
 What WAIT compares: the write offset of its client, which is the end of the client's latest frame, and the offset of
 a replica, which is the greatest that it has acknowledged.
 */
module WriteOffsets {
  import opened Decimal
  import opened Resp
  import opened Aof
  import opened Wrappers
  import opened Responses
  import opened Keyspace
  import opened Commands
  import opened Channels
  import opened ReplicationStream
  import opened Processor
  import opened Invariants

  predicate SameOffsets(s: State, t: State) {
    && t.replication.backlog == s.replication.backlog && t.replication.writeOffsets == s.replication.writeOffsets
    && t.replication.acknowledged == s.replication.acknowledged
  }

  /** At most one frame was streamed; if it belongs to a client, its end is the client's write offset. */
  predicate Streams(s: State, t: State, owner: Option<ClientId>) {
    var before, after := s.replication, t.replication;
    || SameOffsets(s, t)
    || (&& |after.backlog| == |before.backlog| + 1 && before.backlog <= after.backlog
        && after.acknowledged == before.acknowledged
        && after.writeOffsets == if owner.None? then before.writeOffsets
                                 else before.writeOffsets[owner.value := after.backlog[|before.backlog|].endingOffset])
  }

  lemma StreamsThen(s: State, middle: State, t: State, owner: Option<ClientId>)
    requires Streams(s, middle, owner) && SameOffsets(middle, t)
    ensures Streams(s, t, owner)
  {
  }

  lemma StreamsAfter(s: State, middle: State, t: State, owner: Option<ClientId>)
    requires SameOffsets(s, middle) && Streams(middle, t, owner)
    ensures Streams(s, t, owner)
  {
  }

  /* ---------- Commands ---------- */

  lemma RecordStreams(s: State, client: ClientId, source: Source, payload: Bytes, env: Env)
    ensures Streams(s, Record(s, client, source, payload, env).state, Some(client))
    ensures !source.FromClient? ==> SameOffsets(s, Record(s, client, source, payload, env).state)
  {
    hide EnqueueAll;
  }

  lemma RunTransactionStreams(s: State, client: ClientId, commands: seq<Command>, source: Source, env: Env)
    ensures Streams(s, RunTransaction(s, client, commands, source, env).state, Some(client))
    ensures !source.FromClient? ==> SameOffsets(s, RunTransaction(s, client, commands, source, env).state)
  {
    hide RunQueue, Record, SerializeAll, Bracketed, Streams;
    var ran := RunQueue(s.db, commands, 0, env);
    var after := s.(db := ran.db);
    RecordStreams(after, client, source, SerializeAll(Bracketed(ran.logged)), env);
    SameStreams(s, after, client);
    StreamsAfter(s, after, RunTransaction(s, client, commands, source, env).state, Some(client));
  }

  lemma SameStreams(s: State, t: State, client: ClientId)
    requires SameOffsets(s, t)
    ensures Streams(s, t, Some(client)) && Streams(t, t, Some(client))
  {
  }

  lemma ExecuteStreams(s: State, client: ClientId, source: Source, env: Env)
    ensures Streams(s, ExecuteTransaction(s, client, source, env).state, Some(client))
    ensures !source.FromClient? ==> SameOffsets(s, ExecuteTransaction(s, client, source, env).state)
  {
    hide CheckWatched, RunTransaction, Streams;
    SameStreams(s, s, client);
    if client in s.transactions {
      var checked := CheckWatched(s.db, WatchedBy(s, client), env.watchOrder, env.now);
      var ended := s.(db := checked.db, transactions := s.transactions - {client}, watched := s.watched - {client});
      SameStreams(s, ended, client);
      RunTransactionStreams(ended, client, s.transactions[client].commands, source, env);
      StreamsAfter(s, ended, RunTransaction(ended, client, s.transactions[client].commands, source, env).state, Some(client));
    }
  }

  lemma ImmediateSame(s: State, client: ClientId, command: Command, source: Source, env: Env)
    requires command != [] && !VerbOf(command).Exec?
    ensures SameOffsets(s, ProcessImmediate(s, client, command, source, env).state)
  {
    hide VerbOf, ExecuteTransaction, WatchKeys, JoinAll, LeaveAll, Forget, DropFrom;
  }

  lemma CommandStreams(s: State, client: ClientId, command: Command, source: Source, env: Env)
    ensures Streams(s, ProcessCommand(s, client, command, source, env).state, Some(client))
    ensures !VerbOf(command).Exec? || !source.FromClient? ==>
              SameOffsets(s, ProcessCommand(s, client, command, source, env).state)
  {
    hide VerbOf, ExecuteTransaction, DoSubscribe, DoUnsubscribe, DoPublish, DoWatch, DoMulti, DoDiscard, DoAuth,
         ProcessAdministrative, Dispatch;
    if command != [] {
      if VerbOf(command).Exec? {
        ExecuteStreams(s, client, source, env);
      } else {
        hide ProcessImmediate;
        ImmediateSame(s, client, command, source, env);
      }
    }
  }

  lemma DeflectSame(s: State, client: ClientId, env: Env)
    ensures Deflect(s, client, env).state.replication == s.replication
  {
  }

  lemma ConcludeSame(s: State, task: Task, succeeded: bool, response: Response, env: Env)
    ensures SameOffsets(s, Conclude(s, task, succeeded, response, env))
  {
    hide Deflect;
    var advanced := if task.source.FromMaster? && succeeded
                    then s.(replication := s.replication.(offset := s.replication.offset + task.bytes)) else s;
    assert SameOffsets(s, advanced);
    DeflectSame(advanced, task.client, env);
  }

  lemma ExecIsNoWrite(command: Command)
    ensures IsWrite(command) ==> !VerbOf(command).Exec?
  {
    hide VerbOf;
  }

  lemma DirectStreams(s: State, task: Task, env: Env)
    ensures Streams(s, ProcessDirect(s, task, env), Some(task.client))
  {
    hide VerbOf, ProcessCommand, Record, Conclude, IsWrite, Modified, Normalize, SerializeCommand, Streams, SameOffsets;
    var owner := Some(task.client);
    var processed := ProcessCommand(s, task.client, task.command, task.source, env);
    CommandStreams(s, task.client, task.command, task.source, env);
    ExecIsNoWrite(task.command);
    var payload := SerializeCommand(Normalize(task.command, processed.response));
    var recorded := Record(processed.state, task.client, task.source, payload, env);
    RecordStreams(processed.state, task.client, task.source, payload, env);
    var succeeded := !processed.response.SimpleError?;
    var response := if recorded.ok then processed.response else MISCONF;
    ConcludeSame(recorded.state, task, succeeded, response, env);
    ConcludeSame(processed.state, task, succeeded, processed.response, env);
    if task.client !in s.transactions && IsWrite(task.command) && Modified(task.command, processed.response) {
      StreamsAfter(s, processed.state, recorded.state, owner);
      StreamsThen(s, recorded.state, ProcessDirect(s, task, env), owner);
    } else {
      StreamsThen(s, processed.state, ProcessDirect(s, task, env), owner);
    }
  }

  lemma AttemptStreams(s: State, task: Task, key: Bytes, env: Env)
    ensures Streams(s, AttemptPop(s, task, key, env).state, Some(task.client))
  {
    hide Settle, Apply, Look, PopOne, Record, SerializeCommand;
    var settled := Settle(s.db, key, env.now);
    var after := s.(db := Apply(settled, key, PopOne(Look(settled, key)).change));
    RecordStreams(after, task.client, task.source, SerializeCommand(["LPOP", key]), env);
  }

  lemma BlpopStreams(s: State, task: Task, env: Env)
    ensures Streams(s, ProcessBlpop(s, task, env), Some(task.client))
  {
    hide AttemptPop;
    if |task.command| == 3 {
      AttemptStreams(s, task, task.command[1], env);
    }
  }

  lemma XreadSame(s: State, task: Task, env: Env)
    ensures SameOffsets(s, ProcessXread(s, task, env))
  {
    hide ReadStreams, XreadResponse, ParseXread;
  }

  /** The request for acknowledgement is a frame that belongs to nobody. */
  lemma WaitStreams(s: State, task: Task, env: Env)
    ensures Streams(s, ProcessWait(s, task, env), None)
  {
    hide ParseWait, CountReached, Live, EnqueueAll, SerializeCommand;
  }

  lemma RefusedSame(s: State, task: Task, response: Response, env: Env)
    ensures SameOffsets(s, Refuse(s, task, response, env)) && SameOffsets(s, RefuseWrite(s, task))
  {
    hide Deflect;
    DeflectSame(s, task.client, env);
  }

  /** The owner of a frame that a command streams. */
  function OwnerOf(s: State, task: Task): Option<ClientId> {
    if VerbOf(task.command).Wait? && task.client !in s.transactions then None else Some(task.client)
  }

  lemma TaskStreams(s: State, task: Task, env: Env)
    ensures Streams(s, ProcessTask(s, task, env), OwnerOf(s, task))
  {
    hide VerbOf, IsWrite, Refuse, RefuseWrite, ProcessDirect, ProcessBlpop, ProcessXread, ProcessWait;
    DirectStreams(s, task, env);
    BlpopStreams(s, task, env);
    XreadSame(s, task, env);
    WaitStreams(s, task, env);
    RefusedSame(s, task, NOAUTH, env);
    RefusedSame(s, task, ERR, env);
  }

  lemma {:induction false} ReplaySame(s: State, commands: seq<Command>, env: Env)
    ensures SameOffsets(s, ReplayCommands(s, commands, env).state)
    decreases |commands|
  {
    hide ProcessCommand, VerbOf;
    if commands != [] {
      CommandStreams(s, AOF_CLIENT, commands[0], FromAof, env);
      ReplaySame(ProcessCommand(s, AOF_CLIENT, commands[0], FromAof, env).state, commands[1..], env);
    }
  }

  /* ---------- The rest of a turn ---------- */

  lemma {:induction false} RetryReadsSame(s: State, queue: seq<PendingRead>, kept: seq<PendingRead>, env: Env)
    ensures SameOffsets(s, RetryReads(s, queue, kept, env))
    decreases |queue|
  {
    hide ReadStreams, XreadResponse;
    if queue != [] {
      var reading := ReadStreams(s.db, queue[0].requests, env.now);
      var after := s.(db := reading.db);
      if reading.results.None? {
        RetryReadsSame(Answer(after, queue[0].task, WRONGTYPE), queue[1..], kept, env);
      } else if reading.results.value == [] {
        RetryReadsSame(after, queue[1..], kept + [queue[0].(requests := reading.requests)], env);
      } else {
        RetryReadsSame(Answer(after, queue[0].task, XreadResponse(reading.results.value)), queue[1..], kept, env);
      }
    }
  }

  lemma {:induction false} RetryWaitsSameOffsets(s: State, queue: seq<PendingWait>, kept: seq<PendingWait>)
    ensures SameOffsets(s, RetryWaits(s, queue, kept))
    decreases |queue|
  {
    hide CountReached, Live;
    if queue != [] {
      var count := CountReached(s.replication.sessions, s.replication.acknowledged, queue[0].target);
      var pruned := s.(replication := Prune(s.replication));
      if count < queue[0].required {
        RetryWaitsSameOffsets(pruned, queue[1..], kept + [queue[0]]);
      } else {
        RetryWaitsSameOffsets(Answer(pruned, queue[0].task, Integer(count)), queue[1..], kept);
      }
    }
  }

  lemma {:induction false} ExpireWaitsSameOffsets(s: State, queue: seq<PendingWait>, kept: seq<PendingWait>, now: nat)
    ensures SameOffsets(s, ExpireWaits(s, queue, kept, now))
    decreases |queue|
  {
    hide CountReached, Live, Overdue;
    if queue != [] {
      if !Overdue(queue[0].deadline, now) {
        ExpireWaitsSameOffsets(s, queue[1..], kept + [queue[0]], now);
      } else {
        var count := CountReached(s.replication.sessions, s.replication.acknowledged, queue[0].target);
        var middle := Answer(s.(replication := Prune(s.replication)), queue[0].task, Integer(count));
        ExpireWaitsSameOffsets(middle, queue[1..], kept, now);
      }
    }
  }

  lemma ExpireAllSame(s: State, now: nat)
    ensures SameOffsets(s, ExpireAll(s, now))
  {
    hide ExpirePops, ExpireReads, ExpireWaits;
    var a := ExpirePops(s, s.pendingPops, [], now);
    ExpirePopsCore(s, s.pendingPops, [], now);
    var b := ExpireReads(a, a.pendingReads, [], now);
    ExpireReadsCore(a, a.pendingReads, [], now);
    ExpireWaitsSameOffsets(b, b.pendingWaits, [], now);
  }

  /** What follows the retries of the pops. */
  lemma TurnEndSame(s: State, env: Env)
    ensures SameOffsets(RetryPops(s, s.pendingPops, [], env), ExpireAll(RetryAll(s, env), env.now))
  {
    hide RetryPops, RetryReads, RetryWaits, ExpireAll;
    var a := RetryPops(s, s.pendingPops, [], env);
    RetryReadsSame(a, a.pendingReads, [], env);
    var b := RetryReads(a, a.pendingReads, [], env);
    RetryWaitsSameOffsets(b, b.pendingWaits, []);
    ExpireAllSame(RetryAll(s, env), env.now);
  }

  /* ---------- The frames of a run and their owners ---------- */

  /** The owners of the frames that a run of attempts streams. */
  function RetryOwners(s: State, queue: seq<PendingPop>, env: Env): seq<Option<ClientId>>
    decreases |queue|
  {
    if queue == [] then []
    else
      var t := AttemptPop(s, queue[0].task, queue[0].key, env).state;
      (if |t.replication.backlog| == |s.replication.backlog| then [] else [Some(queue[0].task.client)])
      + RetryOwners(t, queue[1..], env)
  }

  function ProcessOwners(s: State, t: ProcessorTask, env: Env): seq<Option<ClientId>> {
    if |Process(s, t, env).replication.backlog| == |s.replication.backlog| then []
    else [if t.CommandTask? then OwnerOf(s, t.task) else None]
  }

  function Owners(s: State, event: Event): seq<Option<ClientId>> {
    match event
    case Work(t, env) =>
      var processed := Process(s, t, env);
      ProcessOwners(s, t, env) + RetryOwners(processed, processed.pendingPops, env)
    case _ => []
  }

  function OwnersIn(s: State, events: seq<Event>): seq<Option<ClientId>>
    decreases |events|
  {
    if events == [] then [] else Owners(s, events[0]) + OwnersIn(Next(s, events[0]), events[1..])
  }

  /** The end of the last of the frames that belongs to the client, or what there was before. */
  function LatestEnd(frames: seq<Frame>, owners: seq<Option<ClientId>>, client: ClientId, before: nat): nat
    requires |frames| == |owners|
  {
    if frames == [] then before
    else
      var n := |frames| - 1;
      if owners[n] == Some(client) then frames[n].endingOffset else LatestEnd(frames[..n], owners[..n], client, before)
  }

  lemma {:induction false} LatestAppended(
    f: seq<Frame>, g: seq<Frame>, a: seq<Option<ClientId>>, b: seq<Option<ClientId>>, client: ClientId, before: nat)
    requires |f| == |a| && |g| == |b|
    ensures LatestEnd(f + g, a + b, client, before) == LatestEnd(g, b, client, LatestEnd(f, a, client, before))
    decreases |g|
  {
    if g == [] {
      assert f + g == f && a + b == a;
    } else {
      var n := |g| - 1;
      assert (f + g)[..|f| + n] == f + g[..n] && (a + b)[..|a| + n] == a + b[..n];
      LatestAppended(f, g[..n], a, b[..n], client, before);
    }
  }

  /** From `s` to `t` these clients streamed, and the write offset of the client is the end of its latest frame. */
  predicate Owned(s: State, t: State, owners: seq<Option<ClientId>>, client: ClientId) {
    && s.replication.backlog <= t.replication.backlog
    && |t.replication.backlog| == |s.replication.backlog| + |owners|
    && WriteOffset(t.replication, client) ==
       LatestEnd(t.replication.backlog[|s.replication.backlog|..], owners, client, WriteOffset(s.replication, client))
  }

  lemma OwnedSame(s: State, t: State, client: ClientId)
    requires SameOffsets(s, t)
    ensures Owned(s, t, [], client)
  {
  }

  lemma OwnedTrans(s: State, middle: State, t: State, a: seq<Option<ClientId>>, b: seq<Option<ClientId>>, client: ClientId)
    requires Owned(s, middle, a, client) && Owned(middle, t, b, client)
    ensures Owned(s, t, a + b, client)
  {
    hide LatestEnd;
    var x, y, z := s.replication.backlog, middle.replication.backlog, t.replication.backlog;
    assert z[|x|..] == y[|x|..] + z[|y|..];
    LatestAppended(y[|x|..], z[|y|..], a, b, client, WriteOffset(s.replication, client));
  }

  lemma OwnedThen(s: State, middle: State, t: State, owners: seq<Option<ClientId>>, client: ClientId)
    requires Owned(s, middle, owners, client) && SameOffsets(middle, t)
    ensures Owned(s, t, owners, client)
  {
    hide LatestEnd;
  }

  lemma OwnedOne(s: State, t: State, owner: Option<ClientId>, client: ClientId)
    requires Streams(s, t, owner)
    ensures Owned(s, t, if |t.replication.backlog| == |s.replication.backlog| then [] else [owner], client)
  {
    if |t.replication.backlog| == |s.replication.backlog| {
      OwnedSame(s, t, client);
    } else {
      var streamed := t.replication.backlog[|s.replication.backlog|..];
      assert streamed[..0] == [];
    }
  }

  lemma {:induction false} RetryPopsOwned(s: State, queue: seq<PendingPop>, kept: seq<PendingPop>, env: Env, client: ClientId)
    ensures Owned(s, RetryPops(s, queue, kept, env), RetryOwners(s, queue, env), client)
    decreases |queue|
  {
    hide AttemptPop, Owned, Streams;
    if queue == [] {
      OwnedSame(s, s.(pendingPops := kept), client);
    } else {
      var pop := queue[0];
      var attempt := AttemptPop(s, pop.task, pop.key, env);
      AttemptStreams(s, pop.task, pop.key, env);
      OwnedOne(s, attempt.state, Some(pop.task.client), client);
      var passed := if attempt.served then kept else kept + [pop];
      RetryPopsOwned(attempt.state, queue[1..], passed, env, client);
      OwnedTrans(s, attempt.state, RetryPops(attempt.state, queue[1..], passed, env),
                 if |attempt.state.replication.backlog| == |s.replication.backlog| then [] else [Some(pop.task.client)],
                 RetryOwners(attempt.state, queue[1..], env), client);
    }
  }

  lemma UnregisterSame(s: State, other: ClientId, client: ClientId)
    requires other != client
    ensures Owned(s, ProcessUnregister(s, other), [], client)
    ensures var after := ProcessUnregister(s, other).replication;
            && after.backlog == s.replication.backlog
            && after.acknowledged == s.replication.acknowledged - {other}
  {
    hide CancelPops, CancelReads, CancelWaits, Forget;
    var a := CancelPops(s, s.pendingPops, [], other);
    var b := CancelReads(a, s.pendingReads, [], other);
    CancelPopsCore(s, s.pendingPops, [], other);
    CancelReadsCore(a, s.pendingReads, [], other);
    CancelWaitsCore(b, s.pendingWaits, [], other);
  }

  lemma AcknowledgeOwned(s: State, replica: ClientId, offset: nat, client: ClientId)
    ensures Owned(s, s.(replication := Acknowledge(s.replication, replica, offset)), [], client)
  {
  }

  lemma ProcessOwned(s: State, t: ProcessorTask, env: Env, client: ClientId)
    requires t != UnregisterClient(client)
    ensures Owned(s, Process(s, t, env), ProcessOwners(s, t, env), client)
  {
    hide ProcessTask, LoadEntries, ReplayCommands, ProcessUnregister, Owned, Streams, OwnerOf;
    match t {
      case CommandTask(task) =>
        TaskStreams(s, task, env);
        OwnedOne(s, ProcessTask(s, task, env), OwnerOf(s, task), client);
      case InitializeAof(_, commands) =>
        ReplaySame(s, commands, env);
        OwnedSame(s, Process(s, t, env), client);
      case UnregisterClient(other) => UnregisterSame(s, other, client);
      case RegisterReplica(_) => OwnedSame(s, Process(s, t, env), client);
      case InstallReplicationState(_) => OwnedSame(s, Process(s, t, env), client);
      case GetReplicationOffset => OwnedSame(s, s, client);
      case AcknowledgeReplica(replica, offset) => AcknowledgeOwned(s, replica, offset, client);
      case LoadRdb(_, _) => OwnedSame(s, Process(s, t, env), client);
      case RegisterClient(_) => OwnedSame(s, Process(s, t, env), client);
    }
  }

  /** Every event but the departure of the client. */
  lemma NextOwned(s: State, event: Event, client: ClientId)
    requires event.Work? ==> event.t != UnregisterClient(client)
    ensures Owned(s, Next(s, event), Owners(s, event), client)
  {
    match event {
      case Work(t, env) =>
        hide Process, RetryPops, RetryAll, ExpireAll, Owned, ProcessOwners, RetryOwners;
        var processed := Process(s, t, env);
        var retried := RetryPops(processed, processed.pendingPops, [], env);
        ProcessOwned(s, t, env, client);
        RetryPopsOwned(processed, processed.pendingPops, [], env, client);
        TurnEndSame(processed, env);
        OwnedThen(processed, retried, Step(s, t, env), RetryOwners(processed, processed.pendingPops, env), client);
        OwnedTrans(s, processed, Step(s, t, env), ProcessOwners(s, t, env),
                   RetryOwners(processed, processed.pendingPops, env), client);
      case Tick(now) =>
        hide ExpireAll, Owned;
        ExpireAllSame(s, now);
        OwnedSame(s, ExpireAll(s, now), client);
      case Connection(_, _) =>
        hide Owned, StepSession;
        OwnedSame(s, Next(s, event), client);
    }
  }

  /**
   Over every run in which the client is not unregistered, its write offset, which is the target of its next WAIT,
   is the end of its latest frame of the stream, whatever other clients stream in between.
   */
  lemma {:induction false} WriteOffsetIsLatest(s: State, events: seq<Event>, client: ClientId)
    requires forall i :: 0 <= i < |events| && events[i].Work? ==> events[i].t != UnregisterClient(client)
    ensures Owned(s, Run(s, events), OwnersIn(s, events), client)
    decreases |events|
  {
    hide Owned, Next, Owners;
    if events == [] {
      OwnedSame(s, s, client);
    } else {
      NextOwned(s, events[0], client);
      WriteOffsetIsLatest(Next(s, events[0]), events[1..], client);
      OwnedTrans(s, Next(s, events[0]), Run(s, events), Owners(s, events[0]),
                 OwnersIn(Next(s, events[0]), events[1..]), client);
    }
  }

  /* ---------- The greatest acknowledgement ---------- */

  function AcknowledgedBy(s: State, replica: ClientId): nat {
    if replica in s.replication.acknowledged then s.replication.acknowledged[replica] else 0
  }

  predicate Reports(event: Event, replica: ClientId) {
    event.Work? && event.t.AcknowledgeReplica? && event.t.client == replica
  }

  function Max(a: nat, b: nat): nat {
    if a < b then b else a
  }

  /** The greatest offset that the replica reports in a run, or what it had before if that is greater. */
  function GreatestReport(events: seq<Event>, replica: ClientId, before: nat): nat
    decreases |events|
  {
    if events == [] then before
    else GreatestReport(events[1..], replica, if Reports(events[0], replica) then Max(before, events[0].t.offset) else before)
  }

  lemma {:induction false} RetryPopsAcknowledged(s: State, queue: seq<PendingPop>, kept: seq<PendingPop>, env: Env)
    ensures RetryPops(s, queue, kept, env).replication.acknowledged == s.replication.acknowledged
    decreases |queue|
  {
    hide AttemptPop;
    if queue != [] {
      var attempt := AttemptPop(s, queue[0].task, queue[0].key, env);
      AttemptStreams(s, queue[0].task, queue[0].key, env);
      RetryPopsAcknowledged(attempt.state, queue[1..], if attempt.served then kept else kept + [queue[0]], env);
    }
  }

  lemma ProcessAcknowledged(s: State, t: ProcessorTask, env: Env, replica: ClientId)
    requires t != UnregisterClient(replica)
    ensures AcknowledgedBy(Process(s, t, env), replica) ==
            if t.AcknowledgeReplica? && t.client == replica then Max(AcknowledgedBy(s, replica), t.offset)
            else AcknowledgedBy(s, replica)
  {
    hide ProcessTask, LoadEntries, ReplayCommands, ProcessUnregister, OwnerOf;
    match t {
      case CommandTask(task) => TaskStreams(s, task, env);
      case InitializeAof(_, commands) => ReplaySame(s, commands, env);
      case UnregisterClient(other) => UnregisterSame(s, other, replica);
      case _ =>
    }
  }

  lemma NextAcknowledged(s: State, event: Event, replica: ClientId)
    requires event.Work? ==> event.t != UnregisterClient(replica)
    ensures AcknowledgedBy(Next(s, event), replica) == GreatestReport([event], replica, AcknowledgedBy(s, replica))
  {
    assert [event][1..] == [];
    match event {
      case Work(t, env) =>
        hide Process, RetryPops, RetryAll, ExpireAll;
        var processed := Process(s, t, env);
        ProcessAcknowledged(s, t, env, replica);
        RetryPopsAcknowledged(processed, processed.pendingPops, [], env);
        TurnEndSame(processed, env);
      case Tick(now) =>
        hide ExpireAll;
        ExpireAllSame(s, now);
      case Connection(_, _) => hide StepSession;
    }
  }

  /** Over every run in which a replica is not unregistered, what counts for WAIT is its greatest report, not its last. */
  lemma {:induction false} AcknowledgedIsGreatest(s: State, events: seq<Event>, replica: ClientId)
    requires forall i :: 0 <= i < |events| && events[i].Work? ==> events[i].t != UnregisterClient(replica)
    ensures AcknowledgedBy(Run(s, events), replica) == GreatestReport(events, replica, AcknowledgedBy(s, replica))
    decreases |events|
  {
    hide Next, AcknowledgedBy, Reports;
    if events != [] {
      NextAcknowledged(s, events[0], replica);
      assert [events[0]][1..] == [];
      AcknowledgedIsGreatest(Next(s, events[0]), events[1..], replica);
    }
  }

  /** It is at least every report, and one of them if it grew. */
  lemma {:induction false} GreatestIsGreatest(events: seq<Event>, replica: ClientId, before: nat)
    ensures var greatest := GreatestReport(events, replica, before);
            && greatest >= before
            && (forall i :: 0 <= i < |events| && Reports(events[i], replica) ==> greatest >= events[i].t.offset)
            && (greatest == before
                || exists i :: 0 <= i < |events| && Reports(events[i], replica) && greatest == events[i].t.offset)
    decreases |events|
  {
    if events != [] {
      var next := if Reports(events[0], replica) then Max(before, events[0].t.offset) else before;
      GreatestIsGreatest(events[1..], replica, next);
      var greatest := GreatestReport(events, replica, before);
      if greatest != next {
        var i :| 0 <= i < |events[1..]| && Reports(events[1..][i], replica) && greatest == events[1..][i].t.offset;
        assert events[i + 1] == events[1..][i];
      }
      forall i | 0 <= i < |events| && Reports(events[i], replica) ensures greatest >= events[i].t.offset {
        if i > 0 {
          assert events[1..][i - 1] == events[i];
        }
      }
    }
  }
}
