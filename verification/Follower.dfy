/** A replica: it moves with its master's stream, and with nothing else. */
module Follower {
  import opened Wrappers
  import opened Decimal
  import opened Resp
  import opened Aof
  import opened Responses
  import opened Keyspace
  import opened Commands
  import opened Replayable
  import opened Channels
  import opened ReplicationStream
  import opened Processor
  import opened Invariants
  import opened Ledger
  import opened Blocking
  import opened LogMeaning
  import opened Replay
  import opened Recovery
  import opened WatchRuns

  /** No client but the master has a write waiting in a transaction. */
  ghost predicate ReadOnlyQueues(transactions: map<ClientId, Transaction>) {
    forall client :: client in transactions && client != MASTER_CLIENT ==>
      forall i :: 0 <= i < |transactions[client].commands| ==> !IsWrite(transactions[client].commands[i])
  }

  /** The replica stands where the stream has brought it. */
  ghost predicate ReplicaAt(s: State, m: Machine) {
    && s.replication.role.Replica?
    && Matches(s, m, MASTER_CLIENT)
    && s.pendingPops == []
    && ReadOnlyQueues(s.transactions)
  }

  /** Nothing that the stream decides has changed. */
  ghost predicate Steady(s: State, t: State) {
    && t.db == s.db && t.pendingPops == s.pendingPops
    && t.replication.role == s.replication.role && t.replication.offset == s.replication.offset
    && (MASTER_CLIENT in t.transactions <==> MASTER_CLIENT in s.transactions)
    && (MASTER_CLIENT in t.transactions ==> t.transactions[MASTER_CLIENT] == s.transactions[MASTER_CLIENT])
    && (MASTER_CLIENT !in s.watched ==> MASTER_CLIENT !in t.watched)
    && (ReadOnlyQueues(s.transactions) ==> ReadOnlyQueues(t.transactions))
  }

  lemma SteadyTrans(a: State, b: State, c: State)
    requires Steady(a, b) && Steady(b, c)
    ensures Steady(a, c)
  {
    hide ReadOnlyQueues;
  }

  lemma SteadyReplica(s: State, t: State, m: Machine)
    requires ReplicaAt(s, m) && Steady(s, t)
    ensures ReplicaAt(t, m)
  {
    hide ReadOnlyQueues, NoExpiry, ValuesOf, Logged;
  }

  /* ---------- Reads ---------- */

  /** On a database without expiries a command that is no write changes nothing at all. */
  lemma ReadChangesNothing(db: Db, command: Command, context: Context)
    requires NoExpiry(db) && !IsWrite(command)
    ensures Dispatch(db, command, context).db == db
  {
    hide VerbOf, ArgumentsValid, Decide, NoExpiry, ParseXread, ResolveAll, Sweep, Settle, Look, XreadResponse,
         Survivors, Collect;
    if command != [] && ArgumentsValid(command, context) {
      if KeyVerb(VerbOf(command)) {
        SettleNothing(db, command[1], context.now);
        EntryUnexpiring(db, command[1]);
        NotExpiring(command);
        DecideShape(command, context, Look(db, command[1]));
      } else if VerbOf(command).Keys? {
        SweepNothing(db, context.order, context.now);
      } else if VerbOf(command).Xread? {
        ResolveNothing(db, ParseXread(command).value.requests, context.now);
      }
    }
  }

  lemma NotExpiring(command: Command)
    requires !IsWrite(command)
    ensures !ExpiringSet(command)
  {
    hide VerbOf;
  }

  lemma {:induction false} ReadQueueChangesNothing(db: Db, commands: seq<Command>, i: nat, env: Env)
    requires NoExpiry(db)
    requires forall j :: 0 <= j < |commands| ==> !IsWrite(commands[j])
    ensures var ran := RunQueue(db, commands, i, env); ran.db == db && ran.logged == []
    decreases |commands|
  {
    hide NoExpiry, Dispatch, IsWrite, Modified, Normalize;
    if commands != [] {
      ReadChangesNothing(db, commands[0], env.context(i));
      ReadQueueChangesNothing(db, commands[1..], i + 1, env);
    }
  }

  /* ---------- The replica's own clients ---------- */

  /** Changes that concern only the given client, its session or the Pub/Sub indexes. */
  lemma ClientTransactionsSteady(s: State, t: State, client: ClientId)
    requires client != MASTER_CLIENT
    requires t.db == s.db && t.pendingPops == s.pendingPops && t.replication == s.replication
    requires t.transactions - {client} == s.transactions - {client}
    requires t.watched - {client} == s.watched - {client}
    requires client in t.transactions ==>
               forall i :: 0 <= i < |t.transactions[client].commands| ==> !IsWrite(t.transactions[client].commands[i])
    ensures Steady(s, t)
  {
    hide IsWrite;
    var others := s.transactions - {client};
    assert MASTER_CLIENT in t.transactions <==> MASTER_CLIENT in t.transactions - {client};
    assert MASTER_CLIENT in s.transactions <==> MASTER_CLIENT in others;
    assert MASTER_CLIENT in t.transactions ==> t.transactions[MASTER_CLIENT] == (t.transactions - {client})[MASTER_CLIENT];
    assert MASTER_CLIENT in t.watched <==> MASTER_CLIENT in t.watched - {client};
    assert MASTER_CLIENT in s.watched <==> MASTER_CLIENT in s.watched - {client};
    if ReadOnlyQueues(s.transactions) {
      forall c | c in t.transactions && c != MASTER_CLIENT
        ensures forall i :: 0 <= i < |t.transactions[c].commands| ==> !IsWrite(t.transactions[c].commands[i])
      {
        if c != client {
          assert c in t.transactions - {client} && t.transactions[c] == (t.transactions - {client})[c];
        }
      }
    }
  }

  lemma UntouchedSteady(s: State, t: State)
    requires t.db == s.db && t.pendingPops == s.pendingPops
    requires t.replication.role == s.replication.role && t.replication.offset == s.replication.offset
    requires t.transactions == s.transactions && t.watched == s.watched
    ensures Steady(s, t)
  {
    hide ReadOnlyQueues;
  }

  lemma ExecuteSteady(s: State, client: ClientId, env: Env)
    requires client != MASTER_CLIENT && NoExpiry(s.db) && ReadOnlyQueues(s.transactions)
    ensures Steady(s, ExecuteTransaction(s, client, FromClient, env).state)
  {
    hide NoExpiry, RunQueue, CheckWatched, Steady, IsWrite, Record;
    if client in s.transactions {
      CheckNothing(s.db, WatchedBy(s, client), env.watchOrder, env.now);
      ReadQueueChangesNothing(s.db, s.transactions[client].commands, 0, env);
      ClientTransactionsSteady(s, ExecuteTransaction(s, client, FromClient, env).state, client);
    } else {
      UntouchedSteady(s, s);
    }
  }

  lemma SubscribeSteady(s: State, client: ClientId, command: Command, env: Env)
    requires command != []
    ensures Steady(s, DoSubscribe(s, client, command, env).state)
  {
    hide Steady, JoinAll;
    UntouchedSteady(s, DoSubscribe(s, client, command, env).state);
  }

  lemma UnsubscribeSteady(s: State, client: ClientId, command: Command, env: Env)
    requires command != []
    ensures Steady(s, DoUnsubscribe(s, client, command, env).state)
  {
    hide Steady, LeaveAll;
    UntouchedSteady(s, DoUnsubscribe(s, client, command, env).state);
  }

  lemma PublishSteady(s: State, client: ClientId, command: Command, env: Env)
    ensures Steady(s, DoPublish(s, command, env).state)
    ensures Steady(s, DoAuth(s, client, env).state)
  {
    hide Steady, DropFrom;
    UntouchedSteady(s, DoPublish(s, command, env).state);
    UntouchedSteady(s, DoAuth(s, client, env).state);
  }

  lemma WatchSteady(s: State, client: ClientId, command: Command, env: Env)
    requires client != MASTER_CLIENT && NoExpiry(s.db) && ReadOnlyQueues(s.transactions)
    ensures Steady(s, DoWatch(s, client, command, env).state)
  {
    hide Steady, NoExpiry, WatchKeys, IsWrite;
    WatchAside(s, client, command, env);
    ClientTransactionsSteady(s, DoWatch(s, client, command, env).state, client);
  }

  lemma MultiSteady(s: State, client: ClientId)
    requires client != MASTER_CLIENT && ReadOnlyQueues(s.transactions)
    ensures Steady(s, DoMulti(s, client).state)
    ensures Steady(s, DoDiscard(s, client).state)
  {
    hide Steady, IsWrite;
    ClientTransactionsSteady(s, DoMulti(s, client).state, client);
    ClientTransactionsSteady(s, DoDiscard(s, client).state, client);
  }

  lemma AdministrativeSteady(s: State, client: ClientId, command: Command, env: Env)
    requires client != MASTER_CLIENT && ReadOnlyQueues(s.transactions)
    ensures Steady(s, ProcessAdministrative(s, client, command, env).state)
  {
    hide Steady, IsWrite, VerbOf;
    ClientTransactionsSteady(s, ProcessAdministrative(s, client, command, env).state, client);
  }

  lemma QueueOrRunSteady(s: State, client: ClientId, command: Command, env: Env)
    requires client != MASTER_CLIENT && NoExpiry(s.db) && ReadOnlyQueues(s.transactions) && !IsWrite(command)
    ensures Steady(s, QueueOrRun(s, client, command, env).state)
  {
    hide Steady, NoExpiry, IsWrite, Dispatch;
    ReadChangesNothing(s.db, command, env.context(0));
    ClientTransactionsSteady(s, QueueOrRun(s, client, command, env).state, client);
  }

  /** A command of a replica's own client that is no write. */
  lemma CommandSteady(s: State, client: ClientId, command: Command, env: Env)
    requires client != MASTER_CLIENT && NoExpiry(s.db) && ReadOnlyQueues(s.transactions) && !IsWrite(command)
    ensures Steady(s, ProcessCommand(s, client, command, FromClient, env).state)
  {
    hide Steady, NoExpiry, ReadOnlyQueues, VerbOf, IsWrite, DoSubscribe, DoUnsubscribe, DoPublish, DoAuth, DoWatch,
         DoMulti, DoDiscard, ExecuteTransaction, ProcessAdministrative, QueueOrRun;
    UntouchedSteady(s, s);
    if command != [] {
      SubscribeSteady(s, client, command, env);
      UnsubscribeSteady(s, client, command, env);
      PublishSteady(s, client, command, env);
      WatchSteady(s, client, command, env);
      MultiSteady(s, client);
      AdministrativeSteady(s, client, command, env);
      ExecuteSteady(s, client, env);
      QueueOrRunSteady(s, client, command, env);
    }
  }

  lemma ConcludeSteady(s: State, task: Task, succeeded: bool, response: Response, env: Env)
    requires !task.source.FromMaster?
    ensures Steady(s, Conclude(s, task, succeeded, response, env))
  {
    hide Steady, Deflect;
    DeflectUntouched(s, task.client, env);
    UntouchedSteady(s, Conclude(s, task, succeeded, response, env));
  }

  lemma DeflectUntouched(s: State, client: ClientId, env: Env)
    ensures var t := Deflect(s, client, env).state;
            && t.db == s.db && t.pendingPops == s.pendingPops && t.replication == s.replication
            && t.transactions == s.transactions && t.watched == s.watched
  {
  }

  /** A task of one of the replica's own connections. */
  predicate OwnTask(task: Task) {
    task.source.FromClient? && task.client != MASTER_CLIENT
  }

  lemma DirectSteady(s: State, task: Task, env: Env)
    requires OwnTask(task) && NoExpiry(s.db) && ReadOnlyQueues(s.transactions) && !IsWrite(task.command)
    ensures Steady(s, ProcessDirect(s, task, env))
  {
    hide Steady, NoExpiry, ReadOnlyQueues, IsWrite, ProcessCommand, Conclude, Record, Modified, Normalize,
         SerializeCommand;
    var processed := ProcessCommand(s, task.client, task.command, FromClient, env);
    CommandSteady(s, task.client, task.command, env);
    ConcludeSteady(processed.state, task, !processed.response.SimpleError?, processed.response, env);
    SteadyTrans(s, processed.state, ProcessDirect(s, task, env));
  }

  lemma RefuseSteady(s: State, task: Task, response: Response, env: Env)
    ensures Steady(s, Refuse(s, task, response, env))
  {
    hide Steady, Deflect;
    DeflectUntouched(s, task.client, env);
    UntouchedSteady(s, Refuse(s, task, response, env));
  }

  lemma RefuseWriteSteady(s: State, task: Task)
    requires OwnTask(task) && ReadOnlyQueues(s.transactions)
    ensures Steady(s, RefuseWrite(s, task))
  {
    hide Steady, IsWrite;
    ClientTransactionsSteady(s, RefuseWrite(s, task), task.client);
  }

  lemma XreadSteady(s: State, task: Task, env: Env)
    requires NoExpiry(s.db)
    ensures Steady(s, ProcessXread(s, task, env))
  {
    hide Steady, NoExpiry, ReadStreams, ParseXread, XreadResponse;
    match ParseXread(task.command) {
      case None =>
      case Some(read) => ReadNothing(s.db, read.requests, env.now);
    }
    UntouchedSteady(s, ProcessXread(s, task, env));
  }

  lemma WaitSteady(s: State, task: Task, env: Env)
    requires s.replication.role.Replica?
    ensures Steady(s, ProcessWait(s, task, env))
  {
    hide Steady, ParseWait, CountReached;
    UntouchedSteady(s, ProcessWait(s, task, env));
  }

  lemma BlpopIsWrite(command: Command)
    ensures VerbOf(command).Blpop? ==> IsWrite(command)
  {
    hide VerbOf;
  }

  /** Writes of a replica's own clients are refused, inside transactions too. */
  lemma OwnTaskSteady(s: State, task: Task, env: Env)
    requires OwnTask(task) && s.replication.role.Replica? && NoExpiry(s.db) && ReadOnlyQueues(s.transactions)
    ensures Steady(s, ProcessTask(s, task, env))
  {
    hide Steady, NoExpiry, ReadOnlyQueues, VerbOf, IsWrite, Refuse, RefuseWrite, ProcessDirect, ProcessBlpop,
         ProcessXread, ProcessWait;
    RefuseSteady(s, task, NOAUTH, env);
    RefuseSteady(s, task, ERR, env);
    RefuseWriteSteady(s, task);
    BlpopIsWrite(task.command);
    XreadSteady(s, task, env);
    WaitSteady(s, task, env);
    if !IsWrite(task.command) {
      DirectSteady(s, task, env);
    }
  }

  /* ---------- Retries on a replica ---------- */

  lemma {:induction false} RetryReadsSteady(s: State, queue: seq<PendingRead>, kept: seq<PendingRead>, env: Env)
    requires NoExpiry(s.db)
    ensures Steady(s, RetryReads(s, queue, kept, env))
    decreases |queue|
  {
    hide Steady, NoExpiry, ReadStreams, XreadResponse;
    if queue == [] {
      UntouchedSteady(s, s.(pendingReads := kept));
    } else {
      ReadNothing(s.db, queue[0].requests, env.now);
      var reading := ReadStreams(s.db, queue[0].requests, env.now);
      var idle := reading.results.Some? && reading.results.value == [];
      var response := if reading.results.None? then WRONGTYPE else XreadResponse(reading.results.value);
      var next := if idle then s else Answer(s, queue[0].task, response);
      var longer := if idle then kept + [queue[0].(requests := reading.requests)] else kept;
      UntouchedSteady(s, next);
      RetryReadsSteady(next, queue[1..], longer, env);
      SteadyTrans(s, next, RetryReads(next, queue[1..], longer, env));
    }
  }

  lemma PruneSteady(s: State, t: State)
    requires t.db == s.db && t.pendingPops == s.pendingPops && t.replication == Prune(s.replication)
    requires t.transactions == s.transactions && t.watched == s.watched
    ensures Steady(s, t)
  {
    hide Steady;
    UntouchedSteady(s, t);
  }

  lemma {:induction false} RetryWaitsSteady(s: State, queue: seq<PendingWait>, kept: seq<PendingWait>)
    ensures Steady(s, RetryWaits(s, queue, kept))
    decreases |queue|
  {
    hide Steady, Prune, CountReached;
    if queue == [] {
      UntouchedSteady(s, s.(pendingWaits := kept));
    } else {
      var count := CountReached(s.replication.sessions, s.replication.acknowledged, queue[0].target);
      var pruned := s.(replication := Prune(s.replication));
      var waiting := count < queue[0].required;
      var next := if waiting then pruned else Answer(pruned, queue[0].task, Integer(count));
      var longer := if waiting then kept + [queue[0]] else kept;
      PruneSteady(s, next);
      RetryWaitsSteady(next, queue[1..], longer);
      SteadyTrans(s, next, RetryWaits(next, queue[1..], longer));
    }
  }

  lemma {:induction false} ExpireReadsSteady(s: State, queue: seq<PendingRead>, kept: seq<PendingRead>, now: nat)
    ensures Steady(s, ExpireReads(s, queue, kept, now))
    decreases |queue|
  {
    hide Steady, Overdue;
    if queue == [] {
      UntouchedSteady(s, s.(pendingReads := kept));
    } else if !Overdue(queue[0].deadline, now) {
      ExpireReadsSteady(s, queue[1..], kept + [queue[0]], now);
    } else {
      var next := Answer(s, queue[0].task, NullArray);
      UntouchedSteady(s, next);
      ExpireReadsSteady(next, queue[1..], kept, now);
      SteadyTrans(s, next, ExpireReads(next, queue[1..], kept, now));
    }
  }

  lemma {:induction false} ExpireWaitsSteady(s: State, queue: seq<PendingWait>, kept: seq<PendingWait>, now: nat)
    ensures Steady(s, ExpireWaits(s, queue, kept, now))
    decreases |queue|
  {
    hide Steady, Overdue, Prune, CountReached;
    if queue == [] {
      UntouchedSteady(s, s.(pendingWaits := kept));
    } else if !Overdue(queue[0].deadline, now) {
      ExpireWaitsSteady(s, queue[1..], kept + [queue[0]], now);
    } else {
      var count := CountReached(s.replication.sessions, s.replication.acknowledged, queue[0].target);
      var next := Answer(s.(replication := Prune(s.replication)), queue[0].task, Integer(count));
      PruneSteady(s, next);
      ExpireWaitsSteady(next, queue[1..], kept, now);
      SteadyTrans(s, next, ExpireWaits(next, queue[1..], kept, now));
    }
  }

  lemma ExpireSteady(s: State, now: nat)
    requires s.pendingPops == []
    ensures Steady(s, ExpireAll(s, now))
  {
    hide Steady, ExpireReads, ExpireWaits;
    var a := s.(pendingPops := []);
    UntouchedSteady(s, a);
    ExpireReadsSteady(a, a.pendingReads, [], now);
    var b := ExpireReads(a, a.pendingReads, [], now);
    ExpireWaitsSteady(b, b.pendingWaits, [], now);
    SteadyTrans(s, a, b);
    SteadyTrans(s, b, ExpireWaits(b, b.pendingWaits, [], now));
  }

  lemma RetrySteady(s: State, env: Env)
    requires s.pendingPops == [] && NoExpiry(s.db)
    ensures Steady(s, RetryAll(s, env))
  {
    hide Steady, RetryReads, RetryWaits, AttemptPop, NoExpiry;
    var a := s.(pendingPops := []);
    UntouchedSteady(s, a);
    RetryReadsSteady(a, a.pendingReads, [], env);
    var b := RetryReads(a, a.pendingReads, [], env);
    RetryWaitsSteady(b, b.pendingWaits, []);
    SteadyTrans(s, a, b);
    SteadyTrans(s, b, RetryWaits(b, b.pendingWaits, []));
  }

  /** The end of a turn moves nothing on a replica. */
  lemma TurnEndsSteady(s: State, env: Env)
    requires s.pendingPops == [] && NoExpiry(s.db)
    ensures Steady(s, ExpireAll(RetryAll(s, env), env.now))
  {
    hide RetryAll, ExpireAll, NoExpiry, ReadOnlyQueues;
    RetrySteady(s, env);
    ExpireSteady(RetryAll(s, env), env.now);
    SteadyTrans(s, RetryAll(s, env), ExpireAll(RetryAll(s, env), env.now));
  }

  /* ---------- Any event of the replica's own ---------- */

  /** What can happen to a replica apart from its master's stream once it is following. */
  predicate OwnEvent(event: Event) {
    match event
    case Work(t, _) =>
      && !t.InstallReplicationState? && !t.LoadRdb? && !t.InitializeAof?
      && (t.CommandTask? ==> OwnTask(t.task))
      && t != UnregisterClient(MASTER_CLIENT)
    case _ => true
  }

  lemma UnregisterSteady(s: State, client: ClientId)
    requires client != MASTER_CLIENT && s.pendingPops == []
    ensures Steady(s, ProcessUnregister(s, client))
  {
    hide CancelReads, CancelWaits, Forget, Steady, IsWrite;
    var a := CancelPops(s, s.pendingPops, [], client);
    CancelReadsCore(a, s.pendingReads, [], client);
    CancelReadsAside(a, s.pendingReads, [], client);
    CancelReadsWatched(a, s.pendingReads, [], client);
    var b := CancelReads(a, s.pendingReads, [], client);
    CancelWaitsCore(b, s.pendingWaits, [], client);
    CancelWaitsAside(b, s.pendingWaits, [], client);
    CancelWaitsWatched(b, s.pendingWaits, [], client);
    var c := CancelWaits(b, s.pendingWaits, [], client);
    UntouchedSteady(s, c);
    var t := ProcessUnregister(s, client);
    var d := c.(transactions := t.transactions, watched := t.watched);
    ClientTransactionsSteady(c, d, client);
    UntouchedSteady(d, t);
    SteadyTrans(s, c, d);
    SteadyTrans(s, d, t);
  }

  lemma OwnProcessSteady(s: State, t: ProcessorTask, env: Env, m: Machine)
    requires ReplicaAt(s, m) && OwnEvent(Work(t, env))
    ensures Steady(s, Process(s, t, env))
  {
    hide Steady, NoExpiry, ValuesOf, Logged, ReadOnlyQueues, ProcessTask, LoadEntries, ProcessAof, ProcessUnregister;
    match t {
      case CommandTask(task) => OwnTaskSteady(s, task, env);
      case UnregisterClient(client) => UnregisterSteady(s, client);
      case RegisterReplica(_) => UntouchedSteady(s, Process(s, t, env));
      case GetReplicationOffset => UntouchedSteady(s, s);
      case AcknowledgeReplica(_, _) => UntouchedSteady(s, Process(s, t, env));
      case RegisterClient(_) => UntouchedSteady(s, Process(s, t, env));
    }
  }

  /** No run of a replica's own clients moves what the stream decides. */
  lemma OwnEventSteady(s: State, event: Event, m: Machine)
    requires ReplicaAt(s, m) && OwnEvent(event)
    ensures ReplicaAt(Next(s, event), m)
    ensures Next(s, event).db == s.db && Next(s, event).replication.offset == s.replication.offset
  {
    hide Process, RetryAll, ExpireAll, Matches, ReadOnlyQueues, StepSessions;
    ReplicaUnexpiring(s, m);
    match event {
      case Work(t, env) =>
        OwnProcessSteady(s, t, env, m);
        var processed := Process(s, t, env);
        TurnEndsSteady(processed, env);
        SteadyTrans(s, processed, Step(s, t, env));
      case Tick(now) => ExpireSteady(s, now);
      case Connection(index, step) => StepSteady(s, index, step);
    }
    SteadyReplica(s, Next(s, event), m);
  }

  lemma ReplicaUnexpiring(s: State, m: Machine)
    requires ReplicaAt(s, m)
    ensures NoExpiry(s.db)
  {
  }

  lemma StepSteady(s: State, index: nat, step: SessionStep)
    ensures Steady(s, s.(replication := StepSessions(s.replication, index, step)))
  {
    hide Steady;
    UntouchedSteady(s, s.(replication := StepSessions(s.replication, index, step)));
  }

  /* ---------- Commands of the stream ---------- */

  /** The task that consume_replication_stream submits for one command. */
  function StreamTask(id: TaskId, command: Command, bytes: nat): Task {
    Task(id, MASTER_CLIENT, command, FromMaster, bytes)
  }

  /** Commands of the stream do not block. */
  lemma StreamVerb(m: Machine, command: Command)
    requires Interpret(m, command).Some?
    ensures !VerbOf(command).Blpop? && !VerbOf(command).Xread? && !VerbOf(command).Wait?
  {
    hide VerbOf, ApplyWrite, RunWrites, ExplicitId, Plain;
  }

  lemma StreamCommandOthers(s: State, command: Command, env: Env, m: Machine)
    requires ReplicaAt(s, m) && Interpret(m, command).Some?
    ensures var t := ProcessCommand(s, MASTER_CLIENT, command, FromMaster, env).state;
            && t.replication == s.replication && t.pendingPops == s.pendingPops
            && t.transactions - {MASTER_CLIENT} == s.transactions - {MASTER_CLIENT}
  {
    EmptyUnknown();
    hide VerbOf, Matches, ReadOnlyQueues, ExecuteTransaction, Dispatch, DoSubscribe, DoUnsubscribe, DoPublish,
         DoWatch, DoAuth, ApplyWrite, RunWrites, Logged;
    ExecuteOthers(s, env);
    if !VerbOf(command).Multi? && !VerbOf(command).Exec? && !VerbOf(command).Replconf? {
      LoggedNotImmediate(command);
    }
  }

  lemma ExecuteOthers(s: State, env: Env)
    requires s.replication.role.Replica?
    ensures var t := ExecuteTransaction(s, MASTER_CLIENT, FromMaster, env).state;
            && t.replication == s.replication && t.pendingPops == s.pendingPops
            && t.transactions - {MASTER_CLIENT} == s.transactions - {MASTER_CLIENT}
  {
    hide RunQueue, CheckWatched, SerializeAll, Bracketed, Record;
    if MASTER_CLIENT in s.transactions {
      var checked := CheckWatched(s.db, WatchedBy(s, MASTER_CLIENT), env.watchOrder, env.now);
      var ran := RunQueue(checked.db, s.transactions[MASTER_CLIENT].commands, 0, env);
      var after := s.(db := ran.db, transactions := s.transactions - {MASTER_CLIENT},
                      watched := s.watched - {MASTER_CLIENT});
      RecordOnReplica(after, MASTER_CLIENT, FromMaster, SerializeAll(Bracketed(ran.logged)), env);
    }
  }

  lemma RecordOnReplica(s: State, client: ClientId, source: Source, payload: Bytes, env: Env)
    requires s.replication.role.Replica?
    ensures var t := Record(s, client, source, payload, env).state;
            && t.replication == s.replication && t.pendingPops == s.pendingPops && t.db == s.db
            && t.transactions == s.transactions && t.watched == s.watched
  {
  }

  lemma OthersReadOnly(before: map<ClientId, Transaction>, after: map<ClientId, Transaction>)
    requires ReadOnlyQueues(before) && after - {MASTER_CLIENT} == before - {MASTER_CLIENT}
    ensures ReadOnlyQueues(after)
  {
    hide IsWrite;
    forall client | client in after && client != MASTER_CLIENT
      ensures forall i :: 0 <= i < |after[client].commands| ==> !IsWrite(after[client].commands[i])
    {
      assert client in after - {MASTER_CLIENT} && after[client] == (after - {MASTER_CLIENT})[client];
    }
  }

  /** Running a command of the stream, and recording it on the replica, brings the replica one command further. */
  lemma StreamCommandApplies(s: State, task: Task, env: Env, m: Machine)
    requires ReplicaAt(s, m) && Interpret(m, task.command).Some? && AppendsSucceed(env)
    requires task.client == MASTER_CLIENT && task.source.FromMaster?
    ensures var t := ProcessDirect(s, task, env);
            && ReplicaAt(t, Interpret(m, task.command).value)
            && t.replication.offset == s.replication.offset + task.bytes
            && |t.replies| == |s.replies| + 1 && !t.replies[|s.replies|].response.SimpleError?
  {
    hide Matches, ReadOnlyQueues, ProcessCommand, Record, IsWrite, Modified, Normalize, SerializeCommand,
         AppendsSucceed, Interpret, InterpretAll;
    var processed := ProcessCommand(s, MASTER_CLIENT, task.command, FromMaster, env);
    ProcessMatches(s, MASTER_CLIENT, task.command, FromMaster, env, m);
    StreamCommandOthers(s, task.command, env, m);
    OthersReadOnly(s.transactions, processed.state.transactions);
    CommandQueues(s, MASTER_CLIENT, task.command, FromMaster, env);
    var payload := SerializeCommand(Normalize(task.command, processed.response));
    RecordOnReplica(processed.state, MASTER_CLIENT, FromMaster, payload, env);
    RecordSucceeds(processed.state, MASTER_CLIENT, FromMaster, payload, env);
    RecordReplies(processed.state, MASTER_CLIENT, FromMaster, payload, env);
    var recorded := Record(processed.state, MASTER_CLIENT, FromMaster, payload, env).state;
    MatchesSame(processed.state, recorded, Interpret(m, task.command).value);
    var write := MASTER_CLIENT !in s.transactions && IsWrite(task.command) && Modified(task.command, processed.response);
    var last := if write then recorded else processed.state;
    ConcludeOnReplica(last, task, processed.response, env, Interpret(m, task.command).value);
  }

  lemma MatchesSame(s: State, t: State, m: Machine)
    requires Matches(s, m, MASTER_CLIENT) && t.db == s.db && t.transactions == s.transactions && t.watched == s.watched
    ensures Matches(t, m, MASTER_CLIENT)
  {
    hide NoExpiry, ValuesOf, Logged;
  }

  lemma ConcludeOnReplica(s: State, task: Task, response: Response, env: Env, m: Machine)
    requires ReplicaAt(s, m) && task.source.FromMaster?
    ensures var t := Conclude(s, task, true, response, env);
            && ReplicaAt(t, m) && t.replication.offset == s.replication.offset + task.bytes
            && t.replies == s.replies + [Reply(task.id, response)]
  {
    hide Matches, ReadOnlyQueues;
    MatchesSame(s, Conclude(s, task, true, response, env), m);
  }

  lemma StreamTaskDirect(s: State, task: Task, env: Env, m: Machine)
    requires Interpret(m, task.command).Some? && task.source.FromMaster?
    ensures ProcessTask(s, task, env) == ProcessDirect(s, task, env)
  {
    hide VerbOf, ProcessDirect, ProcessBlpop, ProcessXread, ProcessWait, Refuse, RefuseWrite, Interpret;
    StreamVerb(m, task.command);
  }

  /** One command of the stream: applied without error, and the offset grows by its bytes. */
  lemma StreamTaskApplies(s: State, id: TaskId, command: Command, bytes: nat, env: Env, m: Machine)
    requires ReplicaAt(s, m) && Interpret(m, command).Some? && AppendsSucceed(env)
    ensures var t := Step(s, CommandTask(StreamTask(id, command, bytes)), env);
            && ReplicaAt(t, Interpret(m, command).value)
            && t.replication.offset == s.replication.offset + bytes
    ensures var processed := ProcessTask(s, StreamTask(id, command, bytes), env);
            |processed.replies| == |s.replies| + 1 && !processed.replies[|s.replies|].response.SimpleError?
  {
    hide ProcessTask, ProcessDirect, RetryAll, ExpireAll, Matches, ReadOnlyQueues, AppendsSucceed, Interpret,
         LoadEntries, ProcessAof, ProcessUnregister;
    var task := StreamTask(id, command, bytes);
    StreamTaskDirect(s, task, env, m);
    StreamCommandApplies(s, task, env, m);
    var processed := ProcessTask(s, task, env);
    var after := Interpret(m, command).value;
    ReplicaUnexpiring(processed, after);
    TurnEndsSteady(processed, env);
    SteadyReplica(processed, Step(s, CommandTask(task), env), after);
  }
}
