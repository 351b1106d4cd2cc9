/**
 Where the stream of a master may be cut: a task streams at most one frame, a served pop streams one, so between
 any two frames there is a database that the master passed through.
 */
module Stations {
  import opened Decimal
  import opened Resp
  import opened Aof
  import opened Responses
  import opened Keyspace
  import opened Commands
  import opened Replayable
  import opened Channels
  import opened ReplicationStream
  import opened Processor
  import opened Invariants
  import opened Replay
  import opened Recovery

  /** At most one frame was streamed. */
  predicate OneFrame(s: State, t: State) {
    s.replication.backlog <= t.replication.backlog && |t.replication.backlog| <= |s.replication.backlog| + 1
  }

  predicate SameStream(s: State, t: State) {
    t.replication.backlog == s.replication.backlog
  }

  /* ---------- Commands ---------- */

  lemma RecordFrame(s: State, client: ClientId, source: Source, payload: Bytes, env: Env)
    ensures OneFrame(s, Record(s, client, source, payload, env).state)
    ensures !source.FromClient? ==> SameStream(s, Record(s, client, source, payload, env).state)
  {
    hide EnqueueAll;
  }

  lemma RunTransactionFrame(s: State, client: ClientId, commands: seq<Command>, source: Source, env: Env)
    ensures OneFrame(s, RunTransaction(s, client, commands, source, env).state)
    ensures !source.FromClient? ==> SameStream(s, RunTransaction(s, client, commands, source, env).state)
  {
    hide RunQueue, Record, SerializeAll, Bracketed;
    var ran := RunQueue(s.db, commands, 0, env);
    RecordFrame(s.(db := ran.db), client, source, SerializeAll(Bracketed(ran.logged)), env);
  }

  lemma ExecuteFrame(s: State, client: ClientId, source: Source, env: Env)
    ensures OneFrame(s, ExecuteTransaction(s, client, source, env).state)
    ensures !source.FromClient? ==> SameStream(s, ExecuteTransaction(s, client, source, env).state)
  {
    hide CheckWatched, RunTransaction;
    if client in s.transactions {
      var checked := CheckWatched(s.db, WatchedBy(s, client), env.watchOrder, env.now);
      var ended := s.(db := checked.db, transactions := s.transactions - {client}, watched := s.watched - {client});
      RunTransactionFrame(ended, client, s.transactions[client].commands, source, env);
    }
  }

  lemma ImmediateFrame(s: State, client: ClientId, command: Command, source: Source, env: Env)
    requires command != [] && !VerbOf(command).Exec?
    ensures SameStream(s, ProcessImmediate(s, client, command, source, env).state)
  {
    hide VerbOf, ExecuteTransaction, WatchKeys, JoinAll, LeaveAll, Forget, DropFrom;
  }

  /** Only EXEC streams while it runs. */
  lemma CommandFrame(s: State, client: ClientId, command: Command, source: Source, env: Env)
    ensures OneFrame(s, ProcessCommand(s, client, command, source, env).state)
    ensures !VerbOf(command).Exec? || !source.FromClient? ==>
              SameStream(s, ProcessCommand(s, client, command, source, env).state)
  {
    hide VerbOf, ExecuteTransaction, DoSubscribe, DoUnsubscribe, DoPublish, DoWatch, DoMulti, DoDiscard, DoAuth,
         ProcessAdministrative, Dispatch;
    if command != [] {
      if VerbOf(command).Exec? {
        ExecuteFrame(s, client, source, env);
      } else {
        hide ProcessImmediate;
        ImmediateFrame(s, client, command, source, env);
      }
    }
  }

  lemma ConcludeFrame(s: State, task: Task, succeeded: bool, response: Response, env: Env)
    ensures SameStream(s, Conclude(s, task, succeeded, response, env))
  {
  }

  lemma ExecIsNoWrite(command: Command)
    ensures IsWrite(command) ==> !VerbOf(command).Exec?
  {
    hide VerbOf;
  }

  lemma DirectFrame(s: State, task: Task, env: Env)
    ensures OneFrame(s, ProcessDirect(s, task, env))
  {
    hide VerbOf, ProcessCommand, Record, Conclude, IsWrite, Modified, Normalize, SerializeCommand;
    var processed := ProcessCommand(s, task.client, task.command, task.source, env);
    CommandFrame(s, task.client, task.command, task.source, env);
    ExecIsNoWrite(task.command);
    var payload := SerializeCommand(Normalize(task.command, processed.response));
    var recorded := Record(processed.state, task.client, task.source, payload, env);
    RecordFrame(processed.state, task.client, task.source, payload, env);
    var succeeded := !processed.response.SimpleError?;
    ConcludeFrame(recorded.state, task, succeeded, if recorded.ok then processed.response else MISCONF, env);
    ConcludeFrame(processed.state, task, succeeded, processed.response, env);
  }

  lemma AttemptFrame(s: State, task: Task, key: Bytes, env: Env)
    ensures OneFrame(s, AttemptPop(s, task, key, env).state)
  {
    hide Settle, Apply, Look, PopOne, Record, SerializeCommand;
    var settled := Settle(s.db, key, env.now);
    var after := s.(db := Apply(settled, key, PopOne(Look(settled, key)).change));
    RecordFrame(after, task.client, task.source, SerializeCommand(["LPOP", key]), env);
  }

  lemma BlpopFrame(s: State, task: Task, env: Env)
    ensures OneFrame(s, ProcessBlpop(s, task, env))
  {
    hide AttemptPop;
    if |task.command| == 3 {
      AttemptFrame(s, task, task.command[1], env);
    }
  }

  lemma XreadFrame(s: State, task: Task, env: Env)
    ensures OneFrame(s, ProcessXread(s, task, env))
  {
    hide ReadStreams, XreadResponse, ParseXread;
  }

  lemma WaitFrame(s: State, task: Task, env: Env)
    ensures OneFrame(s, ProcessWait(s, task, env))
  {
    hide ParseWait, CountReached, Live, EnqueueAll, SerializeCommand;
  }

  lemma RefusedFrame(s: State, task: Task, response: Response, env: Env)
    ensures SameStream(s, Refuse(s, task, response, env)) && SameStream(s, RefuseWrite(s, task))
  {
  }

  lemma TaskFrame(s: State, task: Task, env: Env)
    ensures OneFrame(s, ProcessTask(s, task, env))
  {
    hide VerbOf, IsWrite, Refuse, RefuseWrite, ProcessDirect, ProcessBlpop, ProcessXread, ProcessWait;
    DirectFrame(s, task, env);
    BlpopFrame(s, task, env);
    XreadFrame(s, task, env);
    WaitFrame(s, task, env);
    RefusedFrame(s, task, NOAUTH, env);
    RefusedFrame(s, task, ERR, env);
  }

  /* ---------- Tasks ---------- */

  lemma {:induction false} ReplayFrame(s: State, commands: seq<Command>, env: Env)
    ensures SameStream(s, ReplayCommands(s, commands, env).state)
    decreases |commands|
  {
    hide ProcessCommand, VerbOf;
    if commands != [] {
      CommandFrame(s, AOF_CLIENT, commands[0], FromAof, env);
      ReplayFrame(ProcessCommand(s, AOF_CLIENT, commands[0], FromAof, env).state, commands[1..], env);
    }
  }

  lemma UnregisterFrame(s: State, client: ClientId)
    ensures SameStream(s, ProcessUnregister(s, client))
  {
    hide CancelPops, CancelReads, CancelWaits, Forget;
    var a := CancelPops(s, s.pendingPops, [], client);
    var b := CancelReads(a, s.pendingReads, [], client);
    CancelPopsCore(s, s.pendingPops, [], client);
    CancelReadsCore(a, s.pendingReads, [], client);
    CancelWaitsCore(b, s.pendingWaits, [], client);
  }

  /** A task streams at most one frame. */
  lemma ProcessFrame(s: State, t: ProcessorTask, env: Env)
    ensures OneFrame(s, Process(s, t, env))
  {
    hide ProcessTask, LoadEntries, ReplayCommands, ProcessUnregister;
    match t {
      case CommandTask(task) => TaskFrame(s, task, env);
      case InitializeAof(_, commands) => ReplayFrame(s, commands, env);
      case UnregisterClient(client) => UnregisterFrame(s, client);
      case RegisterReplica(_) =>
      case InstallReplicationState(_) =>
      case GetReplicationOffset =>
      case AcknowledgeReplica(_, _) =>
      case LoadRdb(_, _) =>
      case RegisterClient(_) =>
    }
  }

  /* ---------- The stations of a turn ---------- */

  /** The states before, between and after the attempts to serve the blocked pops. */
  function Stations(s: State, queue: seq<PendingPop>, env: Env): seq<State>
    decreases |queue|
  {
    if queue == [] then [s]
    else [s] + Stations(AttemptPop(s, queue[0].task, queue[0].key, env).state, queue[1..], env)
  }

  /** The states a turn passes through. */
  function TurnStations(s: State, t: ProcessorTask, env: Env): seq<State> {
    var processed := Process(s, t, env);
    [s] + Stations(processed, processed.pendingPops, env)
  }

  lemma {:induction false} StationAt(s: State, queue: seq<PendingPop>, kept: seq<PendingPop>, env: Env, base: Basis, j: nat)
    returns (u: State)
    requires Faithful(s, base) && Healthy(env) && PopsSound(queue, s.replication.role)
    requires |s.replication.backlog| <= j <= |RetryPops(s, queue, kept, env).replication.backlog|
    ensures u in Stations(s, queue, env) && |u.replication.backlog| == j && Faithful(u, base)
    ensures u.replication.backlog <= RetryPops(s, queue, kept, env).replication.backlog
    ensures u.replication.role == s.replication.role
    decreases |queue|
  {
    hide Faithful, Healthy, Heard, AttemptPop;
    RetryPopsGrowth(s, queue, kept, env);
    if j == |s.replication.backlog| {
      u := s;
    } else {
      var pop := queue[0];
      var attempt := AttemptPop(s, pop.task, pop.key, env);
      AttemptFaithful(s, pop.task, pop.key, env, base);
      AttemptRole(s, pop.task, pop.key, env);
      AttemptFrame(s, pop.task, pop.key, env);
      u := StationAt(attempt.state, queue[1..], if attempt.served then kept else kept + [pop], env, base, j);
    }
  }

  lemma {:induction false} RetryPopsGrowth(s: State, queue: seq<PendingPop>, kept: seq<PendingPop>, env: Env)
    ensures s.replication.backlog <= RetryPops(s, queue, kept, env).replication.backlog
    decreases |queue|
  {
    hide AttemptPop;
    if queue != [] {
      var attempt := AttemptPop(s, queue[0].task, queue[0].key, env);
      AttemptFrame(s, queue[0].task, queue[0].key, env);
      RetryPopsGrowth(attempt.state, queue[1..], if attempt.served then kept else kept + [queue[0]], env);
    }
  }

  /** Timeouts stream nothing. */
  lemma ExpireStream(s: State, now: nat)
    ensures SameStream(s, ExpireAll(s, now))
  {
    hide ExpirePops, ExpireReads, ExpireWaits;
    ExpirePopsCore(s, s.pendingPops, [], now);
    var a := ExpirePops(s, s.pendingPops, [], now);
    ExpireReadsAside(a, a.pendingReads, [], now);
    var b := ExpireReads(a, a.pendingReads, [], now);
    ExpireWaitsAside(b, b.pendingWaits, [], now);
  }

  /** What follows the retries of the pops streams nothing. */
  lemma TurnEndStream(s: State, env: Env, base: Basis)
    requires Faithful(s, base) && Healthy(env)
    ensures SameStream(RetryPops(s, s.pendingPops, [], env), ExpireAll(RetryAll(s, env), env.now))
  {
    FaithfulPops(s, base);
    hide Faithful, Healthy, PopsSound, NoExpiry, RetryPops, RetryReads, RetryWaits, ExpireAll;
    RetryPopsFaithful(s, s.pendingPops, [], env, base);
    var a := RetryPops(s, s.pendingPops, [], env);
    FaithfulUnexpiring(a, base);
    RetryReadsAside(a, a.pendingReads, [], env);
    var b := RetryReads(a, a.pendingReads, [], env);
    RetryWaitsAside(b, b.pendingWaits, []);
    ExpireStream(RetryAll(s, env), env.now);
  }

  /** Every frame boundary that a turn reaches is a station of it, and the stream means the values at that station. */
  lemma TurnStation(s: State, t: ProcessorTask, env: Env, base: Basis, j: nat) returns (u: State)
    requires Faithful(s, base) && Healthy(env) && Recordable(t, s.replication.role)
    requires |s.replication.backlog| <= j <= |Step(s, t, env).replication.backlog|
    ensures u in TurnStations(s, t, env) && |u.replication.backlog| == j && Faithful(u, base)
    ensures u.replication.backlog <= Step(s, t, env).replication.backlog
    ensures u.replication.role == s.replication.role
  {
    hide Faithful, Healthy, Recordable, Process, RetryPops, RetryAll, ExpireAll, Stations, PopsSound;
    var processed := Process(s, t, env);
    ProcessFaithful(s, t, env, base);
    ProcessFrame(s, t, env);
    TaskRole(s, t, env);
    FaithfulPops(processed, base);
    TurnEndStream(processed, env, base);
    RetryPopsGrowth(processed, processed.pendingPops, [], env);
    if j == |s.replication.backlog| {
      u := s;
    } else {
      u := StationAt(processed, processed.pendingPops, [], env, base, j);
    }
  }

  lemma TaskRole(s: State, t: ProcessorTask, env: Env)
    ensures Process(s, t, env).replication.role == s.replication.role
  {
    hide Process, Evolves, Accounted, Mirror, Extends, DbOk;
    if t.RegisterClient? {
      RegisterClientKeeps(s, t.client, env);
    } else {
      ProcessKeeps(s, t, env, NO_TERMS);
    }
  }
}
