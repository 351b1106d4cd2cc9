/** A restart from the append-only file restores the keys and values of the live database. */
module Recovery {
  import opened Wrappers
  import opened Decimal
  import opened Resp
  import opened Aof
  import opened Responses
  import opened Keyspace
  import opened Commands
  import opened Replayable
  import opened Channels
  import opened ReplicationStream
  import opened Processor
  import opened Invariants
  import opened Ledger
  import opened Blocking
  import opened LogMeaning
  import opened Replay

  /* ---------- Every other task ---------- */

  /** A task whose effect on the values the log can repeat. */
  predicate Recordable(t: ProcessorTask, role: Role) {
    && !t.LoadRdb? && !t.InitializeAof?
    && (t.CommandTask? ==> Plain(t.task.command) && Heard(role, t.task.source))
  }

  lemma {:induction false} CancelPopsSound(
    s: State, queue: seq<PendingPop>, kept: seq<PendingPop>, client: ClientId, role: Role)
    requires PopsSound(queue, role) && PopsSound(kept, role)
    ensures var t := CancelPops(s, queue, kept, client);
            && PopsSound(t.pendingPops, role)
            && t.db == s.db && t.file == s.file && t.replication == s.replication && t.transactions == s.transactions
    decreases |queue|
  {
    hide Heard;
    if queue != [] {
      if queue[0].task.client != client {
        CancelPopsSound(s, queue[1..], kept + [queue[0]], client, role);
      } else {
        CancelPopsSound(Answer(s, queue[0].task, NoResponse), queue[1..], kept, client, role);
      }
    }
  }

  lemma {:induction false} CancelReadsAside(s: State, queue: seq<PendingRead>, kept: seq<PendingRead>, client: ClientId)
    ensures var t := CancelReads(s, queue, kept, client); Aside(s, t) && t.transactions == s.transactions
    decreases |queue|
  {
    if queue != [] {
      if queue[0].task.client != client {
        CancelReadsAside(s, queue[1..], kept + [queue[0]], client);
      } else {
        CancelReadsAside(Answer(s, queue[0].task, NoResponse), queue[1..], kept, client);
      }
    }
  }

  lemma {:induction false} CancelWaitsAside(s: State, queue: seq<PendingWait>, kept: seq<PendingWait>, client: ClientId)
    ensures var t := CancelWaits(s, queue, kept, client); Aside(s, t) && t.transactions == s.transactions
    decreases |queue|
  {
    if queue != [] {
      if queue[0].task.client != client {
        CancelWaitsAside(s, queue[1..], kept + [queue[0]], client);
      } else {
        CancelWaitsAside(Answer(s, queue[0].task, NoResponse), queue[1..], kept, client);
      }
    }
  }

  lemma UnregisterFaithful(s: State, client: ClientId, base: Basis)
    requires Faithful(s, base)
    ensures Faithful(ProcessUnregister(s, client), base)
  {
    hide CancelPops, CancelReads, CancelWaits, Forget, Timeless, Tracks, QueuesPlain, PopsSound, ValuesOf;
    FaithfulPops(s, base);
    var a := CancelPops(s, s.pendingPops, [], client);
    CancelPopsSound(s, s.pendingPops, [], client, s.replication.role);
    TracksSame(s, a, base, ValuesOf(s.db));
    var b := CancelReads(a, s.pendingReads, [], client);
    CancelReadsAside(a, s.pendingReads, [], client);
    AsideFaithful(a, b, base);
    var c := CancelWaits(b, s.pendingWaits, [], client);
    CancelWaitsAside(b, s.pendingWaits, [], client);
    AsideFaithful(b, c, base);
    FewerPlain(c.transactions, client);
    AsideFaithful(c, ProcessUnregister(s, client), base);
  }

  lemma ProcessFaithful(s: State, t: ProcessorTask, env: Env, base: Basis)
    requires Faithful(s, base) && Healthy(env) && Recordable(t, s.replication.role)
    ensures Faithful(Process(s, t, env), base)
  {
    hide ProcessTask, LoadEntries, ProcessAof, ProcessUnregister, Faithful, Healthy, Heard, Plain, QueuesPlain;
    FaithfulQueues(s, base);
    match t {
      case CommandTask(task) => TaskFaithful(s, task, env, base);
      case UnregisterClient(client) => UnregisterFaithful(s, client, base);
      case RegisterReplica(_) => AsideFaithful(s, Process(s, t, env), base);
      case InstallReplicationState(_) => AsideFaithful(s, Process(s, t, env), base);
      case GetReplicationOffset =>
      case AcknowledgeReplica(_, _) => AsideFaithful(s, Process(s, t, env), base);
      case RegisterClient(_) => AsideFaithful(s, Process(s, t, env), base);
    }
  }

  lemma StepFaithful(s: State, t: ProcessorTask, env: Env, base: Basis)
    requires Faithful(s, base) && Healthy(env) && Recordable(t, s.replication.role)
    ensures Faithful(Step(s, t, env), base)
  {
    hide Process, RetryAll, ExpireAll, Faithful, Healthy;
    ProcessFaithful(s, t, env, base);
    RetryAllFaithful(Process(s, t, env), env, base);
    ExpireAllFaithful(RetryAll(Process(s, t, env), env), env.now, base);
  }

  /** The tasks are recordable, the clocks run and the appends succeed. */
  ghost predicate Orderly(event: Event, role: Role) {
    event.Work? ==> Healthy(event.env) && Recordable(event.t, role)
  }

  ghost predicate AllOrderly(events: seq<Event>, role: Role) {
    forall i :: 0 <= i < |events| ==> Orderly(events[i], role)
  }

  lemma NextFaithful(s: State, event: Event, base: Basis)
    requires Faithful(s, base) && Orderly(event, s.replication.role)
    ensures Faithful(Next(s, event), base)
    ensures Next(s, event).replication.role == s.replication.role
  {
    hide Step, ExpireAll, Faithful, Healthy, Recordable, QueuesPlain, Evolves, Accounted, Mirror, Extends, DbOk,
         StepSessions;
    NextRole(s, event);
    match event {
      case Work(t, env) => StepFaithful(s, t, env, base);
      case Tick(now) => ExpireAllFaithful(s, now, base);
      case Connection(index, step) =>
        FaithfulQueues(s, base);
        SessionAside(s, index, step);
        AsideFaithful(s, Next(s, event), base);
    }
  }

  lemma SessionAside(s: State, index: nat, step: SessionStep)
    ensures Aside(s, s.(replication := StepSessions(s.replication, index, step)))
  {
  }

  lemma NextRole(s: State, event: Event)
    ensures Next(s, event).replication.role == s.replication.role
  {
    hide Process, RetryAll, ExpireAll, Evolves, Accounted, Mirror, Extends, DbOk, StepSessions;
    match event {
      case Work(t, env) =>
        SettleStep(Process(s, t, env), env, NO_TERMS);
        if t.RegisterClient? {
          RegisterClientKeeps(s, t.client, env);
        } else {
          ProcessKeeps(s, t, env, NO_TERMS);
        }
      case Tick(now) => ExpireAllKeeps(s, now, NO_TERMS);
      case Connection(index, step) => StepRole(s.replication, index, step);
    }
  }

  /** Over every run of recordable tasks, values, file and stream agree. */
  lemma {:induction false} RunFaithful(s: State, events: seq<Event>, base: Basis)
    requires Faithful(s, base) && AllOrderly(events, s.replication.role)
    ensures Faithful(Run(s, events), base)
    ensures Run(s, events).replication.role == s.replication.role
    decreases |events|
  {
    hide Faithful, Orderly, Next;
    if events != [] {
      NextFaithful(s, events[0], base);
      RunFaithful(Next(s, events[0]), events[1..], base);
    }
  }

  /* ---------- Replaying a file follows its meaning ---------- */

  /** Under the id of a reader, the processor stands where the machine stands. */
  ghost predicate Matches(s: State, m: Machine, reader: ClientId) {
    && NoExpiry(s.db) && ValuesOf(s.db) == m.values
    && reader !in s.watched
    && match m.open
       case None => reader !in s.transactions
       case Some(queue) =>
         && reader in s.transactions && s.transactions[reader] == Transaction(queue, false)
         && forall i :: 0 <= i < |queue| ==> Logged(queue[i])
  }

  lemma {:induction false} NothingWatched(db: Db, order: seq<Bytes>, now: nat)
    ensures CheckWatched(db, map[], order, now) == Checked(db, false)
    decreases |order|
  {
    if order != [] {
      NothingWatched(db, order[1..], now);
    }
  }

  /** What a reader's commands do besides: they may be recorded, and that succeeds. */
  ghost predicate Undisturbed(source: Source, env: Env) {
    source.FromAof? || AppendsSucceed(env)
  }

  lemma RecordRead(s: State, client: ClientId, source: Source, payload: Bytes, env: Env)
    requires Undisturbed(source, env)
    ensures var recorded := Record(s, client, source, payload, env);
            && recorded.ok && recorded.state.db == s.db
            && recorded.state.transactions == s.transactions && recorded.state.watched == s.watched
  {
    hide AppendClientFrame;
  }

  lemma ExecMatches(s: State, reader: ClientId, source: Source, env: Env, m: Machine, values: Values)
    requires Matches(s, m, reader) && m.open.Some? && RunWrites(m.values, m.open.value) == Some(values)
    requires Undisturbed(source, env)
    ensures var processed := ExecuteTransaction(s, reader, source, env);
            !processed.response.SimpleError? && Matches(processed.state, Machine(values, None), reader)
  {
    hide RunTransaction, CheckWatched, NoExpiry, ValuesOf, Logged, RunWrites, Undisturbed;
    var commands := m.open.value;
    NothingWatched(s.db, env.watchOrder, env.now);
    if commands == [] {
      NothingWritten(m.values);
    } else {
      var ended := s.(transactions := s.transactions - {reader}, watched := s.watched - {reader});
      RunTransactionMatches(ended, reader, commands, source, env, values);
    }
  }

  lemma RunTransactionMatches(s: State, reader: ClientId, commands: seq<Command>, source: Source, env: Env, values: Values)
    requires NoExpiry(s.db) && RunWrites(ValuesOf(s.db), commands) == Some(values) && Undisturbed(source, env)
    requires forall j :: 0 <= j < |commands| ==> Logged(commands[j])
    ensures var processed := RunTransaction(s, reader, commands, source, env);
            && !processed.response.SimpleError?
            && NoExpiry(processed.state.db) && ValuesOf(processed.state.db) == values
            && processed.state.transactions == s.transactions && processed.state.watched == s.watched
  {
    hide RunQueue, NoExpiry, ValuesOf, Logged, SerializeAll, Bracketed, RunWrites, Record, Undisturbed;
    RunQueueApplies(s.db, commands, 0, env);
    var ran := RunQueue(s.db, commands, 0, env);
    RecordRead(s.(db := ran.db), reader, source, SerializeAll(Bracketed(ran.logged)), env);
  }

  lemma WriteMatches(s: State, reader: ClientId, command: Command, env: Env, m: Machine)
    requires Matches(s, m, reader) && Logged(command)
    requires m.open.None? ==> ApplyWrite(m.values, command).Some?
    ensures var processed := QueueOrRun(s, reader, command, env);
            && !processed.response.SimpleError?
            && Matches(processed.state,
                       if m.open.Some? then m.(open := Some(m.open.value + [command]))
                       else Machine(ApplyWrite(m.values, command).value, None), reader)
  {
    hide NoExpiry, ValuesOf, Logged, Dispatch, ApplyWrite;
    if m.open.None? {
      DispatchApplies(s.db, command, env.context(0));
    }
  }

  lemma LoggedNotImmediate(command: Command)
    requires Logged(command)
    ensures !ImmediateVerb(VerbOf(command)) && !VerbOf(command).Ping? && command != []
  {
    hide VerbNamed, ExplicitId;
  }

  /** One command of a file or of a stream, read under an id of its own. */
  lemma ProcessMatches(s: State, reader: ClientId, command: Command, source: Source, env: Env, m: Machine)
    requires Matches(s, m, reader) && Interpret(m, command).Some? && Undisturbed(source, env)
    ensures var processed := ProcessCommand(s, reader, command, source, env);
            !processed.response.SimpleError? && Matches(processed.state, Interpret(m, command).value, reader)
  {
    EmptyUnknown();
    hide VerbOf, NoExpiry, ValuesOf, Logged, ExecuteTransaction, QueueOrRun, ApplyWrite, RunWrites, DoSubscribe,
         DoUnsubscribe, DoPublish, DoWatch, DoAuth, DoDiscard, Undisturbed;
    if VerbOf(command).Multi? {
    } else if VerbOf(command).Exec? {
      hide Matches;
      ExecMatches(s, reader, source, env, m, RunWrites(m.values, m.open.value).value);
    } else if VerbOf(command).Replconf? {
    } else {
      hide Matches;
      LoggedNotImmediate(command);
      WriteMatches(s, reader, command, env, m);
    }
  }

  /** A file that means something is replayed without error, to what it means. */
  lemma {:induction false} ReplayMatches(s: State, commands: seq<Command>, env: Env, m: Machine)
    requires Matches(s, m, AOF_CLIENT) && InterpretAll(m, commands).Some?
    ensures var replayed := ReplayCommands(s, commands, env);
            replayed.ok && Matches(replayed.state, InterpretAll(m, commands).value, AOF_CLIENT)
    decreases |commands|
  {
    hide Matches, ProcessCommand, Interpret;
    if commands != [] {
      ProcessMatches(s, AOF_CLIENT, commands[0], FromAof, env, m);
      ReplayMatches(ProcessCommand(s, AOF_CLIENT, commands[0], FromAof, env).state, commands[1..], env,
                    Interpret(m, commands[0]).value);
    }
  }

  /* ---------- Startup ---------- */

  /** A fresh processor that initialises itself from a file. */
  function Startup(role: Role, openAccess: bool, contents: Bytes, env: Env): State
    requires DecodeLog(contents).Some?
  {
    Step(InitialState(role, openAccess), InitializeAof(contents, DecodeLog(contents).value), env)
  }

  lemma FreshMatches(role: Role, openAccess: bool)
    ensures Matches(InitialState(role, openAccess), Machine(map[], None), AOF_CLIENT)
    ensures DbOk(InitialState(role, openAccess).db)
  {
  }

  lemma {:induction false} ReplayBacklog(s: State, commands: seq<Command>, env: Env)
    ensures var t := ReplayCommands(s, commands, env).state;
            t.replication.backlog == s.replication.backlog && t.replication.role == s.replication.role
    decreases |commands|
  {
    hide ProcessCommand;
    if commands != [] {
      CommandBacklog(s, AOF_CLIENT, commands[0], env);
      var processed := ProcessCommand(s, AOF_CLIENT, commands[0], FromAof, env);
      if !processed.response.SimpleError? {
        ReplayBacklog(processed.state, commands[1..], env);
      }
    }
  }

  /** Nothing that comes from the file goes into the stream. */
  lemma CommandBacklog(s: State, client: ClientId, command: Command, env: Env)
    ensures var t := ProcessCommand(s, client, command, FromAof, env).state; t.replication == s.replication
  {
    hide VerbOf, ExecuteTransaction, Dispatch, DoSubscribe, DoUnsubscribe, DoPublish, WatchKeys;
    ExecuteBacklog(s, client, env);
    if command != [] {
      HubBacklog(s, client, command, env);
    }
  }

  lemma HubBacklog(s: State, client: ClientId, command: Command, env: Env)
    requires command != []
    ensures DoSubscribe(s, client, command, env).state.replication == s.replication
    ensures DoUnsubscribe(s, client, command, env).state.replication == s.replication
    ensures DoPublish(s, command, env).state.replication == s.replication
  {
    hide JoinAll, LeaveAll, Forget, DropFrom;
  }

  lemma ExecuteBacklog(s: State, client: ClientId, env: Env)
    ensures ExecuteTransaction(s, client, FromAof, env).state.replication == s.replication
  {
    hide RunQueue, CheckWatched, SerializeAll, Bracketed;
  }

  lemma InitializeFaithful(role: Role, openAccess: bool, contents: Bytes, env: Env, values: Values)
    requires Denotes(contents, map[]) == Some(Machine(values, None)) && ClocksRun(env)
    ensures var t := ProcessAof(InitialState(role, openAccess), contents, DecodeLog(contents).value, env);
            && Faithful(t, Basis(values, true)) && ValuesOf(t.db) == values && t.file == Some(contents)
            && t.replication.role == role
  {
    hide ReplayCommands, DecodeLog, InterpretAll, Evolves, Accounted, Mirror, Extends, Settle, ClocksRun, EntryOk;
    var initial := InitialState(role, openAccess);
    var commands := DecodeLog(contents).value;
    FreshMatches(role, openAccess);
    ReplayMatches(initial, commands, env, Machine(map[], None));
    ReplayKeeps(initial, commands, env, CLOCK_ONLY);
    ReplayBacklog(initial, commands, env);
    ReplayQueues(initial, commands, env);
    NoStream(values);
    ReplayTransactions(initial, commands, env);
    hide NoExpiry, ValuesOf, DbOk, InitialState;
  }

  lemma NoStream(values: Values)
    ensures Denotes(StreamBytes([]), values) == Some(Machine(values, None))
  {
  }

  /** Replaying touches the transactions of no other client. */
  lemma {:induction false} ReplayTransactions(s: State, commands: seq<Command>, env: Env)
    ensures (ReplayCommands(s, commands, env).state.transactions - {AOF_CLIENT}) == s.transactions - {AOF_CLIENT}
    decreases |commands|
  {
    hide ProcessCommand;
    if commands != [] {
      CommandTransactions(s, AOF_CLIENT, commands[0], env);
      var processed := ProcessCommand(s, AOF_CLIENT, commands[0], FromAof, env);
      if !processed.response.SimpleError? {
        ReplayTransactions(processed.state, commands[1..], env);
      }
    }
  }

  lemma CommandTransactions(s: State, client: ClientId, command: Command, env: Env)
    ensures ProcessCommand(s, client, command, FromAof, env).state.transactions - {client} == s.transactions - {client}
  {
    hide VerbOf, ExecuteTransaction, DoSubscribe, DoUnsubscribe, DoPublish, DoWatch, DoMulti, DoDiscard, DoAuth,
         ProcessAdministrative, QueueOrRun;
    ExecuteTransactions(s, client, env);
    PlainTransactions(s, client, command, env);
    OtherTransactions(s, client, command, env);
    if command != [] {
      HubTransactions(s, client, command, env);
    }
  }

  lemma PlainTransactions(s: State, client: ClientId, command: Command, env: Env)
    ensures DoWatch(s, client, command, env).state.transactions == s.transactions
    ensures DoMulti(s, client).state.transactions - {client} == s.transactions - {client}
    ensures DoDiscard(s, client).state.transactions - {client} == s.transactions - {client}
    ensures DoAuth(s, client, env).state.transactions == s.transactions
  {
    hide WatchKeys;
  }

  lemma OtherTransactions(s: State, client: ClientId, command: Command, env: Env)
    ensures ProcessAdministrative(s, client, command, env).state.transactions == s.transactions
    ensures QueueOrRun(s, client, command, env).state.transactions - {client} == s.transactions - {client}
  {
    hide VerbOf, Dispatch;
  }

  lemma HubTransactions(s: State, client: ClientId, command: Command, env: Env)
    requires command != []
    ensures DoSubscribe(s, client, command, env).state.transactions == s.transactions
    ensures DoUnsubscribe(s, client, command, env).state.transactions == s.transactions
    ensures DoPublish(s, command, env).state.transactions == s.transactions
  {
    hide JoinAll, LeaveAll, Forget, DropFrom;
  }

  lemma ExecuteTransactions(s: State, client: ClientId, env: Env)
    ensures ExecuteTransaction(s, client, FromAof, env).state.transactions - {client} == s.transactions - {client}
  {
    hide RunQueue, CheckWatched, SerializeAll, Bracketed;
  }

  lemma NothingToRetry(s: State, env: Env)
    requires s.pendingPops == [] && s.pendingReads == [] && s.pendingWaits == []
    ensures ExpireAll(RetryAll(s, env), env.now) == s
  {
    hide AttemptPop, ReadStreams, CountReached, Prune;
  }

  lemma InitializeQueues(role: Role, openAccess: bool, contents: Bytes, commands: seq<Command>, env: Env)
    ensures SameQueues(InitialState(role, openAccess), ProcessAof(InitialState(role, openAccess), contents, commands, env))
  {
    hide ReplayCommands, InitialState;
    ReplayQueues(InitialState(role, openAccess), commands, env);
  }

  /** Starting from a file that means `values` gives a database with exactly those values, logging to that file. */
  lemma StartupRestores(role: Role, openAccess: bool, contents: Bytes, env: Env, values: Values)
    requires Denotes(contents, map[]) == Some(Machine(values, None)) && ClocksRun(env)
    ensures DecodeLog(contents).Some?
    ensures var t := Startup(role, openAccess, contents, env);
            && Faithful(t, Basis(values, true)) && ValuesOf(t.db) == values && t.file == Some(contents)
            && t.replication.role == role
  {
    hide DecodeLog, InterpretAll, ProcessAof, RetryAll, ExpireAll, Faithful, ValuesOf, ClocksRun, ProcessTask,
         ProcessUnregister, LoadEntries;
    InitializeFaithful(role, openAccess, contents, env, values);
    InitializeQueues(role, openAccess, contents, DecodeLog(contents).value, env);
    NothingToRetry(ProcessAof(InitialState(role, openAccess), contents, DecodeLog(contents).value, env), env);
  }

  lemma FaithfulFile(s: State, base: Basis)
    requires Faithful(s, base) && base.logging
    ensures s.file.Some? && DecodeLog(s.file.value).Some?
    ensures Denotes(s.file.value, map[]) == Some(Machine(ValuesOf(s.db), None))
  {
    hide InterpretAll;
  }

  /**
   The log replays to the live state: start from any file that can be replayed, serve any run of clients
   with transactions and blocking pops (and, on a replica, of replicated commands), stop at any point,
   and start again from the file. The second start succeeds and has exactly the keys and values that
   were live.
   */
  lemma RestartRestoresValues(
    role: Role, openAccess: bool, contents: Bytes, env: Env, values: Values, events: seq<Event>,
    nextRole: Role, nextAccess: bool, nextEnv: Env)
    requires Denotes(contents, map[]) == Some(Machine(values, None))
    requires ClocksRun(env) && ClocksRun(nextEnv) && AllOrderly(events, role)
    ensures DecodeLog(contents).Some?
    ensures var live := Run(Startup(role, openAccess, contents, env), events);
            && live.file.Some? && DecodeLog(live.file.value).Some?
            && var restarted := Startup(nextRole, nextAccess, live.file.value, nextEnv);
               ValuesOf(restarted.db) == ValuesOf(live.db) && restarted.file == live.file
  {
    hide Denotes, DecodeLog, Startup, Run, Faithful, ValuesOf, ClocksRun, AllOrderly;
    StartupRestores(role, openAccess, contents, env, values);
    var started := Startup(role, openAccess, contents, env);
    RunFaithful(started, events, Basis(values, true));
    var live := Run(started, events);
    FaithfulFile(live, Basis(values, true));
    StartupRestores(nextRole, nextAccess, live.file.value, nextEnv, ValuesOf(live.db));
  }

  /** A new, empty file can be replayed. */
  lemma EmptyFileDenotes()
    ensures Denotes([], map[]) == Some(Machine(map[], None))
  {
  }
}
