/** The log and the replication stream always mean the live values, and replaying the log restores them. */
module Replay {
  import opened Wrappers
  import opened Decimal
  import opened Resp
  import opened Aof
  import opened Responses
  import opened Keyspace
  import opened Commands
  import opened Effects
  import opened Replayable
  import opened Channels
  import opened ReplicationStream
  import opened Processor
  import opened Invariants
  import opened Blocking
  import opened LogMeaning

  /** All bytes of the stream. */
  function StreamBytes(frames: seq<Frame>): Bytes {
    if frames == [] then [] else StreamBytes(frames[..|frames| - 1]) + frames[|frames| - 1].payload
  }

  /** What a run starts from: the values before the first frame, and whether a file is open. */
  datatype Basis = Basis(values: Values, logging: bool)

  /** The file, if there is one, and on a master the stream read from the base on, both mean `values`. */
  ghost predicate Tracks(s: State, base: Basis, values: Values) {
    && s.file.Some? == base.logging
    && (s.file.Some? ==> Denotes(s.file.value, map[]) == Some(Machine(values, None)))
    && (s.replication.role.Master? ==>
          && FramesAtomic(s.replication.backlog)
          && Denotes(StreamBytes(s.replication.backlog), base.values) == Some(Machine(values, None)))
  }

  ghost predicate QueuesPlain(transactions: map<ClientId, Transaction>) {
    forall client :: client in transactions ==>
      forall i :: 0 <= i < |transactions[client].commands| ==> Plain(transactions[client].commands[i])
  }

  /** Nobody is left out of hearing of a write that comes from here: file and stream both record it. */
  predicate Heard(role: Role, source: Source) {
    !source.FromAof? && (role.Master? ==> source.FromClient?)
  }

  ghost predicate PopsSound(pops: seq<PendingPop>, role: Role) {
    forall i :: 0 <= i < |pops| ==> |pops[i].key| < U64_LIMIT && Heard(role, pops[i].task.source)
  }

  /** The database can be described by its values alone. */
  ghost predicate Timeless(db: Db) {
    NoExpiry(db) && DbOk(db)
  }

  /** Live values, file and stream agree. */
  ghost predicate Faithful(s: State, base: Basis) {
    && Timeless(s.db)
    && Tracks(s, base, ValuesOf(s.db))
    && QueuesPlain(s.transactions)
    && PopsSound(s.pendingPops, s.replication.role)
  }

  /** The clocks run and appends succeed. */
  ghost predicate Healthy(env: Env) {
    ClocksRun(env) && AppendsSucceed(env)
  }

  /* ---------- Recording ---------- */

  lemma StreamExtended(frames: seq<Frame>, frame: Frame)
    ensures StreamBytes(frames + [frame]) == StreamBytes(frames) + frame.payload
  {
    assert (frames + [frame])[..|frames|] == frames;
  }

  lemma AppendedStream(r: Replication, client: ClientId, payload: Bytes)
    ensures StreamBytes(AppendFrame(r, payload).backlog) == StreamBytes(r.backlog) + payload
    ensures StreamBytes(AppendClientFrame(r, client, payload).backlog) == StreamBytes(r.backlog) + payload
    ensures AppendClientFrame(r, client, payload).role == r.role
  {
    hide StreamBytes, EnqueueAll;
    StreamExtended(r.backlog, Frame(payload, r.offset + |payload|));
  }

  lemma UnitRepresentable(commands: seq<Command>)
    requires AtomicUnit(commands)
    ensures AllRepresentable(commands)
  {
  }

  lemma AppendedAtomic(r: Replication, client: ClientId, commands: seq<Command>)
    requires FramesAtomic(r.backlog) && AtomicUnit(commands)
    ensures FramesAtomic(AppendFrame(r, SerializeAll(commands)).backlog)
    ensures FramesAtomic(AppendClientFrame(r, client, SerializeAll(commands)).backlog)
  {
    hide FrameAtomic, AtomicUnit, SerializeAll, EnqueueAll;
    UnitFrame(commands, r.offset + |SerializeAll(commands)|);
  }

  /** Recording serialised commands moves the meaning of file and stream on by what they mean. */
  lemma RecordTracks(s: State, client: ClientId, source: Source, commands: seq<Command>, env: Env,
                     base: Basis, before: Values, after: Values)
    requires Tracks(s, base, before) && Heard(s.replication.role, source) && AppendsSucceed(env)
    requires AtomicUnit(commands)
    requires InterpretAll(Machine(before, None), commands) == Some(Machine(after, None))
    ensures var recorded := Record(s, client, source, SerializeAll(commands), env);
            recorded.ok && Tracks(recorded.state, base, after)
  {
    hide Denotes, SerializeAll, InterpretAll, AppendClientFrame, StreamBytes, AllRepresentable, AtomicUnit,
         FramesAtomic;
    var payload := SerializeAll(commands);
    UnitRepresentable(commands);
    AppendedStream(s.replication, client, payload);
    if s.file.Some? {
      DenotesExtended(s.file.value, map[], before, commands, Machine(after, None));
    }
    if s.replication.role.Master? {
      AppendedAtomic(s.replication, client, commands);
      DenotesExtended(StreamBytes(s.replication.backlog), base.values, before, commands, Machine(after, None));
    }
  }

  /** Recording touches nothing else. */
  lemma RecordOthers(s: State, client: ClientId, source: Source, payload: Bytes, env: Env)
    ensures var t := Record(s, client, source, payload, env).state;
            && t.db == s.db && t.transactions == s.transactions && t.pendingPops == s.pendingPops
            && t.replication.role == s.replication.role
  {
    hide Broadcast;
    BroadcastOthers(s, client, source, payload);
    if s.file.Some? {
      BroadcastOthers(s.(file := Some(s.file.value + payload)), client, source, payload);
    }
  }

  lemma BroadcastOthers(s: State, client: ClientId, source: Source, payload: Bytes)
    ensures var t := Broadcast(s, client, source, payload);
            && t.db == s.db && t.transactions == s.transactions && t.pendingPops == s.pendingPops
            && t.replication.role == s.replication.role
  {
    hide EnqueueAll;
  }

  /* ---------- Transactions ---------- */

  lemma {:induction false} RunQueueRepeats(db: Db, commands: seq<Command>, i: nat, env: Env)
    requires Timeless(db) && ClocksRun(env)
    requires forall j :: 0 <= j < |commands| ==> Plain(commands[j])
    ensures var ran := RunQueue(db, commands, i, env);
            && Timeless(ran.db)
            && (forall j :: 0 <= j < |ran.logged| ==> Logged(ran.logged[j]))
            && RunWrites(ValuesOf(db), ran.logged) == Some(ValuesOf(ran.db))
    decreases |commands|
  {
    hide NoExpiry, DbOk, ValuesOf, Dispatch, Plain, Logged, IsWrite, Modified, Normalize, ApplyWrite, ClockSet;
    if commands != [] {
      var context := env.context(i);
      var outcome := Dispatch(db, commands[0], context);
      EntriesOf(db);
      DispatchRepeats(db, commands[0], context);
      DispatchOk(db, commands[0], context);
      RunQueueRepeats(outcome.db, commands[1..], i + 1, env);
      var rest := RunQueue(outcome.db, commands[1..], i + 1, env);
      var logged := RunQueue(db, commands, i, env).logged;
      if IsWrite(commands[0]) && Modified(commands[0], outcome.response) {
        assert logged[1..] == rest.logged;
      } else {
        assert logged == rest.logged;
      }
    }
  }

  lemma EntriesOf(db: Db)
    requires DbOk(db)
    ensures EntriesOk(db)
  {
  }

  lemma RunTransactionFaithful(s: State, client: ClientId, commands: seq<Command>, source: Source, env: Env, base: Basis)
    requires Faithful(s, base) && Healthy(env) && Heard(s.replication.role, source)
    requires forall j :: 0 <= j < |commands| ==> Plain(commands[j])
    ensures Faithful(RunTransaction(s, client, commands, source, env).state, base)
  {
    hide RunQueue, Record, Timeless, Tracks, Plain, Logged, SerializeAll, Bracketed, QueuesPlain, PopsSound, ValuesOf,
         ClocksRun, AppendsSucceed, RunWrites, InterpretAll, AllRepresentable, AtomicUnit;
    var ran := RunQueue(s.db, commands, 0, env);
    var after := s.(db := ran.db);
    var before := ValuesOf(s.db);
    RunQueueRepeats(s.db, commands, 0, env);
    TracksSame(s, after, base, before);
    if ran.logged == [] {
      NothingWritten(before);
    } else {
      BracketedMeans(before, ran.logged, ValuesOf(ran.db));
      BracketedUnit(ran.logged);
      RecordTracks(after, client, source, Bracketed(ran.logged), env, base, before, ValuesOf(ran.db));
      RecordOthers(after, client, source, SerializeAll(Bracketed(ran.logged)), env);
    }
  }

  lemma TracksSame(s: State, t: State, base: Basis, values: Values)
    requires Tracks(s, base, values)
    requires t.file == s.file && t.replication.backlog == s.replication.backlog && t.replication.role == s.replication.role
    ensures Tracks(t, base, values)
  {
    hide Denotes, StreamBytes, FramesAtomic;
  }

  lemma NothingWritten(values: Values)
    ensures RunWrites(values, []) == Some(values)
  {
  }

  lemma {:induction false} CheckNothing(db: Db, watched: map<Bytes, nat>, order: seq<Bytes>, now: nat)
    requires NoExpiry(db)
    ensures CheckWatched(db, watched, order, now).db == db
    decreases |order|
  {
    hide NoExpiry, Revision;
    if order != [] {
      SettleNothing(db, order[0], now);
      CheckNothing(db, watched, order[1..], now);
    }
  }

  lemma {:induction false} WatchNothing(db: Db, watched: map<Bytes, nat>, keys: seq<Bytes>, now: nat)
    requires NoExpiry(db)
    ensures WatchKeys(db, watched, keys, now).db == db
    decreases |keys|
  {
    hide NoExpiry, Revision;
    if keys != [] {
      SettleNothing(db, keys[0], now);
      if keys[0] in watched {
        WatchNothing(db, watched, keys[1..], now);
      } else {
        WatchNothing(db, watched[keys[0] := Revision(db, keys[0])], keys[1..], now);
      }
    }
  }

  /** A change to none of the parts that matter here. */
  predicate Aside(s: State, t: State) {
    && t.db == s.db && t.file == s.file && t.pendingPops == s.pendingPops
    && t.replication.backlog == s.replication.backlog && t.replication.role == s.replication.role
  }

  lemma AsideFaithful(s: State, t: State, base: Basis)
    requires Faithful(s, base) && Aside(s, t) && QueuesPlain(t.transactions)
    ensures Faithful(t, base)
  {
    hide Timeless, Tracks, QueuesPlain, PopsSound, ValuesOf;
    TracksSame(s, t, base, ValuesOf(s.db));
  }

  lemma FewerPlain(transactions: map<ClientId, Transaction>, client: ClientId)
    requires QueuesPlain(transactions)
    ensures QueuesPlain(transactions - {client})
  {
    hide Plain;
  }

  lemma QueuedPlain(transactions: map<ClientId, Transaction>, client: ClientId, transaction: Transaction)
    requires QueuesPlain(transactions)
    requires forall i :: 0 <= i < |transaction.commands| ==> Plain(transaction.commands[i])
    ensures QueuesPlain(transactions[client := transaction])
  {
    hide Plain;
  }

  lemma ExecuteFaithful(s: State, client: ClientId, source: Source, env: Env, base: Basis)
    requires Faithful(s, base) && Healthy(env) && Heard(s.replication.role, source)
    ensures Faithful(ExecuteTransaction(s, client, source, env).state, base)
  {
    hide RunTransaction, CheckWatched, NoExpiry, DbOk, Tracks, Plain, PopsSound, ValuesOf, Healthy;
    if client in s.transactions {
      var transaction := s.transactions[client];
      CheckNothing(s.db, WatchedBy(s, client), env.watchOrder, env.now);
      var ended := s.(transactions := s.transactions - {client}, watched := s.watched - {client});
      FewerPlain(s.transactions, client);
      assert forall i :: 0 <= i < |transaction.commands| ==> Plain(transaction.commands[i]);
      hide QueuesPlain;
      AsideFaithful(s, ended, base);
      RunTransactionFaithful(ended, client, transaction.commands, source, env, base);
    }
  }

  /* ---------- Immediate commands ---------- */

  lemma WatchAside(s: State, client: ClientId, command: Command, env: Env)
    requires NoExpiry(s.db)
    ensures var t := DoWatch(s, client, command, env).state; Aside(s, t) && t.transactions == s.transactions
  {
    hide NoExpiry, WatchKeys;
    if |command| >= 2 && client !in s.transactions {
      WatchNothing(s.db, WatchedBy(s, client), command[1..], env.now);
    }
  }

  lemma PubSubAside(s: State, client: ClientId, command: Command, env: Env)
    requires command != []
    ensures var t := DoSubscribe(s, client, command, env).state; Aside(s, t) && t.transactions == s.transactions
    ensures var t := DoUnsubscribe(s, client, command, env).state; Aside(s, t) && t.transactions == s.transactions
    ensures var t := DoPublish(s, command, env).state; Aside(s, t) && t.transactions == s.transactions
  {
    hide JoinAll, LeaveAll, Forget, DropFrom;
  }

  lemma ImmediateFaithful(s: State, client: ClientId, command: Command, source: Source, env: Env, base: Basis)
    requires command != [] && Faithful(s, base) && Healthy(env) && Heard(s.replication.role, source)
    ensures Faithful(ProcessImmediate(s, client, command, source, env).state, base)
  {
    hide VerbOf, Faithful, Healthy, Heard, DoSubscribe, DoUnsubscribe, DoPublish, DoWatch, ExecuteTransaction,
         ProcessAdministrative, Aside, QueuesPlain, NoExpiry, DoMulti, DoDiscard, DoAuth;
    if VerbOf(command).Exec? {
      ExecuteFaithful(s, client, source, env, base);
    } else {
      FaithfulQueues(s, base);
      FaithfulUnexpiring(s, base);
      ImmediateAside(s, client, command, source, env);
      AsideFaithful(s, ProcessImmediate(s, client, command, source, env).state, base);
    }
  }

  /** Every immediate command but EXEC leaves values, file and stream alone. */
  lemma ImmediateAside(s: State, client: ClientId, command: Command, source: Source, env: Env)
    requires command != [] && !VerbOf(command).Exec? && NoExpiry(s.db) && QueuesPlain(s.transactions)
    ensures var t := ProcessImmediate(s, client, command, source, env).state;
            Aside(s, t) && QueuesPlain(t.transactions)
  {
    hide VerbOf, DoSubscribe, DoUnsubscribe, DoPublish, DoWatch, DoMulti, DoDiscard, DoAuth, ExecuteTransaction,
         ProcessAdministrative, QueuesPlain, NoExpiry, Aside;
    PubSubAside(s, client, command, env);
    WatchAside(s, client, command, env);
    AdministrativeAside(s, client, command, env);
    TransactionAside(s, client);
  }

  lemma AdministrativeAside(s: State, client: ClientId, command: Command, env: Env)
    ensures var t := ProcessAdministrative(s, client, command, env).state; Aside(s, t) && t.transactions == s.transactions
    ensures var t := DoAuth(s, client, env).state; Aside(s, t) && t.transactions == s.transactions
  {
    hide VerbOf;
  }

  lemma TransactionAside(s: State, client: ClientId)
    requires QueuesPlain(s.transactions)
    ensures var t := DoMulti(s, client).state; Aside(s, t) && QueuesPlain(t.transactions)
    ensures var t := DoDiscard(s, client).state; Aside(s, t) && QueuesPlain(t.transactions)
  {
    QueuedPlain(s.transactions, client, Transaction([], false));
    FewerPlain(s.transactions, client);
    hide QueuesPlain;
  }

  lemma FaithfulUnexpiring(s: State, base: Basis)
    requires Faithful(s, base)
    ensures NoExpiry(s.db)
  {
  }

  /* ---------- Direct commands ---------- */

  lemma ConcludeFaithful(s: State, task: Task, succeeded: bool, response: Response, env: Env, base: Basis)
    requires Faithful(s, base)
    ensures Faithful(Conclude(s, task, succeeded, response, env), base)
  {
    var t := Conclude(s, task, succeeded, response, env);
    ConcludeAside(s, task, succeeded, response, env);
    hide Faithful, Conclude, QueuesPlain;
    assert QueuesPlain(s.transactions) by { FaithfulQueues(s, base); }
    AsideFaithful(s, t, base);
  }

  lemma FaithfulQueues(s: State, base: Basis)
    requires Faithful(s, base)
    ensures QueuesPlain(s.transactions)
  {
  }

  lemma TouchAside(s: State, client: ClientId, env: Env)
    ensures var t := TouchSession(s, client, env); Aside(s, t) && t.transactions == s.transactions
  {
  }

  lemma AnswerAside(s: State, t: State, task: Task, response: Response)
    requires Aside(s, t) && t.transactions == s.transactions
    ensures Aside(s, Answer(t, task, response)) && Answer(t, task, response).transactions == s.transactions
  {
  }

  lemma AsideTrans(a: State, b: State, c: State)
    requires Aside(a, b) && Aside(b, c)
    ensures Aside(a, c)
  {
  }

  lemma ConcludeAside(s: State, task: Task, succeeded: bool, response: Response, env: Env)
    ensures var t := Conclude(s, task, succeeded, response, env); Aside(s, t) && t.transactions == s.transactions
  {
    var advanced := if task.source.FromMaster? && succeeded
                    then s.(replication := s.replication.(offset := s.replication.offset + task.bytes)) else s;
    assert Aside(s, advanced) && advanced.transactions == s.transactions;
    var deflected := Deflect(advanced, task.client, env);
    TouchAside(advanced, task.client, env);
    hide Aside, TouchSession, SessionThere, Answer;
    AsideTrans(s, advanced, deflected.state);
    AnswerAside(s, deflected.state, task, deflected.response);
    AnswerAside(s, advanced, task, response);
  }

  lemma QueueFaithful(s: State, client: ClientId, command: Command, env: Env, base: Basis)
    requires Faithful(s, base) && client in s.transactions && Plain(command)
    ensures Faithful(QueueOrRun(s, client, command, env).state, base)
  {
    hide Timeless, Tracks, Plain, PopsSound, ValuesOf, Dispatch;
    var transaction := s.transactions[client];
    var longer := transaction.(commands := transaction.commands + [command]);
    assert forall i :: 0 <= i < |longer.commands| ==> Plain(longer.commands[i]);
    QueuedPlain(s.transactions, client, longer);
    hide QueuesPlain;
    AsideFaithful(s, QueueOrRun(s, client, command, env).state, base);
  }

  /** A command of the table outside a transaction: run, and recorded if it changed something. */
  lemma RunAndRecordFaithful(s: State, task: Task, env: Env, base: Basis)
    requires Faithful(s, base) && Healthy(env) && Heard(s.replication.role, task.source) && Plain(task.command)
    ensures var outcome := Dispatch(s.db, task.command, env.context(0));
            var after := s.(db := outcome.db);
            if IsWrite(task.command) && Modified(task.command, outcome.response) then
              var payload := SerializeCommand(Normalize(task.command, outcome.response));
              Faithful(Record(after, task.client, task.source, payload, env).state, base)
            else Faithful(after, base)
  {
    hide Tracks, Plain, Logged, PopsSound, QueuesPlain, ValuesOf, Dispatch, IsWrite, Modified, Normalize, Record,
         DbOk, NoExpiry, SerializeCommand, ApplyWrite, InterpretAll, SerializeAll, AppendsSucceed, AllRepresentable,
         ClockSet, Heard, AtomicUnit;
    var outcome := Dispatch(s.db, task.command, env.context(0));
    var after := s.(db := outcome.db);
    EntriesOf(s.db);
    DispatchRepeats(s.db, task.command, env.context(0));
    DispatchOk(s.db, task.command, env.context(0));
    TracksSame(s, after, base, ValuesOf(s.db));
    if IsWrite(task.command) && Modified(task.command, outcome.response) {
      var logged := Normalize(task.command, outcome.response);
      WriteMeans(ValuesOf(s.db), logged, ValuesOf(outcome.db));
      SingleUnit(logged);
      RecordTracks(after, task.client, task.source, [logged], env, base, ValuesOf(s.db), ValuesOf(outcome.db));
      RecordOthers(after, task.client, task.source, SerializeCommand(logged), env);
    }
  }

  /** The command is answered without running a handler now. */
  predicate Deferred(s: State, client: ClientId, command: Command) {
    || command == [] || ImmediateVerb(VerbOf(command)) || client in s.transactions
    || (VerbOf(command).Ping? && client in s.hub.subscriptions)
  }

  lemma EmptyUnknown()
    ensures VerbOf([]) == Unknown
  {
  }

  lemma DeferredFaithful(s: State, client: ClientId, command: Command, source: Source, env: Env, base: Basis)
    requires Faithful(s, base) && Healthy(env) && Heard(s.replication.role, source) && Plain(command) && Deferred(s, client, command)
    ensures Faithful(ProcessCommand(s, client, command, source, env).state, base)
    ensures client in s.transactions || !IsWrite(command)
  {
    hide VerbOf, Faithful, Healthy, Heard, Plain, ProcessImmediate, QueueOrRun;
    EmptyUnknown();
    if command != [] && ImmediateVerb(VerbOf(command)) {
      ImmediateFaithful(s, client, command, source, env, base);
    } else if client in s.transactions {
      QueueFaithful(s, client, command, env, base);
    }
  }

  /** Outside a transaction a command of the table is dispatched. */
  lemma NotDeferred(s: State, client: ClientId, command: Command, source: Source, env: Env)
    requires !Deferred(s, client, command)
    ensures var outcome := Dispatch(s.db, command, env.context(0));
            ProcessCommand(s, client, command, source, env) == Processed(s.(db := outcome.db), outcome.response)
  {
    hide VerbOf, Dispatch, ProcessImmediate;
  }

  lemma DirectFaithful(s: State, task: Task, env: Env, base: Basis)
    requires Faithful(s, base) && Healthy(env) && Heard(s.replication.role, task.source) && Plain(task.command)
    ensures Faithful(ProcessDirect(s, task, env), base)
  {
    hide Faithful, Healthy, Heard, Plain, Deferred, ProcessCommand, Record, Conclude, IsWrite, Modified, Normalize,
         SerializeCommand, Dispatch;
    var command := task.command;
    var processed := ProcessCommand(s, task.client, command, task.source, env);
    var succeeded := !processed.response.SimpleError?;
    if Deferred(s, task.client, command) {
      DeferredFaithful(s, task.client, command, task.source, env, base);
      ConcludeFaithful(processed.state, task, succeeded, processed.response, env, base);
    } else {
      NotDeferred(s, task.client, command, task.source, env);
      RunAndRecordFaithful(s, task, env, base);
      NotInTransaction(s, task.client, command);
      if IsWrite(command) && Modified(command, processed.response) {
        var payload := SerializeCommand(Normalize(command, processed.response));
        var recorded := Record(processed.state, task.client, task.source, payload, env);
        ConcludeFaithful(recorded.state, task, succeeded, if recorded.ok then processed.response else MISCONF, env, base);
      } else {
        ConcludeFaithful(processed.state, task, succeeded, processed.response, env, base);
      }
    }
  }

  lemma NotInTransaction(s: State, client: ClientId, command: Command)
    requires !Deferred(s, client, command)
    ensures client !in s.transactions
  {
  }

  /* ---------- Blocking commands ---------- */

  /** Popping the front of a list is what LPOP means. */
  lemma PopRepeats(db: Db, key: Bytes, now: nat)
    requires Timeless(db) && |key| < U64_LIMIT
    ensures var settled := Settle(db, key, now);
            var popped := PopOne(Look(settled, key));
            var after := Apply(settled, key, popped.change);
            && Timeless(after)
            && (popped.outcome.Element? ==>
                  && Logged(["LPOP", key])
                  && ApplyWrite(ValuesOf(db), ["LPOP", key]) == Some(ValuesOf(after)))
            && (!popped.outcome.Element? ==> after == db)
  {
    PopDbKeeps(db, key, now);
    SettleNothing(db, key, now);
    LpopNamed(key);
    hide Evolves, DbOk, Apply, Settle, VerbOf;
    var popped := PopOne(Look(db, key));
    LookValue(db, key);
    EntryUnexpiring(db, key);
    ApplyValues(db, key, popped.change);
    hide ValuesOf, Look, NoExpiry;
  }

  lemma AttemptFaithful(s: State, task: Task, key: Bytes, env: Env, base: Basis)
    requires Faithful(s, base) && Healthy(env) && Heard(s.replication.role, task.source) && |key| < U64_LIMIT
    ensures Faithful(AttemptPop(s, task, key, env).state, base)
  {
    hide Timeless, Tracks, PopsSound, QueuesPlain, ValuesOf, Settle, PopOne, Look, Apply, Record, SerializeCommand,
         Logged, ApplyWrite, InterpretAll, SerializeAll, AllRepresentable, AppendsSucceed, ClocksRun, Heard,
         AtomicUnit;
    var settled := Settle(s.db, key, env.now);
    var popped := PopOne(Look(settled, key));
    var after := s.(db := Apply(settled, key, popped.change));
    PopRepeats(s.db, key, env.now);
    TracksSame(s, after, base, ValuesOf(s.db));
    match popped.outcome {
      case Element(value) =>
        var logged: Command := ["LPOP", key];
        WriteMeans(ValuesOf(s.db), logged, ValuesOf(after.db));
        SingleUnit(logged);
        RecordTracks(after, task.client, task.source, [logged], env, base, ValuesOf(s.db), ValuesOf(after.db));
        RecordOthers(after, task.client, task.source, SerializeCommand(logged), env);
        var recorded := Record(after, task.client, task.source, SerializeCommand(logged), env).state;
        TracksSame(recorded, AttemptPop(s, task, key, env).state, base, ValuesOf(after.db));
      case NotAList => TracksSame(after, AttemptPop(s, task, key, env).state, base, ValuesOf(s.db));
      case NothingThere =>
    }
  }

  lemma BlockedFaithful(s: State, pop: PendingPop, base: Basis)
    requires Faithful(s, base) && |pop.key| < U64_LIMIT && Heard(s.replication.role, pop.task.source)
    ensures Faithful(s.(pendingPops := s.pendingPops + [pop]), base)
  {
    hide Heard, Timeless, Tracks, QueuesPlain, ValuesOf;
    TracksSame(s, s.(pendingPops := s.pendingPops + [pop]), base, ValuesOf(s.db));
  }

  lemma AttemptRole(s: State, task: Task, key: Bytes, env: Env)
    ensures AttemptPop(s, task, key, env).state.replication.role == s.replication.role
  {
    hide AttemptPop, Evolves, DbOk, Accounted, Mirror, Extends;
    AttemptKeeps(s, task, key, env, NO_TERMS);
  }

  lemma BlpopFaithful(s: State, task: Task, env: Env, base: Basis)
    requires Faithful(s, base) && Healthy(env) && Heard(s.replication.role, task.source) && Plain(task.command)
    ensures Faithful(ProcessBlpop(s, task, env), base)
  {
    hide Healthy, Heard, Plain, AttemptPop, Faithful, QueuesPlain;
    PlainFits(task.command);
    FaithfulQueues(s, base);
    if |task.command| != 3 || env.context(0).timeout(task.command[2]).None? {
      AsideFaithful(s, ProcessBlpop(s, task, env), base);
    } else {
      var key := task.command[1];
      AttemptFaithful(s, task, key, env, base);
      AttemptRole(s, task, key, env);
      var attempt := AttemptPop(s, task, key, env);
      if !attempt.served {
        var deadline := Deadline(env.now, env.context(0).timeout(task.command[2]).value);
        BlockedFaithful(attempt.state, PendingPop(task, key, deadline), base);
      }
    }
  }

  lemma PlainFits(command: Command)
    requires Plain(command)
    ensures forall i :: 0 <= i < |command| ==> |command[i]| < U64_LIMIT
  {
  }

  lemma ReadNothing(db: Db, requests: seq<ReadRequest>, now: nat)
    requires NoExpiry(db)
    ensures ReadStreams(db, requests, now).db == db
  {
    hide NoExpiry, ResolveAll, Collect;
    ResolveNothing(db, requests, now);
  }

  lemma XreadFaithful(s: State, task: Task, env: Env, base: Basis)
    requires Faithful(s, base)
    ensures Faithful(ProcessXread(s, task, env), base)
  {
    XreadAside(s, task, env);
    hide ProcessXread, Timeless, Tracks, PopsSound, QueuesPlain, ValuesOf;
    AsideFaithful(s, ProcessXread(s, task, env), base);
  }

  lemma XreadAside(s: State, task: Task, env: Env)
    requires NoExpiry(s.db)
    ensures var t := ProcessXread(s, task, env); Aside(s, t) && t.transactions == s.transactions
  {
    hide NoExpiry, ReadStreams, ParseXread, XreadResponse;
    match ParseXread(task.command) {
      case None =>
      case Some(read) => ReadNothing(s.db, read.requests, env.now);
    }
  }

  /** Asking for acknowledgements adds a frame that means nothing. */
  lemma AskFaithful(s: State, task: Task, request: WaitRequest, target: nat, now: nat, base: Basis)
    requires Faithful(s, base)
    ensures Faithful(AskAndWait(s, task, request, target, now), base)
  {
    hide Timeless, PopsSound, QueuesPlain, ValuesOf, Denotes, StreamBytes, AppendFrame, SerializeCommand,
         SerializeAll, InterpretAll, FramesAtomic, AtomicUnit;
    var values := ValuesOf(s.db);
    GetAckMeans(values);
    SingleUnit(GETACK_COMMAND);
    AppendedStream(s.replication, 0, SerializeCommand(GETACK_COMMAND));
    AppendRole(s.replication, SerializeCommand(GETACK_COMMAND));
    if s.replication.role.Master? {
      AppendedAtomic(s.replication, 0, [GETACK_COMMAND]);
      DenotesExtended(StreamBytes(s.replication.backlog), base.values, values, [GETACK_COMMAND], Machine(values, None));
    }
  }

  lemma PruneAside(s: State)
    ensures Aside(s, s.(replication := Prune(s.replication))) && Aside(s, s)
  {
  }

  lemma WaitFaithful(s: State, task: Task, env: Env, base: Basis)
    requires Faithful(s, base)
    ensures Faithful(ProcessWait(s, task, env), base)
  {
    FaithfulQueues(s, base);
    PruneAside(s);
    hide Faithful, QueuesPlain, ParseWait, CountReached, AskAndWait, Prune, Aside;
    var t := ProcessWait(s, task, env);
    if !s.replication.role.Master? || ParseWait(task.command).None? {
      AnswerAside(s, s, task, ERR);
      AsideFaithful(s, t, base);
    } else {
      var request := ParseWait(task.command).value;
      var target := WriteOffset(s.replication, task.client);
      var count := CountReached(s.replication.sessions, s.replication.acknowledged, target);
      var pruned := s.(replication := Prune(s.replication));
      AsideFaithful(s, pruned, base);
      AnswerAside(s, pruned, task, Integer(count));
      AsideFaithful(s, Answer(pruned, task, Integer(count)), base);
      AskFaithful(pruned, task, request, target, env.now, base);
    }
  }

  /* ---------- Command tasks ---------- */

  lemma RefuseFaithful(s: State, task: Task, response: Response, env: Env, base: Basis)
    requires Faithful(s, base)
    ensures Faithful(Refuse(s, task, response, env), base)
  {
    assert Aside(s, s);
    FaithfulQueues(s, base);
    TouchAside(s, task.client, env);
    hide Faithful, QueuesPlain, Aside, TouchSession, SessionThere, Answer;
    var deflected := Deflect(s, task.client, env);
    AnswerAside(s, deflected.state, task, deflected.response);
    AnswerAside(s, s, task, response);
    AsideFaithful(s, Refuse(s, task, response, env), base);
  }

  lemma RefuseWriteFaithful(s: State, task: Task, base: Basis)
    requires Faithful(s, base)
    ensures Faithful(RefuseWrite(s, task), base)
  {
    hide Timeless, Tracks, PopsSound, ValuesOf, Plain;
    if task.client in s.transactions {
      QueuedPlain(s.transactions, task.client, s.transactions[task.client].(hasError := true));
    }
    hide QueuesPlain;
    AsideFaithful(s, RefuseWrite(s, task), base);
  }

  lemma AdmittedFaithful(s: State, task: Task, env: Env, base: Basis)
    requires Faithful(s, base) && Healthy(env) && Heard(s.replication.role, task.source) && Plain(task.command)
    ensures Faithful(ProcessAdmitted(s, task, env), base)
  {
    hide VerbOf, Faithful, Healthy, Heard, Plain, ProcessDirect, ProcessBlpop, ProcessXread, ProcessWait;
    DirectFaithful(s, task, env, base);
    BlpopFaithful(s, task, env, base);
    XreadFaithful(s, task, env, base);
    WaitFaithful(s, task, env, base);
  }

  lemma TaskFaithful(s: State, task: Task, env: Env, base: Basis)
    requires Faithful(s, base) && Healthy(env) && Heard(s.replication.role, task.source) && Plain(task.command)
    ensures Faithful(ProcessTask(s, task, env), base)
  {
    hide VerbOf, Faithful, Healthy, Heard, Plain, Refuse, RefuseWrite, ProcessAdmitted, IsWrite;
    RefuseFaithful(s, task, NOAUTH, env, base);
    RefuseFaithful(s, task, ERR, env, base);
    RefuseWriteFaithful(s, task, base);
    AdmittedFaithful(s, task, env, base);
  }

  /* ---------- Retries and expiries ---------- */

  lemma {:induction false} RetryPopsFaithful(
    s: State, queue: seq<PendingPop>, kept: seq<PendingPop>, env: Env, base: Basis)
    requires Faithful(s, base) && Healthy(env)
    requires PopsSound(queue, s.replication.role) && PopsSound(kept, s.replication.role)
    ensures Faithful(RetryPops(s, queue, kept, env), base)
    decreases |queue|
  {
    hide Healthy, Heard, AttemptPop, Timeless, Tracks, QueuesPlain, ValuesOf;
    if queue == [] {
      TracksSame(s, s.(pendingPops := kept), base, ValuesOf(s.db));
    } else {
      hide Faithful;
      var pop := queue[0];
      var attempt := AttemptPop(s, pop.task, pop.key, env);
      AttemptFaithful(s, pop.task, pop.key, env, base);
      AttemptRole(s, pop.task, pop.key, env);
      RetryPopsFaithful(attempt.state, queue[1..], if attempt.served then kept else kept + [pop], env, base);
    }
  }

  lemma {:induction false} RetryReadsAside(s: State, queue: seq<PendingRead>, kept: seq<PendingRead>, env: Env)
    requires NoExpiry(s.db)
    ensures var t := RetryReads(s, queue, kept, env); Aside(s, t) && t.transactions == s.transactions
    decreases |queue|
  {
    hide NoExpiry, ReadStreams, XreadResponse;
    if queue != [] {
      ReadNothing(s.db, queue[0].requests, env.now);
      var reading := ReadStreams(s.db, queue[0].requests, env.now);
      if reading.results.None? {
        RetryReadsAside(Answer(s, queue[0].task, WRONGTYPE), queue[1..], kept, env);
      } else if reading.results.value == [] {
        RetryReadsAside(s, queue[1..], kept + [queue[0].(requests := reading.requests)], env);
      } else {
        RetryReadsAside(Answer(s, queue[0].task, XreadResponse(reading.results.value)), queue[1..], kept, env);
      }
    }
  }

  lemma {:induction false} RetryWaitsAside(s: State, queue: seq<PendingWait>, kept: seq<PendingWait>)
    ensures var t := RetryWaits(s, queue, kept); Aside(s, t) && t.transactions == s.transactions
    decreases |queue|
  {
    if queue != [] {
      PruneAside(s);
      hide Prune, CountReached;
      var count := CountReached(s.replication.sessions, s.replication.acknowledged, queue[0].target);
      var pruned := s.(replication := Prune(s.replication));
      if count < queue[0].required {
        RetryWaitsAside(pruned, queue[1..], kept + [queue[0]]);
      } else {
        RetryWaitsAside(Answer(pruned, queue[0].task, Integer(count)), queue[1..], kept);
      }
    }
  }

  lemma {:induction false} ExpireWaitsAside(s: State, queue: seq<PendingWait>, kept: seq<PendingWait>, now: nat)
    ensures var t := ExpireWaits(s, queue, kept, now); Aside(s, t) && t.transactions == s.transactions
    decreases |queue|
  {
    if queue != [] {
      PruneAside(s);
      hide Prune, CountReached, Overdue;
      var count := CountReached(s.replication.sessions, s.replication.acknowledged, queue[0].target);
      var pruned := s.(replication := Prune(s.replication));
      if !Overdue(queue[0].deadline, now) {
        ExpireWaitsAside(s, queue[1..], kept + [queue[0]], now);
      } else {
        ExpireWaitsAside(Answer(pruned, queue[0].task, Integer(count)), queue[1..], kept, now);
      }
    }
  }

  lemma {:induction false} ExpireReadsAside(s: State, queue: seq<PendingRead>, kept: seq<PendingRead>, now: nat)
    ensures var t := ExpireReads(s, queue, kept, now); Aside(s, t) && t.transactions == s.transactions
    decreases |queue|
  {
    if queue != [] {
      if !Overdue(queue[0].deadline, now) {
        ExpireReadsAside(s, queue[1..], kept + [queue[0]], now);
      } else {
        ExpireReadsAside(Answer(s, queue[0].task, NullArray), queue[1..], kept, now);
      }
    }
  }

  lemma {:induction false} ExpirePopsFaithful(
    s: State, queue: seq<PendingPop>, kept: seq<PendingPop>, now: nat, base: Basis)
    requires Faithful(s, base)
    requires PopsSound(queue, s.replication.role) && PopsSound(kept, s.replication.role)
    ensures Faithful(ExpirePops(s, queue, kept, now), base)
    decreases |queue|
  {
    FaithfulQueues(s, base);
    hide Heard, Timeless, Tracks, QueuesPlain, ValuesOf;
    if queue == [] {
      TracksSame(s, s.(pendingPops := kept), base, ValuesOf(s.db));
    } else {
      hide Faithful;
      if !Overdue(queue[0].deadline, now) {
        ExpirePopsFaithful(s, queue[1..], kept + [queue[0]], now, base);
      } else {
        var t := Answer(s, queue[0].task, NullArray);
        AsideFaithful(s, t, base);
        ExpirePopsFaithful(t, queue[1..], kept, now, base);
      }
    }
  }

  lemma RetryAllFaithful(s: State, env: Env, base: Basis)
    requires Faithful(s, base) && Healthy(env)
    ensures Faithful(RetryAll(s, env), base)
  {
    FaithfulPops(s, base);
    hide Faithful, Healthy, RetryPops, RetryReads, RetryWaits, QueuesPlain, PopsSound, NoExpiry;
    RetryPopsFaithful(s, s.pendingPops, [], env, base);
    var a := RetryPops(s, s.pendingPops, [], env);
    FaithfulUnexpiring(a, base);
    FaithfulQueues(a, base);
    RetryReadsAside(a, a.pendingReads, [], env);
    var b := RetryReads(a, a.pendingReads, [], env);
    AsideFaithful(a, b, base);
    RetryWaitsAside(b, b.pendingWaits, []);
    FaithfulQueues(b, base);
    AsideFaithful(b, RetryWaits(b, b.pendingWaits, []), base);
  }

  lemma FaithfulPops(s: State, base: Basis)
    requires Faithful(s, base)
    ensures PopsSound(s.pendingPops, s.replication.role) && PopsSound([], s.replication.role)
  {
  }

  lemma ExpireAllFaithful(s: State, now: nat, base: Basis)
    requires Faithful(s, base)
    ensures Faithful(ExpireAll(s, now), base)
  {
    FaithfulPops(s, base);
    hide Faithful, ExpirePops, ExpireReads, ExpireWaits, QueuesPlain, PopsSound;
    ExpirePopsFaithful(s, s.pendingPops, [], now, base);
    var a := ExpirePops(s, s.pendingPops, [], now);
    FaithfulQueues(a, base);
    ExpireReadsAside(a, a.pendingReads, [], now);
    var b := ExpireReads(a, a.pendingReads, [], now);
    AsideFaithful(a, b, base);
    FaithfulQueues(b, base);
    ExpireWaitsAside(b, b.pendingWaits, [], now);
    AsideFaithful(b, ExpireWaits(b, b.pendingWaits, [], now), base);
  }
}
