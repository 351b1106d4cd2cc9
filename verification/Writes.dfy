/**
 Which keys an event writes, and that nothing else but expiry gives a key a new revision: reads, WATCH,
 refused and failed commands, timeouts and connections leave revisions alone.
 */
module Writes {
  import opened Wrappers
  import opened Decimal
  import opened Resp
  import opened Aof
  import opened Responses
  import opened Streams
  import opened Keyspace
  import opened Commands
  import opened Channels
  import opened ReplicationStream
  import opened Snapshot
  import opened Processor
  import opened Invariants
  import opened Blocking
  import opened Watch

  /* ---------- The keys that are written ---------- */

  /** A write of the handler table that reports success writes its key. */
  function DispatchWrites(db: Db, command: Command, context: Context): seq<Bytes> {
    if |command| > 1 && IsWrite(command) && Modified(command, Dispatch(db, command, context).response)
    then [command[1]] else []
  }

  function QueuedWrites(db: Db, commands: seq<Command>, i: nat, env: Env): seq<Bytes>
    decreases |commands|
  {
    if commands == [] then []
    else
      DispatchWrites(db, commands[0], env.context(i))
      + QueuedWrites(Dispatch(db, commands[0], env.context(i)).db, commands[1..], i + 1, env)
  }

  /** A transaction that is not aborted writes what its commands write. */
  function ExecWrites(s: State, client: ClientId, env: Env): seq<Bytes> {
    if client !in s.transactions || s.transactions[client].hasError then []
    else
      var checked := CheckWatched(s.db, WatchedBy(s, client), env.watchOrder, env.now);
      if checked.changed then [] else QueuedWrites(checked.db, s.transactions[client].commands, 0, env)
  }

  function CommandWrites(s: State, client: ClientId, command: Command, env: Env): seq<Bytes> {
    if VerbOf(command).Exec? then ExecWrites(s, client, env)
    else if ImmediateVerb(VerbOf(command)) || client in s.transactions then []
    else DispatchWrites(s.db, command, env.context(0))
  }

  /** A pop that finds an element writes its key. */
  function PopWrites(db: Db, key: Bytes, now: nat): seq<Bytes> {
    if PopFinds(db, key, now).Element? then [key] else []
  }

  function AdmittedWrites(s: State, task: Task, env: Env): seq<Bytes> {
    var verb := VerbOf(task.command);
    if task.client in s.transactions then CommandWrites(s, task.client, task.command, env)
    else if verb.Blpop? then
      if |task.command| != 3 || env.context(0).timeout(task.command[2]).None? then []
      else PopWrites(s.db, task.command[1], env.now)
    else if verb.Xread? || verb.Wait? then []
    else CommandWrites(s, task.client, task.command, env)
  }

  /** A command that a gate refuses writes nothing. */
  function TaskWrites(s: State, task: Task, env: Env): seq<Bytes> {
    var verb := VerbOf(task.command);
    if task.source.FromClient? && !verb.Auth? && !Authenticated(s, task.client) then []
    else if task.source.FromClient? && task.client in s.hub.subscriptions && !AllowedWhileSubscribed(verb) then []
    else if s.replication.role.Replica? && task.source.FromClient? && IsWrite(task.command) then []
    else AdmittedWrites(s, task, env)
  }

  /** The entries of a dump that have not expired. */
  function LoadWrites(entries: seq<StringEntry>, unixNow: int): seq<Bytes> {
    if entries == [] then []
    else if entries[0].expiresAtUnix.Some? && (unixNow < 0 || entries[0].expiresAtUnix.value <= unixNow) then
      LoadWrites(entries[1..], unixNow)
    else [entries[0].key] + LoadWrites(entries[1..], unixNow)
  }

  function ReplayWrites(s: State, commands: seq<Command>, env: Env): seq<Bytes>
    decreases |commands|
  {
    if commands == [] then []
    else
      var processed := ProcessCommand(s, AOF_CLIENT, commands[0], FromAof, env);
      CommandWrites(s, AOF_CLIENT, commands[0], env)
      + if processed.response.SimpleError? then [] else ReplayWrites(processed.state, commands[1..], env)
  }

  function ProcessWrites(s: State, t: ProcessorTask, env: Env): seq<Bytes> {
    match t
    case CommandTask(task) => TaskWrites(s, task, env)
    case LoadRdb(entries, unixNow) => LoadWrites(entries, unixNow)
    case InitializeAof(_, commands) => ReplayWrites(s, commands, env)
    case _ => []
  }

  /** The blocked pops that are served. */
  function RetryWrites(s: State, queue: seq<PendingPop>, env: Env): seq<Bytes>
    decreases |queue|
  {
    if queue == [] then []
    else
      PopWrites(s.db, queue[0].key, env.now)
      + RetryWrites(AttemptPop(s, queue[0].task, queue[0].key, env).state, queue[1..], env)
  }

  /** All keys that an event writes. */
  function EventWrites(s: State, event: Event): seq<Bytes> {
    match event
    case Work(t, env) =>
      var processed := Process(s, t, env);
      ProcessWrites(s, t, env) + RetryWrites(processed, processed.pendingPops, env)
    case Tick(_) => []
    case Connection(_, _) => []
  }

  /* ---------- What happened to one key ---------- */

  /** The key has no entry that has expired by then. */
  predicate Lasting(db: Db, key: Bytes, now: nat) {
    key in db.entries ==> !Expired(db.entries[key], now)
  }

  predicate Same(a: Db, b: Db, key: Bytes) {
    Revision(b, key) == Revision(a, key) && Look(b, key) == Look(a, key)
  }

  /** The key got a revision that was not in use before. */
  predicate Renewed(a: Db, b: Db, key: Bytes) {
    a.nextRevision <= Revision(b, key)
  }

  /**
   From one database to a later one, with all clock readings up to `now`: a written key is renewed, a key
   that is not written and does not expire is the same, and one that is not written keeps its entry or loses it.
   */
  predicate Traced(a: Db, b: Db, key: Bytes, written: bool, now: nat) {
    && a.nextRevision <= b.nextRevision
    && (Same(a, b, key) || Renewed(a, b, key))
    && (written ==> Renewed(a, b, key))
    && (!written && Lasting(a, key, now) ==> Same(a, b, key))
    && (!written && Look(b, key) != Look(a, key) ==> Look(b, key).None?)
  }

  lemma TracedTrans(a: Db, b: Db, c: Db, key: Bytes, first: bool, second: bool, now: nat)
    requires Traced(a, b, key, first, now) && Traced(b, c, key, second, now)
    ensures Traced(a, c, key, first || second, now)
  {
    hide Revision, Expired;
  }

  lemma TracedSelf(db: Db, key: Bytes, now: nat)
    ensures Traced(db, db, key, false, now)
  {
  }

  lemma ApplyTraced(db: Db, other: Bytes, change: Change, key: Bytes, now: nat)
    ensures Traced(db, Apply(db, other, change), key, other == key && !change.Keep?, now)
  {
  }

  lemma SettleTraced(db: Db, other: Bytes, reading: nat, key: Bytes, now: nat)
    requires reading <= now
    ensures Traced(db, Settle(db, other, reading), key, false, now)
  {
  }

  lemma {:induction false} SweepTraced(db: Db, order: seq<Bytes>, reading: nat, key: Bytes, now: nat)
    requires reading <= now
    ensures Traced(db, Sweep(db, order, reading), key, false, now)
    decreases |order|
  {
    hide Settle, Traced;
    if order == [] {
      TracedSelf(db, key, now);
    } else {
      SettleTraced(db, order[0], reading, key, now);
      SweepTraced(Settle(db, order[0], reading), order[1..], reading, key, now);
      TracedTrans(db, Settle(db, order[0], reading), Sweep(db, order, reading), key, false, false, now);
    }
  }

  lemma {:induction false} ResolveTraced(db: Db, requests: seq<ReadRequest>, reading: nat, key: Bytes, now: nat)
    requires reading <= now
    ensures Traced(db, ResolveAll(db, requests, reading).db, key, false, now)
    decreases |requests|
  {
    hide Settle, Traced, ResolveRequest;
    if requests == [] {
      TracedSelf(db, key, now);
    } else {
      var settled := Settle(db, requests[0].key, reading);
      SettleTraced(db, requests[0].key, reading, key, now);
      ResolveTraced(settled, requests[1..], reading, key, now);
      TracedTrans(db, settled, ResolveAll(settled, requests[1..], reading).db, key, false, false, now);
    }
  }

  lemma {:induction false} WatchTraced(db: Db, watched: map<Bytes, nat>, keys: seq<Bytes>, reading: nat, key: Bytes, now: nat)
    requires reading <= now
    ensures Traced(db, WatchKeys(db, watched, keys, reading).db, key, false, now)
    decreases |keys|
  {
    hide Settle, Traced, Revision;
    if keys == [] {
      TracedSelf(db, key, now);
    } else if keys[0] in watched {
      WatchTraced(db, watched, keys[1..], reading, key, now);
    } else {
      var settled := Settle(db, keys[0], reading);
      SettleTraced(db, keys[0], reading, key, now);
      WatchTraced(settled, watched[keys[0] := Revision(settled, keys[0])], keys[1..], reading, key, now);
      TracedTrans(db, settled, WatchKeys(db, watched, keys, reading).db, key, false, false, now);
    }
  }

  lemma {:induction false} CheckTraced(db: Db, watched: map<Bytes, nat>, order: seq<Bytes>, reading: nat, key: Bytes, now: nat)
    requires reading <= now
    ensures Traced(db, CheckWatched(db, watched, order, reading).db, key, false, now)
    decreases |order|
  {
    hide Settle, Traced, Revision;
    if order == [] {
      TracedSelf(db, key, now);
    } else if order[0] !in watched {
      CheckTraced(db, watched, order[1..], reading, key, now);
    } else {
      var settled := Settle(db, order[0], reading);
      SettleTraced(db, order[0], reading, key, now);
      CheckTraced(settled, watched, order[1..], reading, key, now);
      TracedTrans(db, settled, CheckWatched(settled, watched, order[1..], reading).db, key, false, false, now);
    }
  }

  /* ---------- Commands of the table ---------- */

  /** A handler changes its entry exactly when it is a write that reports success. */
  lemma DecideChanges(command: Command, context: Context, entry: Option<Entry>)
    requires KeyVerb(VerbOf(command)) && ArgumentsValid(command, context)
    ensures var verdict := Decide(command, context, entry);
            !verdict.change.Keep? <==> IsWrite(command) && Modified(command, verdict.response)
  {
    hide VerbOf, ParseIdRequest, ParseExpiry, PairUp, ChooseId, Accepts, PrintId, EntryReplies, Range, ListSlice, Reverse,
         PrintInt, ParseSigned, Increment;
  }

  lemma DispatchKeyTraced(db: Db, command: Command, context: Context, key: Bytes, now: nat)
    requires KeyVerb(VerbOf(command)) && ArgumentsValid(command, context) && context.now <= now
    ensures var outcome := DispatchKey(db, command, context);
            Traced(db, outcome.db, key, command[1] == key && IsWrite(command) && Modified(command, outcome.response), now)
  {
    hide VerbOf, ArgumentsValid, Decide, Modified, IsWrite, Settle, Apply, Look, Traced;
    var settled := SettleFor(db, command, context.now);
    var verdict := Decide(command, context, Look(settled, command[1]));
    TracedSelf(db, key, now);
    SettleTraced(db, command[1], context.now, key, now);
    DecideChanges(command, context, Look(settled, command[1]));
    ApplyTraced(settled, command[1], verdict.change, key, now);
    TracedTrans(db, settled, Apply(settled, command[1], verdict.change), key, false,
                command[1] == key && !verdict.change.Keep?, now);
  }

  /** A command of the table renews the keys it writes, and no other that lasts. */
  lemma DispatchTraced(db: Db, command: Command, context: Context, key: Bytes, now: nat)
    requires context.now <= now
    ensures Traced(db, Dispatch(db, command, context).db, key, key in DispatchWrites(db, command, context), now)
  {
    hide VerbOf, ArgumentsValid, DispatchKey, Modified, Sweep, Survivors, ResolveAll, ParseXread, XreadResponse, Traced;
    TracedSelf(db, key, now);
    if command != [] && ArgumentsValid(command, context) {
      if KeyVerb(VerbOf(command)) {
        DispatchKeyTraced(db, command, context, key, now);
      } else if VerbOf(command).Keys? {
        SweepTraced(db, context.order, context.now, key, now);
      } else if VerbOf(command).Xread? {
        ResolveTraced(db, ParseXread(command).value.requests, context.now, key, now);
      }
    } else {
      ErrorModifiesNothing(command);
    }
  }

  lemma ErrorModifiesNothing(command: Command)
    ensures !Modified(command, ERR)
  {
  }

  /* ---------- Commands and tasks ---------- */

  /** Every clock reading of a turn. */
  ghost predicate ReadBy(env: Env, now: nat) {
    env.now <= now && forall i: nat :: env.context(i).now <= now
  }

  lemma {:induction false} QueueTraced(db: Db, commands: seq<Command>, i: nat, env: Env, key: Bytes, now: nat)
    requires ReadBy(env, now)
    ensures Traced(db, RunQueue(db, commands, i, env).db, key, key in QueuedWrites(db, commands, i, env), now)
    decreases |commands|
  {
    hide Dispatch, DispatchWrites, IsWrite, Modified, Normalize, Traced;
    if commands == [] {
      TracedSelf(db, key, now);
    } else {
      var after := Dispatch(db, commands[0], env.context(i)).db;
      assert env.context(i).now <= now;
      DispatchTraced(db, commands[0], env.context(i), key, now);
      QueueTraced(after, commands[1..], i + 1, env, key, now);
      TracedTrans(db, after, RunQueue(after, commands[1..], i + 1, env).db, key,
                  key in DispatchWrites(db, commands[0], env.context(i)),
                  key in QueuedWrites(after, commands[1..], i + 1, env), now);
    }
  }

  lemma RunTransactionDb(s: State, client: ClientId, commands: seq<Command>, source: Source, env: Env)
    ensures RunTransaction(s, client, commands, source, env).state.db == RunQueue(s.db, commands, 0, env).db
  {
    hide RunQueue, Record, SerializeAll;
    var ran := RunQueue(s.db, commands, 0, env);
    RecordDb(s.(db := ran.db), client, source, SerializeAll(Bracketed(ran.logged)), env);
  }

  lemma ExecTraced(s: State, client: ClientId, source: Source, env: Env, key: Bytes, now: nat)
    requires ReadBy(env, now)
    ensures Traced(s.db, ExecuteTransaction(s, client, source, env).state.db, key, key in ExecWrites(s, client, env), now)
  {
    hide CheckWatched, RunTransaction, QueuedWrites, Traced;
    if client !in s.transactions {
      TracedSelf(s.db, key, now);
    } else {
      var commands := s.transactions[client].commands;
      var checked := CheckWatched(s.db, WatchedBy(s, client), env.watchOrder, env.now);
      CheckTraced(s.db, WatchedBy(s, client), env.watchOrder, env.now, key, now);
      var ended := s.(db := checked.db, transactions := s.transactions - {client}, watched := s.watched - {client});
      RunTransactionDb(ended, client, commands, source, env);
      QueueTraced(checked.db, commands, 0, env, key, now);
      NothingQueued(checked.db, env);
      TracedTrans(s.db, checked.db, RunQueue(checked.db, commands, 0, env).db, key, false,
                  key in QueuedWrites(checked.db, commands, 0, env), now);
    }
  }

  lemma NothingQueued(db: Db, env: Env)
    ensures QueuedWrites(db, [], 0, env) == []
  {
  }

  /** The commands that do not touch the database. */
  lemma ImmediateLeavesDb(s: State, client: ClientId, command: Command, source: Source, env: Env)
    requires command != [] && !VerbOf(command).Exec? && !VerbOf(command).Watch?
    ensures ProcessImmediate(s, client, command, source, env).state.db == s.db
  {
    hide VerbOf, ExecuteTransaction, DoWatch, JoinAll, LeaveAll, Forget, DropFrom;
  }

  lemma WatchCommandTraced(s: State, client: ClientId, command: Command, env: Env, key: Bytes, now: nat)
    requires ReadBy(env, now)
    ensures Traced(s.db, DoWatch(s, client, command, env).state.db, key, false, now)
  {
    hide WatchKeys, Traced;
    TracedSelf(s.db, key, now);
    if |command| >= 2 {
      WatchTraced(s.db, WatchedBy(s, client), command[1..], env.now, key, now);
    }
  }

  lemma CommandTraced(s: State, client: ClientId, command: Command, source: Source, env: Env, key: Bytes, now: nat)
    requires ReadBy(env, now)
    ensures Traced(s.db, ProcessCommand(s, client, command, source, env).state.db, key,
                   key in CommandWrites(s, client, command, env), now)
  {
    var verb := VerbOf(command);
    if command == [] || !ImmediateVerb(verb) {
      hide Dispatch, DispatchWrites, Traced, VerbNamed, ProcessImmediate, ExecWrites, ReadBy;
      TracedSelf(s.db, key, now);
      if command == [] || verb.Ping? {
        PingWritesNothing(s.db, command, env.context(0));
      }
      FirstReading(env, now);
      DispatchTraced(s.db, command, env.context(0), key, now);
    } else {
      hide Traced, VerbOf, ProcessImmediate, ExecWrites, QueueOrRun, DispatchWrites;
      ImmediateTraced(s, client, command, source, env, key, now);
    }
  }

  lemma FirstReading(env: Env, now: nat)
    requires ReadBy(env, now)
    ensures env.context(0).now <= now
  {
  }

  lemma PingWritesNothing(db: Db, command: Command, context: Context)
    requires command == [] || VerbOf(command).Ping?
    ensures DispatchWrites(db, command, context) == []
  {
    hide Dispatch;
  }

  lemma ImmediateTraced(s: State, client: ClientId, command: Command, source: Source, env: Env, key: Bytes, now: nat)
    requires ReadBy(env, now) && command != [] && ImmediateVerb(VerbOf(command))
    ensures Traced(s.db, ProcessImmediate(s, client, command, source, env).state.db, key,
                   key in CommandWrites(s, client, command, env), now)
  {
    hide Traced, VerbOf, ExecuteTransaction, ExecWrites, DoWatch, DispatchWrites, DoSubscribe, DoUnsubscribe, DoPublish, ReadBy;
    TracedSelf(s.db, key, now);
    if VerbOf(command).Exec? {
      ExecTraced(s, client, source, env, key, now);
    } else if VerbOf(command).Watch? {
      WatchCommandTraced(s, client, command, env, key, now);
    } else {
      ImmediateLeavesDb(s, client, command, source, env);
    }
  }

  lemma DirectDb(s: State, task: Task, env: Env)
    ensures ProcessDirect(s, task, env).db == ProcessCommand(s, task.client, task.command, task.source, env).state.db
  {
    hide ProcessCommand, Record, Conclude, IsWrite, Modified, Normalize, SerializeCommand;
    var processed := ProcessCommand(s, task.client, task.command, task.source, env);
    var payload := SerializeCommand(Normalize(task.command, processed.response));
    var recorded := Record(processed.state, task.client, task.source, payload, env);
    RecordDb(processed.state, task.client, task.source, payload, env);
    var succeeded := !processed.response.SimpleError?;
    ConcludeDb(recorded.state, task, succeeded, if recorded.ok then processed.response else MISCONF, env);
    ConcludeDb(processed.state, task, succeeded, processed.response, env);
  }

  lemma PopTraced(db: Db, key: Bytes, reading: nat, watched: Bytes, now: nat)
    requires reading <= now
    ensures Traced(db, PopDb(db, key, reading), watched, watched in PopWrites(db, key, reading), now)
  {
    hide Settle, Apply, Look, Traced;
    var settled := Settle(db, key, reading);
    var popped := PopOne(Look(settled, key));
    SettleTraced(db, key, reading, watched, now);
    ApplyTraced(settled, key, popped.change, watched, now);
    TracedTrans(db, settled, Apply(settled, key, popped.change), watched, false, key == watched && !popped.change.Keep?, now);
  }

  lemma AttemptTraced(s: State, task: Task, key: Bytes, env: Env, watched: Bytes, now: nat)
    requires env.now <= now
    ensures Traced(s.db, AttemptPop(s, task, key, env).state.db, watched, watched in PopWrites(s.db, key, env.now), now)
  {
    hide AttemptPop, PopDb, PopFinds, PopWrites, Traced;
    AttemptShape(s, task, key, env);
    PopTraced(s.db, key, env.now, watched, now);
  }

  lemma BlpopTraced(s: State, task: Task, env: Env, key: Bytes, now: nat)
    requires env.now <= now
    ensures var writes := if |task.command| != 3 || env.context(0).timeout(task.command[2]).None? then []
                          else PopWrites(s.db, task.command[1], env.now);
            Traced(s.db, ProcessBlpop(s, task, env).db, key, key in writes, now)
  {
    hide AttemptPop, PopWrites, Traced;
    TracedSelf(s.db, key, now);
    if |task.command| == 3 {
      AttemptTraced(s, task, task.command[1], env, key, now);
    }
  }

  lemma XreadTraced(s: State, task: Task, env: Env, key: Bytes, now: nat)
    requires env.now <= now
    ensures Traced(s.db, ProcessXread(s, task, env).db, key, false, now)
  {
    hide ParseXread, ResolveAll, Collect, XreadResponse, Traced;
    TracedSelf(s.db, key, now);
    if ParseXread(task.command).Some? {
      ResolveTraced(s.db, ParseXread(task.command).value.requests, env.now, key, now);
    }
  }

  lemma WaitLeavesDb(s: State, task: Task, env: Env)
    ensures ProcessWait(s, task, env).db == s.db
  {
    hide ParseWait, CountReached, Prune, AppendFrame, SerializeCommand;
  }

  lemma RefusedLeavesDb(s: State, task: Task, response: Response, env: Env)
    ensures Refuse(s, task, response, env).db == s.db && RefuseWrite(s, task).db == s.db
  {
  }

  lemma AdmittedTraced(s: State, task: Task, env: Env, key: Bytes, now: nat)
    requires ReadBy(env, now)
    ensures Traced(s.db, ProcessAdmitted(s, task, env).db, key, key in AdmittedWrites(s, task, env), now)
  {
    hide VerbOf, CommandWrites, PopWrites, ProcessDirect, ProcessBlpop, ProcessXread, ProcessWait, Traced;
    TracedSelf(s.db, key, now);
    DirectDb(s, task, env);
    CommandTraced(s, task.client, task.command, task.source, env, key, now);
    BlpopTraced(s, task, env, key, now);
    XreadTraced(s, task, env, key, now);
    WaitLeavesDb(s, task, env);
  }

  lemma TaskTraced(s: State, task: Task, env: Env, key: Bytes, now: nat)
    requires ReadBy(env, now)
    ensures Traced(s.db, ProcessTask(s, task, env).db, key, key in TaskWrites(s, task, env), now)
  {
    hide VerbOf, IsWrite, AdmittedWrites, ProcessAdmitted, Refuse, RefuseWrite, Traced;
    TracedSelf(s.db, key, now);
    RefusedLeavesDb(s, task, NOAUTH, env);
    RefusedLeavesDb(s, task, ERR, env);
    AdmittedTraced(s, task, env, key, now);
  }

  /* ---------- The other tasks ---------- */

  lemma {:induction false} LoadTraced(db: Db, entries: seq<StringEntry>, unixNow: int, reading: nat, key: Bytes, now: nat)
    ensures Traced(db, LoadEntries(db, entries, unixNow, reading), key, key in LoadWrites(entries, unixNow), now)
    decreases |entries|
  {
    hide Traced, Apply;
    if entries == [] {
      TracedSelf(db, key, now);
    } else {
      var entry := entries[0];
      if entry.expiresAtUnix.Some? && (unixNow < 0 || entry.expiresAtUnix.value <= unixNow) {
        LoadTraced(db, entries[1..], unixNow, reading, key, now);
      } else {
        var left := if entry.expiresAtUnix.None? then None
                    else
                      var remaining := entry.expiresAtUnix.value - unixNow;
                      Some(reading + if remaining < I64_LIMIT then remaining else I64_LIMIT - 1);
        var change := Put(Entry(Text(entry.value), left));
        var after := Apply(db, entry.key, change);
        ApplyTraced(db, entry.key, change, key, now);
        LoadTraced(after, entries[1..], unixNow, reading, key, now);
        TracedTrans(db, after, LoadEntries(after, entries[1..], unixNow, reading), key, entry.key == key,
                    key in LoadWrites(entries[1..], unixNow), now);
      }
    }
  }

  lemma {:induction false} ReplayTraced(s: State, commands: seq<Command>, env: Env, key: Bytes, now: nat)
    requires ReadBy(env, now)
    ensures Traced(s.db, ReplayCommands(s, commands, env).state.db, key, key in ReplayWrites(s, commands, env), now)
    decreases |commands|
  {
    hide Traced, ProcessCommand, CommandWrites;
    if commands == [] {
      TracedSelf(s.db, key, now);
    } else {
      var processed := ProcessCommand(s, AOF_CLIENT, commands[0], FromAof, env);
      CommandTraced(s, AOF_CLIENT, commands[0], FromAof, env, key, now);
      if !processed.response.SimpleError? {
        ReplayTraced(processed.state, commands[1..], env, key, now);
        TracedTrans(s.db, processed.state.db, ReplayCommands(processed.state, commands[1..], env).state.db, key,
                    key in CommandWrites(s, AOF_CLIENT, commands[0], env),
                    key in ReplayWrites(processed.state, commands[1..], env), now);
      }
    }
  }

  lemma UnregisterLeavesDb(s: State, client: ClientId)
    ensures ProcessUnregister(s, client).db == s.db
  {
    hide CancelPops, CancelReads, CancelWaits, Forget, Unregister;
    var a := CancelPops(s, s.pendingPops, [], client);
    var b := CancelReads(a, s.pendingReads, [], client);
    CancelPopsCore(s, s.pendingPops, [], client);
    CancelReadsCore(a, s.pendingReads, [], client);
    CancelWaitsCore(b, s.pendingWaits, [], client);
  }

  lemma ProcessTraced(s: State, t: ProcessorTask, env: Env, key: Bytes, now: nat)
    requires ReadBy(env, now)
    ensures Traced(s.db, Process(s, t, env).db, key, key in ProcessWrites(s, t, env), now)
  {
    hide Traced, ProcessTask, TaskWrites, LoadEntries, LoadWrites, ReplayCommands, ReplayWrites, ProcessUnregister;
    TracedSelf(s.db, key, now);
    match t {
      case CommandTask(task) => TaskTraced(s, task, env, key, now);
      case LoadRdb(entries, unixNow) => LoadTraced(s.db, entries, unixNow, env.now, key, now);
      case InitializeAof(_, commands) => ReplayTraced(s, commands, env, key, now);
      case UnregisterClient(client) => UnregisterLeavesDb(s, client);
      case RegisterReplica(_) =>
      case InstallReplicationState(_) =>
      case GetReplicationOffset =>
      case AcknowledgeReplica(_, _) =>
      case RegisterClient(_) =>
    }
  }

  /* ---------- The rest of a turn ---------- */

  lemma {:induction false} RetryPopsTraced(
    s: State, queue: seq<PendingPop>, kept: seq<PendingPop>, env: Env, key: Bytes, now: nat)
    requires env.now <= now
    ensures Traced(s.db, RetryPops(s, queue, kept, env).db, key, key in RetryWrites(s, queue, env), now)
    decreases |queue|
  {
    hide Traced, AttemptPop, PopWrites;
    if queue == [] {
      TracedSelf(s.db, key, now);
    } else {
      var pop := queue[0];
      var attempt := AttemptPop(s, pop.task, pop.key, env);
      var passed := if attempt.served then kept else kept + [pop];
      AttemptTraced(s, pop.task, pop.key, env, key, now);
      RetryPopsTraced(attempt.state, queue[1..], passed, env, key, now);
      TracedTrans(s.db, attempt.state.db, RetryPops(attempt.state, queue[1..], passed, env).db, key,
                  key in PopWrites(s.db, pop.key, env.now), key in RetryWrites(attempt.state, queue[1..], env), now);
    }
  }

  lemma {:induction false} RetryReadsTraced(
    s: State, queue: seq<PendingRead>, kept: seq<PendingRead>, env: Env, key: Bytes, now: nat)
    requires env.now <= now
    ensures Traced(s.db, RetryReads(s, queue, kept, env).db, key, false, now)
    decreases |queue|
  {
    hide Traced, ResolveAll, Collect, XreadResponse;
    if queue == [] {
      TracedSelf(s.db, key, now);
    } else {
      var reading := ReadStreams(s.db, queue[0].requests, env.now);
      var after := s.(db := reading.db);
      ResolveTraced(s.db, queue[0].requests, env.now, key, now);
      if reading.results.None? {
        RetryReadsTraced(Answer(after, queue[0].task, WRONGTYPE), queue[1..], kept, env, key, now);
      } else if reading.results.value == [] {
        RetryReadsTraced(after, queue[1..], kept + [queue[0].(requests := reading.requests)], env, key, now);
      } else {
        RetryReadsTraced(Answer(after, queue[0].task, XreadResponse(reading.results.value)), queue[1..], kept, env, key, now);
      }
      TracedTrans(s.db, reading.db, RetryReads(s, queue, kept, env).db, key, false, false, now);
    }
  }

  lemma ExpireAllLeavesDb(s: State, now: nat)
    ensures ExpireAll(s, now).db == s.db
  {
    hide ExpirePops, ExpireReads, ExpireWaits;
    var a := ExpirePops(s, s.pendingPops, [], now);
    ExpirePopsCore(s, s.pendingPops, [], now);
    var b := ExpireReads(a, a.pendingReads, [], now);
    ExpireReadsCore(a, a.pendingReads, [], now);
    ExpireWaitsSame(b, b.pendingWaits, [], now);
  }

  lemma TurnTraced(s: State, env: Env, key: Bytes, now: nat)
    requires env.now <= now
    ensures Traced(s.db, ExpireAll(RetryAll(s, env), env.now).db, key, key in RetryWrites(s, s.pendingPops, env), now)
  {
    hide Traced, RetryPops, RetryReads, RetryWaits, ExpireAll, RetryWrites;
    RetryPopsTraced(s, s.pendingPops, [], env, key, now);
    var a := RetryPops(s, s.pendingPops, [], env);
    RetryReadsTraced(a, a.pendingReads, [], env, key, now);
    var b := RetryReads(a, a.pendingReads, [], env);
    RetryWaitsSame(b, b.pendingWaits, []);
    ExpireAllLeavesDb(RetryAll(s, env), env.now);
    TracedTrans(s.db, a.db, b.db, key, key in RetryWrites(s, s.pendingPops, env), false, now);
  }

  /** All clock readings of an event. */
  ghost predicate EventReadBy(event: Event, now: nat) {
    event.Work? ==> ReadBy(event.env, now)
  }

  /**
   The converse of the freshness of revisions: an event renews a key that it writes; a key that it does not
   write keeps revision and entry, unless the entry has expired.
   */
  lemma NextTraced(s: State, event: Event, key: Bytes, now: nat)
    requires EventReadBy(event, now)
    ensures Traced(s.db, Next(s, event).db, key, key in EventWrites(s, event), now)
  {
    hide Traced, Process, RetryAll, ExpireAll, ProcessWrites, RetryWrites, StepSessions;
    match event {
      case Work(t, env) =>
        var processed := Process(s, t, env);
        ProcessTraced(s, t, env, key, now);
        TurnTraced(processed, env, key, now);
        TracedTrans(s.db, processed.db, Step(s, t, env).db, key, key in ProcessWrites(s, t, env),
                    key in RetryWrites(processed, processed.pendingPops, env), now);
      case Tick(reading) =>
        ExpireAllLeavesDb(s, reading);
        TracedSelf(s.db, key, now);
      case Connection(_, _) => TracedSelf(s.db, key, now);
    }
  }
}
