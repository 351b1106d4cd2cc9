/** What every part of a worker step keeps. */
module Invariants {
  import opened Wrappers
  import opened Decimal
  import opened Resp
  import opened Aof
  import opened Responses
  import opened Streams
  import opened Keyspace
  import opened Commands
  import opened Effects
  import opened Channels
  import opened ReplicationStream
  import opened Snapshot
  import opened Processor

  /** Every handler sees a clock that was set. */
  ghost predicate ClocksRun(env: Env) {
    forall i: nat :: ClockSet(env.context(i))
  }

  /**
   Under which terms a part of a step is looked at: whether the clock was set, whether nothing came from
   a master, and whether no acknowledgement was received.
   */
  datatype Terms = Terms(clock: bool, local: bool, acks: bool)

  const NO_TERMS := Terms(false, false, false)
  const CLOCK_ONLY := Terms(true, false, false)

  /**
   From `s` to `t` every changed key got a fresh revision, the role stayed, no client appeared, the
   stream was only extended, and the invariants of database, stream and Pub/Sub survived.
   */
  ghost predicate Keeps(s: State, t: State, terms: Terms) {
    && Evolves(s.db, t.db)
    && t.replication.role == s.replication.role
    && t.clients.Keys <= s.clients.Keys
    && Extends(s.replication, t.replication)
    && (terms.acks ==> t.replication.acknowledged == s.replication.acknowledged)
    && (terms.clock && DbOk(s.db) ==> DbOk(t.db))
    && (terms.local && Accounted(s.replication) ==> Accounted(t.replication))
    && (Mirror(s.hub) ==> Mirror(t.hub))
  }

  lemma KeepsTrans(a: State, b: State, c: State, terms: Terms)
    requires Keeps(a, b, terms) && Keeps(b, c, terms)
    ensures Keeps(a, c, terms)
  {
    hide Evolves, DbOk, Accounted, Mirror, Extends;
    EvolvesTrans(a.db, b.db, c.db);
    ExtendsTrans(a.replication, b.replication, c.replication);
  }

  /** A change that touches none of database, stream, clients and Pub/Sub. */
  predicate SameCore(s: State, t: State) {
    t.db == s.db && t.replication == s.replication && t.clients == s.clients && t.hub == s.hub
  }

  lemma KeepsCore(s: State, t: State, terms: Terms)
    requires SameCore(s, t)
    ensures Keeps(s, t, terms)
  {
    hide Evolves, DbOk, Accounted, Mirror, Extends;
    ExtendsSame(s.replication, t.replication);
    EvolvesRefl(s.db);
  }

  lemma KeepsDb(s: State, t: State, terms: Terms)
    requires t.replication == s.replication && t.clients == s.clients && t.hub == s.hub
    requires Evolves(s.db, t.db) && (terms.clock && DbOk(s.db) ==> DbOk(t.db))
    ensures Keeps(s, t, terms)
  {
    hide Evolves, DbOk, Accounted, Mirror, Extends;
    ExtendsSame(s.replication, t.replication);
  }

  lemma KeepsStream(s: State, t: State, terms: Terms)
    requires t.db == s.db && t.clients == s.clients && t.hub == s.hub
    requires t.replication.role == s.replication.role
    requires terms.local && Accounted(s.replication) ==> Accounted(t.replication)
    requires Extends(s.replication, t.replication)
    requires terms.acks ==> t.replication.acknowledged == s.replication.acknowledged
    ensures Keeps(s, t, terms)
  {
    hide Evolves, DbOk, Accounted, Mirror, Extends;
    EvolvesRefl(s.db);
  }

  lemma KeepsHub(s: State, t: State, terms: Terms)
    requires t.db == s.db && t.replication == s.replication && t.clients.Keys <= s.clients.Keys
    requires Mirror(s.hub) ==> Mirror(t.hub)
    ensures Keeps(s, t, terms)
  {
    hide Evolves, DbOk, Accounted, Mirror, Extends;
    ExtendsSame(s.replication, t.replication);
    EvolvesRefl(s.db);
  }

  /* ---------- Recording ---------- */

  lemma BroadcastKeeps(s: State, client: ClientId, source: Source, payload: Bytes, terms: Terms)
    ensures Keeps(s, Broadcast(s, client, source, payload), terms)
  {
    hide Keeps, Accounted, Extends;
    if s.replication.role.Master? && source.FromClient? {
      AppendClientExtends(s.replication, client, payload);
      if Accounted(s.replication) {
        AppendClientAccounted(s.replication, client, payload);
      }
      KeepsStream(s, Broadcast(s, client, source, payload), terms);
    } else {
      KeepsCore(s, s, terms);
    }
  }

  lemma RecordKeeps(s: State, client: ClientId, source: Source, payload: Bytes, env: Env, terms: Terms)
    ensures Keeps(s, Record(s, client, source, payload, env).state, terms)
  {
    hide Keeps, Broadcast;
    if s.file.Some? && !source.FromAof? {
      match env.append(|s.file.value|) {
        case Written =>
          var filed := s.(file := Some(s.file.value + payload));
          KeepsCore(s, filed, terms);
          BroadcastKeeps(filed, client, source, payload, terms);
          KeepsTrans(s, filed, Broadcast(filed, client, source, payload), terms);
        case Cut(_) => KeepsCore(s, Record(s, client, source, payload, env).state, terms);
      }
    } else {
      BroadcastKeeps(s, client, source, payload, terms);
    }
  }

  /* ---------- Transactions ---------- */

  lemma {:induction false} WatchKeysKeep(db: Db, watched: map<Bytes, nat>, keys: seq<Bytes>, now: nat)
    ensures Evolves(db, WatchKeys(db, watched, keys, now).db)
    ensures DbOk(db) ==> DbOk(WatchKeys(db, watched, keys, now).db)
    decreases |keys|
  {
    hide Evolves, DbOk, Settle, Revision;
    if keys == [] {
      EvolvesRefl(db);
    } else if keys[0] in watched {
      WatchKeysKeep(db, watched, keys[1..], now);
    } else {
      var settled := Settle(db, keys[0], now);
      SettleEvolves(db, keys[0], now);
      if DbOk(db) {
        SettleOk(db, keys[0], now);
      }
      var longer := watched[keys[0] := Revision(settled, keys[0])];
      WatchKeysKeep(settled, longer, keys[1..], now);
      EvolvesTrans(db, settled, WatchKeys(settled, longer, keys[1..], now).db);
    }
  }

  lemma {:induction false} CheckWatchedKeeps(db: Db, watched: map<Bytes, nat>, order: seq<Bytes>, now: nat)
    ensures Evolves(db, CheckWatched(db, watched, order, now).db)
    ensures DbOk(db) ==> DbOk(CheckWatched(db, watched, order, now).db)
    decreases |order|
  {
    hide Evolves, DbOk, Settle, Revision;
    if order == [] {
      EvolvesRefl(db);
    } else if order[0] !in watched {
      CheckWatchedKeeps(db, watched, order[1..], now);
    } else {
      var settled := Settle(db, order[0], now);
      SettleEvolves(db, order[0], now);
      if DbOk(db) {
        SettleOk(db, order[0], now);
      }
      CheckWatchedKeeps(settled, watched, order[1..], now);
      EvolvesTrans(db, settled, CheckWatched(settled, watched, order[1..], now).db);
    }
  }

  lemma {:induction false} RunQueueKeeps(db: Db, commands: seq<Command>, i: nat, env: Env)
    ensures Evolves(db, RunQueue(db, commands, i, env).db)
    ensures ClocksRun(env) && DbOk(db) ==> DbOk(RunQueue(db, commands, i, env).db)
    decreases |commands|
  {
    hide Evolves, DbOk, Dispatch, IsWrite, Modified, Normalize, ClockSet;
    if commands == [] {
      EvolvesRefl(db);
    } else {
      var context := env.context(i);
      var after := Dispatch(db, commands[0], context).db;
      DispatchEvolves(db, commands[0], context);
      if ClocksRun(env) && DbOk(db) {
        DispatchOk(db, commands[0], context);
      }
      RunQueueKeeps(after, commands[1..], i + 1, env);
      EvolvesTrans(db, after, RunQueue(after, commands[1..], i + 1, env).db);
    }
  }

  lemma RunTransactionKeeps(
    s: State, client: ClientId, commands: seq<Command>, source: Source, env: Env, terms: Terms)
    requires terms.clock ==> ClocksRun(env)
    ensures Keeps(s, RunTransaction(s, client, commands, source, env).state, terms)
  {
    hide Keeps, RunQueue, Record, Evolves, DbOk, ClocksRun, SerializeAll, Bracketed;
    var ran := RunQueue(s.db, commands, 0, env);
    var after := s.(db := ran.db);
    RunQueueKeeps(s.db, commands, 0, env);
    KeepsDb(s, after, terms);
    if ran.logged != [] {
      var payload := SerializeAll(Bracketed(ran.logged));
      RecordKeeps(after, client, source, payload, env, terms);
      KeepsTrans(s, after, Record(after, client, source, payload, env).state, terms);
    }
  }

  lemma ExecuteKeeps(s: State, client: ClientId, source: Source, env: Env, terms: Terms)
    requires terms.clock ==> ClocksRun(env)
    ensures Keeps(s, ExecuteTransaction(s, client, source, env).state, terms)
  {
    hide Keeps, RunTransaction, CheckWatched, Evolves, DbOk, ClocksRun;
    KeepsCore(s, s, terms);
    if client in s.transactions {
      var transaction := s.transactions[client];
      var checked := CheckWatched(s.db, WatchedBy(s, client), env.watchOrder, env.now);
      var ended := s.(db := checked.db, transactions := s.transactions - {client}, watched := s.watched - {client});
      CheckWatchedKeeps(s.db, WatchedBy(s, client), env.watchOrder, env.now);
      KeepsDb(s, ended, terms);
      RunTransactionKeeps(ended, client, transaction.commands, source, env, terms);
      KeepsTrans(s, ended, RunTransaction(ended, client, transaction.commands, source, env).state, terms);
    }
  }

  /* ---------- Pub/Sub ---------- */

  lemma TouchSessionKeeps(s: State, client: ClientId, env: Env, terms: Terms)
    ensures Keeps(s, TouchSession(s, client, env), terms)
  {
    hide Keeps, Mirror;
    KeepsHub(s, TouchSession(s, client, env), terms);
  }

  lemma SubscribeKeeps(s: State, client: ClientId, command: Command, env: Env, terms: Terms)
    ensures Keeps(s, DoSubscribe(s, client, command, env).state, terms)
  {
    hide Keeps, Mirror, TouchSession;
    TouchSessionKeeps(s, client, env, terms);
    KeepsCore(s, s, terms);
    if |command| >= 2 && SessionThere(s, client, env) {
      if Mirror(s.hub) {
        JoinAllMirror(s.hub, client, command[1..]);
      }
      KeepsHub(s, DoSubscribe(s, client, command, env).state, terms);
    }
  }

  lemma UnsubscribeKeeps(s: State, client: ClientId, command: Command, env: Env, terms: Terms)
    requires command != []
    ensures Keeps(s, DoUnsubscribe(s, client, command, env).state, terms)
  {
    hide Keeps, Mirror, TouchSession, Forget, LeaveAll;
    TouchSessionKeeps(s, client, env, terms);
    if SessionThere(s, client, env) {
      if Mirror(s.hub) {
        ForgetMirror(s.hub, client);
        LeaveAllMirror(s.hub, client, command[1..]);
      }
      KeepsHub(s, DoUnsubscribe(s, client, command, env).state, terms);
    }
  }

  lemma PublishKeeps(s: State, command: Command, env: Env, terms: Terms)
    ensures Keeps(s, DoPublish(s, command, env).state, terms)
  {
    hide Keeps, Mirror, DropFrom;
    KeepsCore(s, s, terms);
    if |command| == 3 && command[1] in s.hub.channels {
      var dead := set client | client in s.hub.channels[command[1]] && !SessionThere(s, client, env);
      if Mirror(s.hub) {
        DropMirror(s.hub, command[1], dead);
      }
      KeepsHub(s, DoPublish(s, command, env).state, terms);
    }
  }

  /* ---------- Commands ---------- */

  lemma WatchKeeps(s: State, client: ClientId, command: Command, env: Env, terms: Terms)
    ensures Keeps(s, DoWatch(s, client, command, env).state, terms)
  {
    hide Keeps, WatchKeys, Evolves, DbOk;
    KeepsCore(s, s, terms);
    if |command| >= 2 && client !in s.transactions {
      WatchKeysKeep(s.db, WatchedBy(s, client), command[1..], env.now);
      KeepsDb(s, DoWatch(s, client, command, env).state, terms);
    }
  }

  lemma QueueOrRunKeeps(s: State, client: ClientId, command: Command, env: Env, terms: Terms)
    requires terms.clock ==> ClocksRun(env)
    ensures Keeps(s, QueueOrRun(s, client, command, env).state, terms)
  {
    hide Keeps, Dispatch, Evolves, DbOk, ClockSet;
    if client in s.transactions {
      KeepsCore(s, QueueOrRun(s, client, command, env).state, terms);
    } else {
      DispatchEvolves(s.db, command, env.context(0));
      if terms.clock && DbOk(s.db) {
        DispatchOk(s.db, command, env.context(0));
      }
      KeepsDb(s, QueueOrRun(s, client, command, env).state, terms);
    }
  }

  lemma ImmediateKeeps(s: State, client: ClientId, command: Command, source: Source, env: Env, terms: Terms)
    requires command != [] && (terms.clock ==> ClocksRun(env))
    ensures Keeps(s, ProcessImmediate(s, client, command, source, env).state, terms)
  {
    hide VerbOf, Keeps, ClocksRun, DoSubscribe, DoUnsubscribe, DoPublish, DoWatch, DoAuth, ExecuteTransaction,
         ProcessAdministrative;
    var verb := VerbOf(command);
    if verb.Exec? {
      ExecuteKeeps(s, client, source, env, terms);
    } else if verb.Subscribe? {
      SubscribeKeeps(s, client, command, env, terms);
    } else if verb.Unsubscribe? {
      UnsubscribeKeeps(s, client, command, env, terms);
    } else if verb.Publish? {
      PublishKeeps(s, command, env, terms);
    } else if verb.Watch? {
      WatchKeeps(s, client, command, env, terms);
    } else if verb.Auth? {
      KeepsAuth(s, client, env, terms);
    } else {
      KeepsCore(s, DoMulti(s, client).state, terms);
      KeepsCore(s, DoDiscard(s, client).state, terms);
      AdministrativeKeeps(s, client, command, env, terms);
    }
  }

  lemma AdministrativeKeeps(s: State, client: ClientId, command: Command, env: Env, terms: Terms)
    ensures Keeps(s, ProcessAdministrative(s, client, command, env).state, terms)
  {
    hide VerbOf, Keeps;
    KeepsCore(s, ProcessAdministrative(s, client, command, env).state, terms);
  }

  lemma KeepsAuth(s: State, client: ClientId, env: Env, terms: Terms)
    ensures Keeps(s, DoAuth(s, client, env).state, terms)
  {
    hide Keeps, Mirror;
    var t := DoAuth(s, client, env).state;
    assert t.clients.Keys == s.clients.Keys;
    KeepsHub(s, t, terms);
  }

  lemma CommandKeeps(s: State, client: ClientId, command: Command, source: Source, env: Env, terms: Terms)
    requires terms.clock ==> ClocksRun(env)
    ensures Keeps(s, ProcessCommand(s, client, command, source, env).state, terms)
  {
    hide VerbOf, Keeps, ClocksRun, ProcessImmediate, QueueOrRun;
    KeepsCore(s, s, terms);
    if command != [] {
      if ImmediateVerb(VerbOf(command)) {
        ImmediateKeeps(s, client, command, source, env, terms);
      } else {
        QueueOrRunKeeps(s, client, command, env, terms);
      }
    }
  }

  /* ---------- Blocking commands ---------- */

  lemma PopDbKeeps(db: Db, key: Bytes, now: nat)
    ensures var settled := Settle(db, key, now);
            var after := Apply(settled, key, PopOne(Look(settled, key)).change);
            Evolves(db, after) && (DbOk(db) ==> DbOk(after))
  {
    hide Evolves, Settle, Apply, Ordered, Positive;
    var settled := Settle(db, key, now);
    var change := PopOne(Look(settled, key)).change;
    SettleEvolves(db, key, now);
    ApplyEvolves(settled, key, change);
    EvolvesTrans(db, settled, Apply(settled, key, change));
    if DbOk(db) {
      SettleOk(db, key, now);
      ApplyOk(settled, key, change);
    }
  }

  lemma AttemptKeeps(s: State, task: Task, key: Bytes, env: Env, terms: Terms)
    ensures Keeps(s, AttemptPop(s, task, key, env).state, terms)
  {
    hide Keeps, Settle, Apply, PopOne, Look, Evolves, DbOk, Record, SerializeCommand;
    var settled := Settle(s.db, key, env.now);
    var popped := PopOne(Look(settled, key));
    var after := s.(db := Apply(settled, key, popped.change));
    PopDbKeeps(s.db, key, env.now);
    KeepsDb(s, after, terms);
    match popped.outcome {
      case Element(value) =>
        var payload := SerializeCommand(["LPOP", key]);
        var recorded := Record(after, task.client, task.source, payload, env).state;
        RecordKeeps(after, task.client, task.source, payload, env, terms);
        KeepsTrans(s, after, recorded, terms);
        var t := AttemptPop(s, task, key, env).state;
        KeepsCore(recorded, t, terms);
        KeepsTrans(s, recorded, t, terms);
      case NotAList =>
        var t := AttemptPop(s, task, key, env).state;
        KeepsCore(after, t, terms);
        KeepsTrans(s, after, t, terms);
      case NothingThere =>
    }
  }

  lemma BlpopKeeps(s: State, task: Task, env: Env, terms: Terms)
    ensures Keeps(s, ProcessBlpop(s, task, env), terms)
  {
    hide Keeps, AttemptPop;
    var t := ProcessBlpop(s, task, env);
    if |task.command| != 3 || env.context(0).timeout(task.command[2]).None? {
      KeepsCore(s, t, terms);
    } else {
      var attempt := AttemptPop(s, task, task.command[1], env);
      AttemptKeeps(s, task, task.command[1], env, terms);
      KeepsCore(attempt.state, t, terms);
      KeepsTrans(s, attempt.state, t, terms);
    }
  }

  lemma ReadKeeps(db: Db, requests: seq<ReadRequest>, now: nat)
    ensures Evolves(db, ReadStreams(db, requests, now).db)
    ensures DbOk(db) ==> DbOk(ReadStreams(db, requests, now).db)
  {
    hide Evolves, DbOk, ResolveAll, Collect;
    ResolveEvolves(db, requests, now);
    if DbOk(db) {
      ResolveOk(db, requests, now);
    }
  }

  lemma AnswerOrBlockCore(s: State, task: Task, mode: ReadMode, reading: Reading, now: nat)
    ensures SameCore(s, AnswerOrBlock(s, task, mode, reading, now))
  {
    hide XreadResponse;
  }

  lemma XreadKeeps(s: State, task: Task, env: Env, terms: Terms)
    ensures Keeps(s, ProcessXread(s, task, env), terms)
  {
    hide Keeps, Evolves, DbOk, ReadStreams, ParseXread, AnswerOrBlock;
    var t := ProcessXread(s, task, env);
    match ParseXread(task.command) {
      case None => KeepsCore(s, t, terms);
      case Some(read) =>
        var reading := ReadStreams(s.db, read.requests, env.now);
        var after := s.(db := reading.db);
        ReadKeeps(s.db, read.requests, env.now);
        KeepsDb(s, after, terms);
        AnswerOrBlockCore(after, task, read.mode, reading, env.now);
        KeepsCore(after, t, terms);
        KeepsTrans(s, after, t, terms);
    }
  }

  lemma AskKeeps(s: State, task: Task, request: WaitRequest, target: nat, now: nat, terms: Terms)
    requires s.replication.role.Master?
    ensures Keeps(s, AskAndWait(s, task, request, target, now), terms)
  {
    hide Keeps, Accounted, AppendFrame, SerializeCommand, Extends;
    var payload := SerializeCommand(GETACK_COMMAND);
    AppendRole(s.replication, payload);
    AppendExtends(s.replication, payload);
    if Accounted(s.replication) {
      AppendAccounted(s.replication, payload);
    }
    KeepsStream(s, AskAndWait(s, task, request, target, now), terms);
  }

  lemma WaitKeeps(s: State, task: Task, env: Env, terms: Terms)
    ensures Keeps(s, ProcessWait(s, task, env), terms)
  {
    hide Keeps, ParseWait, CountReached, Prune, AskAndWait;
    var t := ProcessWait(s, task, env);
    if !s.replication.role.Master? || ParseWait(task.command).None? {
      KeepsCore(s, t, terms);
    } else {
      var request := ParseWait(task.command).value;
      var target := WriteOffset(s.replication, task.client);
      var count := CountReached(s.replication.sessions, s.replication.acknowledged, target);
      var pruned := s.(replication := Prune(s.replication));
      PruneRole(s.replication);
      PruneKeeps(s, pruned, terms);
      PruneKeeps(s, Answer(pruned, task, Integer(count)), terms);
      AskKeeps(pruned, task, request, target, env.now, terms);
      KeepsTrans(s, pruned, AskAndWait(pruned, task, request, target, env.now), terms);
    }
  }

  lemma PruneRole(r: Replication)
    ensures Prune(r).role == r.role && Prune(r).acknowledged == r.acknowledged
  {
  }

  lemma AppendRole(r: Replication, payload: Bytes)
    ensures AppendFrame(r, payload).role == r.role && AppendFrame(r, payload).acknowledged == r.acknowledged
  {
  }

  /* ---------- Command tasks ---------- */

  lemma RefuseKeeps(s: State, task: Task, response: Response, env: Env, terms: Terms)
    ensures Keeps(s, Refuse(s, task, response, env), terms)
  {
    hide Keeps, TouchSession;
    var t := Refuse(s, task, response, env);
    if task.client in s.hub.subscriptions {
      var touched := TouchSession(s, task.client, env);
      TouchSessionKeeps(s, task.client, env, terms);
      KeepsCore(touched, t, terms);
      KeepsTrans(s, touched, t, terms);
    } else {
      KeepsCore(s, t, terms);
    }
  }

  lemma ConcludeKeeps(s: State, task: Task, succeeded: bool, response: Response, env: Env, terms: Terms)
    requires terms.local ==> !task.source.FromMaster?
    ensures Keeps(s, Conclude(s, task, succeeded, response, env), terms)
  {
    hide Keeps, TouchSession, Accounted, Extends;
    var t := Conclude(s, task, succeeded, response, env);
    var advanced := if task.source.FromMaster? && succeeded
                    then s.(replication := s.replication.(offset := s.replication.offset + task.bytes)) else s;
    ExtendsSame(s.replication, advanced.replication);
    KeepsStream(s, advanced, terms);
    var touched := TouchSession(advanced, task.client, env);
    TouchSessionKeeps(advanced, task.client, env, terms);
    KeepsTrans(s, advanced, touched, terms);
    if task.source.FromClient? && task.client in s.hub.subscriptions && !response.NoResponse? {
      KeepsCore(touched, t, terms);
      KeepsTrans(s, touched, t, terms);
    } else {
      KeepsCore(advanced, t, terms);
      KeepsTrans(s, advanced, t, terms);
    }
  }

  lemma DirectKeeps(s: State, task: Task, env: Env, terms: Terms)
    requires (terms.clock ==> ClocksRun(env)) && (terms.local ==> !task.source.FromMaster?)
    ensures Keeps(s, ProcessDirect(s, task, env), terms)
  {
    hide Keeps, ClocksRun, ProcessCommand, Record, Conclude, IsWrite, Modified, Normalize, SerializeCommand;
    var t := ProcessDirect(s, task, env);
    var write := task.client !in s.transactions && IsWrite(task.command);
    var processed := ProcessCommand(s, task.client, task.command, task.source, env);
    CommandKeeps(s, task.client, task.command, task.source, env, terms);
    var succeeded := !processed.response.SimpleError?;
    if write && Modified(task.command, processed.response) {
      var payload := SerializeCommand(Normalize(task.command, processed.response));
      var recorded := Record(processed.state, task.client, task.source, payload, env);
      RecordKeeps(processed.state, task.client, task.source, payload, env, terms);
      KeepsTrans(s, processed.state, recorded.state, terms);
      ConcludeKeeps(recorded.state, task, succeeded, if recorded.ok then processed.response else MISCONF, env, terms);
      KeepsTrans(s, recorded.state, t, terms);
    } else {
      ConcludeKeeps(processed.state, task, succeeded, processed.response, env, terms);
      KeepsTrans(s, processed.state, t, terms);
    }
  }

  lemma TaskKeeps(s: State, task: Task, env: Env, terms: Terms)
    requires (terms.clock ==> ClocksRun(env)) && (terms.local ==> !task.source.FromMaster?)
    ensures Keeps(s, ProcessTask(s, task, env), terms)
  {
    hide VerbOf, Keeps, ClocksRun, ProcessDirect, ProcessBlpop, ProcessXread, ProcessWait, Refuse;
    RefuseKeeps(s, task, NOAUTH, env, terms);
    RefuseKeeps(s, task, ERR, env, terms);
    KeepsCore(s, RefuseWrite(s, task), terms);
    DirectKeeps(s, task, env, terms);
    BlpopKeeps(s, task, env, terms);
    XreadKeeps(s, task, env, terms);
    WaitKeeps(s, task, env, terms);
  }

  /* ---------- Loops over the blocked commands ---------- */

  lemma {:induction false} CancelPopsCore(s: State, queue: seq<PendingPop>, kept: seq<PendingPop>, client: ClientId)
    ensures SameCore(s, CancelPops(s, queue, kept, client))
    decreases |queue|
  {
    if queue != [] {
      if queue[0].task.client != client {
        CancelPopsCore(s, queue[1..], kept + [queue[0]], client);
      } else {
        CancelPopsCore(Answer(s, queue[0].task, NoResponse), queue[1..], kept, client);
      }
    }
  }

  lemma {:induction false} CancelReadsCore(s: State, queue: seq<PendingRead>, kept: seq<PendingRead>, client: ClientId)
    ensures SameCore(s, CancelReads(s, queue, kept, client))
    decreases |queue|
  {
    if queue != [] {
      if queue[0].task.client != client {
        CancelReadsCore(s, queue[1..], kept + [queue[0]], client);
      } else {
        CancelReadsCore(Answer(s, queue[0].task, NoResponse), queue[1..], kept, client);
      }
    }
  }

  lemma {:induction false} CancelWaitsCore(s: State, queue: seq<PendingWait>, kept: seq<PendingWait>, client: ClientId)
    ensures SameCore(s, CancelWaits(s, queue, kept, client))
    decreases |queue|
  {
    if queue != [] {
      if queue[0].task.client != client {
        CancelWaitsCore(s, queue[1..], kept + [queue[0]], client);
      } else {
        CancelWaitsCore(Answer(s, queue[0].task, NoResponse), queue[1..], kept, client);
      }
    }
  }

  lemma {:induction false} RetryPopsKeeps(
    s: State, queue: seq<PendingPop>, kept: seq<PendingPop>, env: Env, terms: Terms)
    ensures Keeps(s, RetryPops(s, queue, kept, env), terms)
    decreases |queue|
  {
    hide Keeps, AttemptPop;
    if queue == [] {
      KeepsCore(s, s.(pendingPops := kept), terms);
    } else {
      var attempt := AttemptPop(s, queue[0].task, queue[0].key, env);
      AttemptKeeps(s, queue[0].task, queue[0].key, env, terms);
      var longer := if attempt.served then kept else kept + [queue[0]];
      RetryPopsKeeps(attempt.state, queue[1..], longer, env, terms);
      KeepsTrans(s, attempt.state, RetryPops(attempt.state, queue[1..], longer, env), terms);
    }
  }

  lemma {:induction false} RetryReadsKeeps(
    s: State, queue: seq<PendingRead>, kept: seq<PendingRead>, env: Env, terms: Terms)
    ensures Keeps(s, RetryReads(s, queue, kept, env), terms)
    decreases |queue|
  {
    hide Keeps, Evolves, DbOk, ReadStreams, XreadResponse;
    if queue == [] {
      KeepsCore(s, s.(pendingReads := kept), terms);
    } else {
      var reading := ReadStreams(s.db, queue[0].requests, env.now);
      ReadKeeps(s.db, queue[0].requests, env.now);
      var after := s.(db := reading.db);
      var next, longer :=
        if reading.results.None? then Answer(after, queue[0].task, WRONGTYPE)
        else if reading.results.value == [] then after
        else Answer(after, queue[0].task, XreadResponse(reading.results.value)),
        if reading.results.Some? && reading.results.value == []
        then kept + [queue[0].(requests := reading.requests)] else kept;
      KeepsDb(s, next, terms);
      RetryReadsKeeps(next, queue[1..], longer, env, terms);
      KeepsTrans(s, next, RetryReads(next, queue[1..], longer, env), terms);
    }
  }

  lemma PruneKeeps(s: State, t: State, terms: Terms)
    requires t.db == s.db && t.clients == s.clients && t.hub == s.hub && t.replication == Prune(s.replication)
    ensures Keeps(s, t, terms)
  {
    hide Keeps, Accounted, Prune, Extends;
    PruneRole(s.replication);
    PruneExtends(s.replication);
    if Accounted(s.replication) {
      PruneAccounted(s.replication);
    }
    KeepsStream(s, t, terms);
  }

  lemma {:induction false} RetryWaitsKeeps(
    s: State, queue: seq<PendingWait>, kept: seq<PendingWait>, terms: Terms)
    ensures Keeps(s, RetryWaits(s, queue, kept), terms)
    decreases |queue|
  {
    hide Keeps, Prune, CountReached;
    if queue == [] {
      KeepsCore(s, s.(pendingWaits := kept), terms);
    } else {
      var count := CountReached(s.replication.sessions, s.replication.acknowledged, queue[0].target);
      var pruned := s.(replication := Prune(s.replication));
      var waiting := count < queue[0].required;
      var next := if waiting then pruned else Answer(pruned, queue[0].task, Integer(count));
      var longer := if waiting then kept + [queue[0]] else kept;
      PruneKeeps(s, next, terms);
      RetryWaitsKeeps(next, queue[1..], longer, terms);
      KeepsTrans(s, next, RetryWaits(next, queue[1..], longer), terms);
    }
  }

  lemma {:induction false} ExpirePopsCore(s: State, queue: seq<PendingPop>, kept: seq<PendingPop>, now: nat)
    ensures SameCore(s, ExpirePops(s, queue, kept, now))
    decreases |queue|
  {
    if queue != [] {
      if !Overdue(queue[0].deadline, now) {
        ExpirePopsCore(s, queue[1..], kept + [queue[0]], now);
      } else {
        ExpirePopsCore(Answer(s, queue[0].task, NullArray), queue[1..], kept, now);
      }
    }
  }

  lemma {:induction false} ExpireReadsCore(s: State, queue: seq<PendingRead>, kept: seq<PendingRead>, now: nat)
    ensures SameCore(s, ExpireReads(s, queue, kept, now))
    decreases |queue|
  {
    if queue != [] {
      if !Overdue(queue[0].deadline, now) {
        ExpireReadsCore(s, queue[1..], kept + [queue[0]], now);
      } else {
        ExpireReadsCore(Answer(s, queue[0].task, NullArray), queue[1..], kept, now);
      }
    }
  }

  lemma {:induction false} ExpireWaitsKeeps(
    s: State, queue: seq<PendingWait>, kept: seq<PendingWait>, now: nat, terms: Terms)
    ensures Keeps(s, ExpireWaits(s, queue, kept, now), terms)
    decreases |queue|
  {
    hide Keeps, Prune, CountReached, Overdue;
    if queue == [] {
      KeepsCore(s, s.(pendingWaits := kept), terms);
    } else if !Overdue(queue[0].deadline, now) {
      ExpireWaitsKeeps(s, queue[1..], kept + [queue[0]], now, terms);
    } else {
      var count := CountReached(s.replication.sessions, s.replication.acknowledged, queue[0].target);
      var next := Answer(s.(replication := Prune(s.replication)), queue[0].task, Integer(count));
      PruneKeeps(s, next, terms);
      ExpireWaitsKeeps(next, queue[1..], kept, now, terms);
      KeepsTrans(s, next, ExpireWaits(next, queue[1..], kept, now), terms);
    }
  }

  lemma RetryAllKeeps(s: State, env: Env, terms: Terms)
    ensures Keeps(s, RetryAll(s, env), terms)
  {
    hide Keeps, RetryPops, RetryReads, RetryWaits;
    var a := RetryPops(s, s.pendingPops, [], env);
    var b := RetryReads(a, a.pendingReads, [], env);
    RetryPopsKeeps(s, s.pendingPops, [], env, terms);
    RetryReadsKeeps(a, a.pendingReads, [], env, terms);
    RetryWaitsKeeps(b, b.pendingWaits, [], terms);
    KeepsTrans(s, a, b, terms);
    KeepsTrans(s, b, RetryWaits(b, b.pendingWaits, []), terms);
  }

  lemma ExpireAllKeeps(s: State, now: nat, terms: Terms)
    ensures Keeps(s, ExpireAll(s, now), terms)
  {
    hide Keeps, ExpirePops, ExpireReads, ExpireWaits;
    var a := ExpirePops(s, s.pendingPops, [], now);
    var b := ExpireReads(a, a.pendingReads, [], now);
    ExpirePopsCore(s, s.pendingPops, [], now);
    ExpireReadsCore(a, a.pendingReads, [], now);
    KeepsCore(s, b, terms);
    ExpireWaitsKeeps(b, b.pendingWaits, [], now, terms);
    KeepsTrans(s, b, ExpireWaits(b, b.pendingWaits, [], now), terms);
  }

  /* ---------- The other tasks ---------- */

  lemma {:induction false} LoadKeeps(db: Db, entries: seq<StringEntry>, unixNow: int, now: nat)
    ensures Evolves(db, LoadEntries(db, entries, unixNow, now))
    ensures DbOk(db) ==> DbOk(LoadEntries(db, entries, unixNow, now))
    decreases |entries|
  {
    hide Evolves, DbOk, Apply;
    if entries == [] {
      EvolvesRefl(db);
    } else {
      var entry := entries[0];
      if entry.expiresAtUnix.Some? && (unixNow < 0 || entry.expiresAtUnix.value <= unixNow) {
        LoadKeeps(db, entries[1..], unixNow, now);
      } else {
        var left := if entry.expiresAtUnix.None? then None
                    else
                      var remaining := entry.expiresAtUnix.value - unixNow;
                      Some(now + if remaining < I64_LIMIT then remaining else I64_LIMIT - 1);
        var change := Put(Entry(Text(entry.value), left));
        var after := Apply(db, entry.key, change);
        ApplyEvolves(db, entry.key, change);
        if DbOk(db) {
          ApplyOk(db, entry.key, change);
        }
        LoadKeeps(after, entries[1..], unixNow, now);
        EvolvesTrans(db, after, LoadEntries(after, entries[1..], unixNow, now));
      }
    }
  }

  lemma {:induction false} ReplayKeeps(s: State, commands: seq<Command>, env: Env, terms: Terms)
    requires terms.clock ==> ClocksRun(env)
    ensures Keeps(s, ReplayCommands(s, commands, env).state, terms)
    decreases |commands|
  {
    hide Keeps, ClocksRun, ProcessCommand;
    if commands == [] {
      KeepsCore(s, s, terms);
    } else {
      var processed := ProcessCommand(s, AOF_CLIENT, commands[0], FromAof, env);
      CommandKeeps(s, AOF_CLIENT, commands[0], FromAof, env, terms);
      if !processed.response.SimpleError? {
        ReplayKeeps(processed.state, commands[1..], env, terms);
        KeepsTrans(s, processed.state, ReplayCommands(processed.state, commands[1..], env).state, terms);
      }
    }
  }

  lemma UnregisterKeeps(s: State, client: ClientId, terms: Terms)
    requires !terms.acks
    ensures Keeps(s, ProcessUnregister(s, client), terms)
  {
    hide Keeps, CancelPops, CancelReads, CancelWaits, Mirror, Accounted, Forget, Extends;
    var a := CancelPops(s, s.pendingPops, [], client);
    var b := CancelReads(a, s.pendingReads, [], client);
    var c := CancelWaits(b, s.pendingWaits, [], client);
    CancelPopsCore(s, s.pendingPops, [], client);
    CancelReadsCore(a, s.pendingReads, [], client);
    CancelWaitsCore(b, s.pendingWaits, [], client);
    KeepsCore(s, c, terms);
    var d := c.(hub := Forget(c.hub, client), clients := c.clients - {client});
    if Mirror(c.hub) {
      ForgetMirror(c.hub, client);
    }
    KeepsHub(c, d, terms);
    KeepsTrans(s, c, d, terms);
    var t := ProcessUnregister(s, client);
    if Accounted(d.replication) {
      UnregisterAccounted(d.replication, client);
    }
    ExtendsSame(d.replication, t.replication);
    KeepsStream(d, t, terms);
    KeepsTrans(s, d, t, terms);
  }

  /** A task that a master can meet: only the replication thread of a replica sends the others. */
  predicate LocalTask(t: ProcessorTask) {
    !t.InstallReplicationState? && (t.CommandTask? ==> !t.task.source.FromMaster?)
  }

  lemma ProcessKeeps(s: State, t: ProcessorTask, env: Env, terms: Terms)
    requires (terms.clock ==> ClocksRun(env)) && (terms.local ==> LocalTask(t)) && !t.RegisterClient?
    requires terms.acks ==> !t.AcknowledgeReplica? && !t.UnregisterClient?
    ensures Keeps(s, Process(s, t, env), terms)
  {
    hide Keeps, ClocksRun, ProcessTask, LoadEntries, ReplayCommands, ProcessUnregister, Accounted, Evolves, DbOk,
         Extends;
    var after := Process(s, t, env);
    match t {
      case CommandTask(task) => TaskKeeps(s, task, env, terms);
      case RegisterReplica(client) =>
        RegisterExtends(s.replication, client);
        if Accounted(s.replication) {
          RegisterAccounted(s.replication, client);
        }
        KeepsStream(s, after, terms);
      case InstallReplicationState(_) =>
        ExtendsSame(s.replication, after.replication);
        KeepsStream(s, after, terms);
      case GetReplicationOffset => KeepsCore(s, after, terms);
      case AcknowledgeReplica(client, offset) =>
        ExtendsSame(s.replication, after.replication);
        if Accounted(s.replication) {
          AcknowledgeAccounted(s.replication, client, offset);
        }
        KeepsStream(s, after, terms);
      case LoadRdb(entries, unixNow) =>
        LoadKeeps(s.db, entries, unixNow, env.now);
        KeepsDb(s, after, terms);
      case InitializeAof(contents, commands) =>
        var replayed := ReplayCommands(s, commands, env).state;
        ReplayKeeps(s, commands, env, terms);
        KeepsCore(replayed, after, terms);
        KeepsTrans(s, replayed, after, terms);
      case UnregisterClient(client) => UnregisterKeeps(s, client, terms);
    }
  }

  lemma RegisterClientKeeps(s: State, client: ClientId, env: Env)
    ensures var t := Process(s, RegisterClient(client), env);
            && t.db == s.db && t.replication == s.replication && t.hub == s.hub
            && t.clients.Keys == s.clients.Keys + {client}
  {
    hide ProcessTask, LoadEntries, ProcessAof, ProcessUnregister;
  }

  lemma SettleStep(s: State, env: Env, terms: Terms)
    ensures Keeps(s, ExpireAll(RetryAll(s, env), env.now), terms)
  {
    hide Keeps, RetryAll, ExpireAll;
    RetryAllKeeps(s, env, terms);
    ExpireAllKeeps(RetryAll(s, env), env.now, terms);
    KeepsTrans(s, RetryAll(s, env), ExpireAll(RetryAll(s, env), env.now), terms);
  }

  /* ---------- Whole runs ---------- */

  /** The invariants of a state. */
  ghost predicate Invariant(s: State) {
    Accounted(s.replication) && Mirror(s.hub)
  }

  /** On a master no event comes from a replication thread. */
  predicate Proper(event: Event, role: Role) {
    role.Master? && event.Work? ==> LocalTask(event.t)
  }

  ghost predicate Timely(event: Event) {
    event.Work? ==> ClocksRun(event.env)
  }

  /** One event: revisions detect changes, and stream, Pub/Sub and database stay in order. */
  lemma NextKeeps(s: State, event: Event)
    requires Proper(event, s.replication.role)
    ensures Evolves(s.db, Next(s, event).db)
    ensures Next(s, event).replication.role == s.replication.role
    ensures Invariant(s) ==> Invariant(Next(s, event))
    ensures Timely(event) && DbOk(s.db) ==> DbOk(Next(s, event).db)
  {
    hide Evolves, DbOk, Accounted, Mirror, Extends, Process, RetryAll, ExpireAll, StepSessions, ClocksRun;
    var terms := Terms(Timely(event), s.replication.role.Master?, false);
    ReplicaAccounted(s.replication);
    ReplicaAccounted(Next(s, event).replication);
    match event {
      case Work(t, env) =>
        var processed := Process(s, t, env);
        SettleStep(processed, env, terms);
        if t.RegisterClient? {
          RegisterClientKeeps(s, t.client, env);
        } else {
          ProcessKeeps(s, t, env, terms);
          KeepsTrans(s, processed, Step(s, t, env), terms);
        }
      case Tick(now) => ExpireAllKeeps(s, now, terms);
      case Connection(index, step) =>
        EvolvesRefl(s.db);
        StepRole(s.replication, index, step);
        if Accounted(s.replication) {
          StepSessionsAccounted(s.replication, index, step);
        }
    }
  }

  lemma ReplicaAccounted(r: Replication)
    ensures r.role.Replica? ==> Accounted(r)
  {
  }

  lemma StepRole(r: Replication, i: nat, step: SessionStep)
    ensures StepSessions(r, i, step).role == r.role
  {
  }

  predicate AllProper(events: seq<Event>, role: Role) {
    forall i :: 0 <= i < |events| ==> Proper(events[i], role)
  }

  ghost predicate AllTimely(events: seq<Event>) {
    forall i :: 0 <= i < |events| ==> Timely(events[i])
  }

  /**
   Every reachable state: on a master the offset is the size of the backlog, frames carry their prefix
   sums, sessions follow the backlog and write offsets are frame ends; the Pub/Sub indexes mirror each
   other; and with a running clock the database is well typed and its streams are ordered.
   */
  lemma {:induction false} RunInvariant(s: State, events: seq<Event>)
    requires Invariant(s) && AllProper(events, s.replication.role)
    ensures Invariant(Run(s, events))
    ensures AllTimely(events) && DbOk(s.db) ==> DbOk(Run(s, events).db)
    ensures Evolves(s.db, Run(s, events).db)
    decreases |events|
  {
    hide Invariant, Evolves, DbOk, Next, Proper, Timely;
    if events == [] {
      EvolvesRefl(s.db);
    } else {
      var next := Next(s, events[0]);
      NextKeeps(s, events[0]);
      RunInvariant(next, events[1..]);
      EvolvesTrans(s.db, next.db, Run(next, events[1..]).db);
    }
  }

  lemma InitialInvariant(role: Role, openAccess: bool)
    ensures Invariant(InitialState(role, openAccess))
    ensures DbOk(InitialState(role, openAccess).db)
  {
  }
}
