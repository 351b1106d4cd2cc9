/** A watch stays in force until its client ends it, so WATCH and EXEC can be followed over whole runs. */
module WatchRuns {
  import opened Wrappers
  import opened Decimal
  import opened Resp
  import opened Aof
  import opened Responses
  import opened Keyspace
  import opened Commands
  import opened Channels
  import opened ReplicationStream
  import opened Processor
  import opened Watch

  /** Whatever the client was watching it still watches, at the same revisions. */
  ghost predicate Holds(s: State, t: State, client: ClientId) {
    forall key :: key in WatchedBy(s, client) ==>
      key in WatchedBy(t, client) && WatchedBy(t, client)[key] == WatchedBy(s, client)[key]
  }

  lemma HoldsSame(s: State, t: State, client: ClientId)
    requires t.watched == s.watched || (client !in s.watched && client !in t.watched)
             || (client in s.watched && client in t.watched && t.watched[client] == s.watched[client])
    ensures Holds(s, t, client)
  {
  }

  lemma HoldsTrans(a: State, b: State, c: State, client: ClientId)
    requires Holds(a, b, client) && Holds(b, c, client)
    ensures Holds(a, c, client)
  {
    hide WatchedBy;
  }

  /* ---------- Parts that leave what the server knows about its clients alone ---------- */

  predicate LeavesClients(s: State, t: State) {
    t.watched == s.watched && t.transactions == s.transactions && t.clients == s.clients && t.hub == s.hub
  }

  lemma RecordWatched(s: State, client: ClientId, source: Source, payload: Bytes, env: Env)
    ensures LeavesClients(s, Record(s, client, source, payload, env).state)
  {
    hide AppendClientFrame;
  }

  lemma AttemptWatched(s: State, task: Task, key: Bytes, env: Env)
    ensures LeavesClients(s, AttemptPop(s, task, key, env).state)
  {
    hide Record, SerializeCommand, Settle, Apply, Look, PopOne;
    var settled := Settle(s.db, key, env.now);
    var after := s.(db := Apply(settled, key, PopOne(Look(settled, key)).change));
    RecordWatched(after, task.client, task.source, SerializeCommand(["LPOP", key]), env);
  }

  lemma {:induction false} RetryPopsWatched(s: State, queue: seq<PendingPop>, kept: seq<PendingPop>, env: Env)
    ensures LeavesClients(s, RetryPops(s, queue, kept, env))
    decreases |queue|
  {
    hide AttemptPop;
    if queue != [] {
      var attempt := AttemptPop(s, queue[0].task, queue[0].key, env);
      AttemptWatched(s, queue[0].task, queue[0].key, env);
      RetryPopsWatched(attempt.state, queue[1..], if attempt.served then kept else kept + [queue[0]], env);
    }
  }

  lemma {:induction false} RetryReadsWatched(s: State, queue: seq<PendingRead>, kept: seq<PendingRead>, env: Env)
    ensures LeavesClients(s, RetryReads(s, queue, kept, env))
    decreases |queue|
  {
    hide ReadStreams, XreadResponse;
    if queue != [] {
      var reading := ReadStreams(s.db, queue[0].requests, env.now);
      var after := s.(db := reading.db);
      if reading.results.None? {
        RetryReadsWatched(Answer(after, queue[0].task, WRONGTYPE), queue[1..], kept, env);
      } else if reading.results.value == [] {
        RetryReadsWatched(after, queue[1..], kept + [queue[0].(requests := reading.requests)], env);
      } else {
        RetryReadsWatched(Answer(after, queue[0].task, XreadResponse(reading.results.value)), queue[1..], kept, env);
      }
    }
  }

  lemma {:induction false} RetryWaitsWatched(s: State, queue: seq<PendingWait>, kept: seq<PendingWait>)
    ensures LeavesClients(s, RetryWaits(s, queue, kept))
    decreases |queue|
  {
    hide CountReached, Prune;
    if queue != [] {
      var count := CountReached(s.replication.sessions, s.replication.acknowledged, queue[0].target);
      var pruned := s.(replication := Prune(s.replication));
      RetryWaitsWatched(pruned, queue[1..], kept + [queue[0]]);
      RetryWaitsWatched(Answer(pruned, queue[0].task, Integer(count)), queue[1..], kept);
    }
  }

  lemma {:induction false} ExpirePopsWatched(s: State, queue: seq<PendingPop>, kept: seq<PendingPop>, now: nat)
    ensures LeavesClients(s, ExpirePops(s, queue, kept, now))
    decreases |queue|
  {
    if queue != [] {
      ExpirePopsWatched(s, queue[1..], kept + [queue[0]], now);
      ExpirePopsWatched(Answer(s, queue[0].task, NullArray), queue[1..], kept, now);
    }
  }

  lemma {:induction false} ExpireReadsWatched(s: State, queue: seq<PendingRead>, kept: seq<PendingRead>, now: nat)
    ensures LeavesClients(s, ExpireReads(s, queue, kept, now))
    decreases |queue|
  {
    if queue != [] {
      ExpireReadsWatched(s, queue[1..], kept + [queue[0]], now);
      ExpireReadsWatched(Answer(s, queue[0].task, NullArray), queue[1..], kept, now);
    }
  }

  lemma {:induction false} ExpireWaitsWatched(s: State, queue: seq<PendingWait>, kept: seq<PendingWait>, now: nat)
    ensures LeavesClients(s, ExpireWaits(s, queue, kept, now))
    decreases |queue|
  {
    hide CountReached, Prune;
    if queue != [] {
      var count := CountReached(s.replication.sessions, s.replication.acknowledged, queue[0].target);
      ExpireWaitsWatched(s, queue[1..], kept + [queue[0]], now);
      ExpireWaitsWatched(Answer(s.(replication := Prune(s.replication)), queue[0].task, Integer(count)), queue[1..], kept, now);
    }
  }

  lemma {:induction false} CancelPopsWatched(s: State, queue: seq<PendingPop>, kept: seq<PendingPop>, client: ClientId)
    ensures LeavesClients(s, CancelPops(s, queue, kept, client))
    decreases |queue|
  {
    if queue != [] {
      CancelPopsWatched(s, queue[1..], kept + [queue[0]], client);
      CancelPopsWatched(Answer(s, queue[0].task, NoResponse), queue[1..], kept, client);
    }
  }

  lemma {:induction false} CancelReadsWatched(s: State, queue: seq<PendingRead>, kept: seq<PendingRead>, client: ClientId)
    ensures LeavesClients(s, CancelReads(s, queue, kept, client))
    decreases |queue|
  {
    if queue != [] {
      CancelReadsWatched(s, queue[1..], kept + [queue[0]], client);
      CancelReadsWatched(Answer(s, queue[0].task, NoResponse), queue[1..], kept, client);
    }
  }

  lemma {:induction false} CancelWaitsWatched(s: State, queue: seq<PendingWait>, kept: seq<PendingWait>, client: ClientId)
    ensures LeavesClients(s, CancelWaits(s, queue, kept, client))
    decreases |queue|
  {
    if queue != [] {
      CancelWaitsWatched(s, queue[1..], kept + [queue[0]], client);
      CancelWaitsWatched(Answer(s, queue[0].task, NoResponse), queue[1..], kept, client);
    }
  }

  lemma ExpireAllWatched(s: State, now: nat)
    ensures LeavesClients(s, ExpireAll(s, now))
  {
    hide ExpirePops, ExpireReads, ExpireWaits;
    var a := ExpirePops(s, s.pendingPops, [], now);
    var b := ExpireReads(a, a.pendingReads, [], now);
    ExpirePopsWatched(s, s.pendingPops, [], now);
    ExpireReadsWatched(a, a.pendingReads, [], now);
    ExpireWaitsWatched(b, b.pendingWaits, [], now);
  }

  lemma TurnEndWatched(s: State, env: Env)
    ensures LeavesClients(s, ExpireAll(RetryAll(s, env), env.now))
  {
    hide RetryPops, RetryReads, RetryWaits, ExpireAll;
    var a := RetryPops(s, s.pendingPops, [], env);
    var b := RetryReads(a, a.pendingReads, [], env);
    RetryPopsWatched(s, s.pendingPops, [], env);
    RetryReadsWatched(a, a.pendingReads, [], env);
    RetryWaitsWatched(b, b.pendingWaits, []);
    ExpireAllWatched(RetryAll(s, env), env.now);
  }

  /* ---------- Commands ---------- */

  /** The commands with which a client ends its watches. */
  predicate EndsWatch(verb: Verb) {
    verb.Exec? || verb.Discard? || verb.Unwatch?
  }

  lemma ExecuteEnds(s: State, client: ClientId, source: Source, env: Env)
    requires client in s.transactions
    ensures var t := ExecuteTransaction(s, client, source, env).state;
            && t.watched == s.watched - {client} && t.transactions == s.transactions - {client}
            && t.clients == s.clients && t.hub == s.hub
  {
    hide RunQueue, CheckWatched, SerializeAll, Bracketed, Record;
    var checked := CheckWatched(s.db, WatchedBy(s, client), env.watchOrder, env.now);
    var ran := RunQueue(checked.db, s.transactions[client].commands, 0, env);
    var after := s.(db := ran.db, transactions := s.transactions - {client}, watched := s.watched - {client});
    RecordWatched(after, client, source, SerializeAll(Bracketed(ran.logged)), env);
  }

  lemma ExecuteWatched(s: State, client: ClientId, source: Source, env: Env)
    ensures ExecuteTransaction(s, client, source, env).state.watched in {s.watched, s.watched - {client}}
  {
    if client in s.transactions {
      hide ExecuteTransaction;
      ExecuteEnds(s, client, source, env);
    }
  }

  lemma WatchHolds(s: State, actor: ClientId, command: Command, env: Env, client: ClientId)
    ensures Holds(s, DoWatch(s, actor, command, env).state, client)
  {
    hide WatchKeys;
    var t := DoWatch(s, actor, command, env).state;
    if actor == client && t != s {
      forall key | key in WatchedBy(s, client)
        ensures key in WatchedBy(t, client) && WatchedBy(t, client)[key] == WatchedBy(s, client)[key]
      {
        WatchKeepsFirst(s.db, WatchedBy(s, client), command[1..], env.now, key);
      }
    }
  }

  /** Commands other than WATCH and those that end it leave the watches alone. */
  lemma CommandWatched(s: State, actor: ClientId, command: Command, source: Source, env: Env)
    requires !EndsWatch(VerbOf(command)) && !VerbOf(command).Watch?
    ensures ProcessCommand(s, actor, command, source, env).state.watched == s.watched
  {
    hide VerbOf, ExecuteTransaction, JoinAll, LeaveAll, Forget, DropFrom, DoWatch, Dispatch;
  }

  /** A command that removes watches removes those of its client only. */
  lemma EndingWatched(s: State, actor: ClientId, command: Command, source: Source, env: Env)
    requires EndsWatch(VerbOf(command))
    ensures ProcessCommand(s, actor, command, source, env).state.watched in {s.watched, s.watched - {actor}}
  {
    hide VerbOf, ExecuteTransaction, DoSubscribe, DoUnsubscribe, DoPublish, DoWatch, QueueOrRun;
    ExecuteWatched(s, actor, source, env);
  }

  lemma CommandHolds(s: State, actor: ClientId, command: Command, source: Source, env: Env, client: ClientId)
    requires actor != client || !EndsWatch(VerbOf(command))
    ensures Holds(s, ProcessCommand(s, actor, command, source, env).state, client)
  {
    hide VerbOf, ProcessCommand, Holds, DoWatch;
    if VerbOf(command).Watch? {
      WatchCommand(s, actor, command, source, env);
      WatchHolds(s, actor, command, env, client);
    } else if EndsWatch(VerbOf(command)) {
      EndingWatched(s, actor, command, source, env);
      HoldsSame(s, ProcessCommand(s, actor, command, source, env).state, client);
    } else {
      CommandWatched(s, actor, command, source, env);
      HoldsSame(s, ProcessCommand(s, actor, command, source, env).state, client);
    }
  }

  lemma WatchCommand(s: State, actor: ClientId, command: Command, source: Source, env: Env)
    requires VerbOf(command).Watch?
    ensures ProcessCommand(s, actor, command, source, env).state == DoWatch(s, actor, command, env).state
  {
    hide VerbNamed, ExecuteTransaction, DoSubscribe, DoUnsubscribe, DoPublish, DoWatch, QueueOrRun;
  }

  lemma ConcludeWatched(s: State, task: Task, succeeded: bool, response: Response, env: Env)
    ensures var t := Conclude(s, task, succeeded, response, env); t.watched == s.watched && t.transactions == s.transactions
  {
  }

  lemma DirectHolds(s: State, task: Task, env: Env, client: ClientId)
    requires task.client != client || !EndsWatch(VerbOf(task.command))
    ensures Holds(s, ProcessDirect(s, task, env), client)
  {
    hide VerbOf, Holds, ProcessCommand, Record, Conclude, IsWrite, Modified, Normalize, SerializeCommand;
    var processed := ProcessCommand(s, task.client, task.command, task.source, env);
    CommandHolds(s, task.client, task.command, task.source, env, client);
    var payload := SerializeCommand(Normalize(task.command, processed.response));
    RecordWatched(processed.state, task.client, task.source, payload, env);
    var recorded := Record(processed.state, task.client, task.source, payload, env);
    var succeeded := !processed.response.SimpleError?;
    ConcludeWatched(recorded.state, task, succeeded, if recorded.ok then processed.response else MISCONF, env);
    ConcludeWatched(processed.state, task, succeeded, processed.response, env);
    HoldsSame(processed.state, ProcessDirect(s, task, env), client);
    HoldsTrans(s, processed.state, ProcessDirect(s, task, env), client);
  }

  lemma BlpopWatched(s: State, task: Task, env: Env)
    ensures LeavesClients(s, ProcessBlpop(s, task, env))
  {
    hide AttemptPop;
    if |task.command| == 3 {
      AttemptWatched(s, task, task.command[1], env);
    }
  }

  lemma XreadWatched(s: State, task: Task, env: Env)
    ensures LeavesClients(s, ProcessXread(s, task, env))
  {
    hide ReadStreams, XreadResponse, ParseXread;
  }

  lemma WaitWatched(s: State, task: Task, env: Env)
    ensures LeavesClients(s, ProcessWait(s, task, env))
  {
    hide ParseWait, CountReached, Prune, AppendFrame, SerializeCommand;
  }

  lemma BlockingWatched(s: State, task: Task, env: Env)
    ensures LeavesClients(s, ProcessBlpop(s, task, env))
    ensures LeavesClients(s, ProcessXread(s, task, env))
    ensures LeavesClients(s, ProcessWait(s, task, env))
  {
    hide ProcessBlpop, ProcessXread, ProcessWait;
    BlpopWatched(s, task, env);
    XreadWatched(s, task, env);
    WaitWatched(s, task, env);
  }

  lemma RefusedWatched(s: State, task: Task, response: Response, env: Env)
    ensures Refuse(s, task, response, env).watched == s.watched
    ensures RefuseWrite(s, task).watched == s.watched
  {
  }

  lemma TaskHolds(s: State, task: Task, env: Env, client: ClientId)
    requires task.client != client || !EndsWatch(VerbOf(task.command))
    ensures Holds(s, ProcessTask(s, task, env), client)
  {
    hide VerbOf, Holds, IsWrite, Refuse, RefuseWrite, ProcessDirect, ProcessBlpop, ProcessXread, ProcessWait;
    DirectHolds(s, task, env, client);
    BlockingWatched(s, task, env);
    RefusedWatched(s, task, NOAUTH, env);
    RefusedWatched(s, task, ERR, env);
    var t := ProcessTask(s, task, env);
    if t != ProcessDirect(s, task, env) {
      HoldsSame(s, t, client);
    }
  }

  /* ---------- Whole runs ---------- */

  /** An event in which the client does not end its watches; the file is not replayed once clients are there. */
  predicate LeavesWatch(event: Event, client: ClientId) {
    event.Work? ==>
      && event.t != UnregisterClient(client) && !event.t.InitializeAof?
      && (event.t.CommandTask? && event.t.task.client == client ==> !EndsWatch(VerbOf(event.t.task.command)))
  }

  predicate AllLeaveWatch(events: seq<Event>, client: ClientId) {
    forall i :: 0 <= i < |events| ==> LeavesWatch(events[i], client)
  }

  lemma UnregisterHolds(s: State, other: ClientId, client: ClientId)
    requires other != client
    ensures Holds(s, ProcessUnregister(s, other), client)
  {
    hide CancelPops, CancelReads, CancelWaits, Forget;
    var a := CancelPops(s, s.pendingPops, [], other);
    var b := CancelReads(a, s.pendingReads, [], other);
    CancelPopsWatched(s, s.pendingPops, [], other);
    CancelReadsWatched(a, s.pendingReads, [], other);
    CancelWaitsWatched(b, s.pendingWaits, [], other);
  }

  lemma ProcessHolds(s: State, t: ProcessorTask, env: Env, client: ClientId)
    requires LeavesWatch(Work(t, env), client)
    ensures Holds(s, Process(s, t, env), client)
  {
    hide VerbOf, Holds, ProcessTask, LoadEntries, ProcessAof, ProcessUnregister;
    match t {
      case CommandTask(task) => TaskHolds(s, task, env, client);
      case UnregisterClient(other) => UnregisterHolds(s, other, client);
      case RegisterReplica(_) => HoldsSame(s, Process(s, t, env), client);
      case InstallReplicationState(_) => HoldsSame(s, Process(s, t, env), client);
      case GetReplicationOffset => HoldsSame(s, s, client);
      case AcknowledgeReplica(_, _) => HoldsSame(s, Process(s, t, env), client);
      case LoadRdb(_, _) => HoldsSame(s, Process(s, t, env), client);
      case RegisterClient(_) => HoldsSame(s, Process(s, t, env), client);
    }
  }

  lemma NextHolds(s: State, event: Event, client: ClientId)
    requires LeavesWatch(event, client)
    ensures Holds(s, Next(s, event), client)
  {
    hide Holds, Process, RetryAll, ExpireAll, StepSessions, VerbOf;
    match event {
      case Work(t, env) =>
        var processed := Process(s, t, env);
        ProcessHolds(s, t, env, client);
        TurnEndWatched(processed, env);
        HoldsSame(processed, Step(s, t, env), client);
        HoldsTrans(s, processed, Step(s, t, env), client);
      case Tick(now) =>
        ExpireAllWatched(s, now);
        HoldsSame(s, ExpireAll(s, now), client);
      case Connection(_, _) => HoldsSame(s, Next(s, event), client);
    }
  }

  /** A watch stays in force over every run in which its client does not end it. */
  lemma {:induction false} RunHolds(s: State, events: seq<Event>, client: ClientId)
    requires AllLeaveWatch(events, client)
    ensures Holds(s, Run(s, events), client)
    decreases |events|
  {
    hide Holds, LeavesWatch, Next;
    if events == [] {
      HoldsSame(s, s, client);
    } else {
      NextHolds(s, events[0], client);
      RunHolds(Next(s, events[0]), events[1..], client);
      HoldsTrans(s, Next(s, events[0]), Run(s, events), client);
    }
  }

  /* ---------- Ending the watches ---------- */

  /** A client ends what it has begun: EXEC and DISCARD a transaction, UNWATCH its watches. */
  predicate EndTask(s: State, task: Task) {
    && EndsWatch(VerbOf(task.command))
    && (if VerbOf(task.command).Unwatch? then |task.command| == 1 else task.client in s.transactions)
    && (task.source.FromClient? ==> Authenticated(s, task.client) && task.client !in s.hub.subscriptions)
  }

  lemma EndingCommand(s: State, actor: ClientId, command: Command, source: Source, env: Env)
    requires EndsWatch(VerbOf(command))
    requires if VerbOf(command).Unwatch? then |command| == 1 else actor in s.transactions
    ensures var t := ProcessCommand(s, actor, command, source, env).state;
            && t.watched == s.watched - {actor}
            && t.transactions == if VerbOf(command).Unwatch? then s.transactions else s.transactions - {actor}
  {
    hide VerbNamed, ExecuteTransaction, DoSubscribe, DoUnsubscribe, DoPublish, DoWatch, QueueOrRun;
    if VerbOf(command).Exec? {
      ExecuteEnds(s, actor, source, env);
    }
  }

  /** Afterwards the client watches nothing, and the transaction is closed; nobody else loses anything. */
  lemma WatchesEnd(s: State, task: Task, env: Env)
    requires EndTask(s, task)
    ensures var t := Step(s, CommandTask(task), env);
            && WatchedBy(t, task.client) == map[]
            && (!VerbOf(task.command).Unwatch? ==> task.client !in t.transactions)
            && (forall other :: other != task.client ==> WatchedBy(t, other) == WatchedBy(s, other))
  {
    hide VerbNamed, RetryAll, ExpireAll, ProcessCommand, Record, SerializeCommand, Normalize, Conclude,
         LoadEntries, ProcessAof, ProcessUnregister, ProcessBlpop, ProcessXread, ProcessWait, Refuse, RefuseWrite;
    EndingCommand(s, task.client, task.command, task.source, env);
    var processed := ProcessCommand(s, task.client, task.command, task.source, env);
    ConcludeWatched(processed.state, task, !processed.response.SimpleError?, processed.response, env);
    TurnEndWatched(Process(s, CommandTask(task), env), env);
  }

  /* ---------- WATCH ... EXEC ---------- */

  /** The watches after the turn in which a client issues WATCH. */
  lemma WatchTaskWatches(s: State, task: Task, env: Env)
    requires WatchTask(s, task)
    ensures Step(s, CommandTask(task), env).watched == DoWatch(s, task.client, task.command, env).state.watched
  {
    hide VerbNamed, DoWatch, RetryAll, ExpireAll, ProcessCommand, Record, SerializeCommand, Normalize, Conclude,
         LoadEntries, ProcessAof, ProcessUnregister, ProcessBlpop, ProcessXread, ProcessWait, Refuse, RefuseWrite;
    WatchCommand(s, task.client, task.command, task.source, env);
    var processed := ProcessCommand(s, task.client, task.command, task.source, env);
    ConcludeWatched(processed.state, task, !processed.response.SimpleError?, processed.response, env);
    TurnEndWatched(Process(s, CommandTask(task), env), env);
  }

  /**
   WATCH and EXEC, over every run: a client watches a key, anything happens except that this client ends its
   watches, and then it calls EXEC on a transaction without queueing errors. Unless EXEC answers with the null
   array, the client sees under the key exactly what it saw when it watched it.
   */
  lemma ExecSeesWhatWasWatched(s: State, task: Task, env: Env, events: seq<Event>, source: Source, execEnv: Env, key: Bytes)
    requires RevisionsBelow(s.db) && WatchTask(s, task)
    requires key in task.command[1..] && key !in WatchedBy(s, task.client)
    requires AllLeaveWatch(events, task.client)
    requires var later := Run(Step(s, CommandTask(task), env), events);
             && task.client in later.transactions && !later.transactions[task.client].hasError
             && Covers(execEnv.watchOrder, WatchedBy(later, task.client))
             && ExecuteTransaction(later, task.client, source, execEnv).response != NullArray
    ensures var later := Run(Step(s, CommandTask(task), env), events);
            Visible(later.db, key, execEnv.now) == Visible(s.db, key, env.now)
  {
    hide RevisionsBelow, Visible, Step, Run, DoWatch, CheckWatched, WatchTask, ExecuteTransaction, AllLeaveWatch,
         Covers;
    var client := task.client;
    var watching := DoWatch(s, client, task.command, env).state;
    var stepped := Step(s, CommandTask(task), env);
    var later := Run(stepped, events);
    WatchTaskArguments(s, task);
    WatchSees(s, client, task.command, env, key);
    WatchTaskWatches(s, task, env);
    assert WatchedBy(stepped, client) == WatchedBy(watching, client);
    RunHolds(stepped, events, client);
    AbortMeansChanged(later, client, source, execEnv);
    WatchedKeyUnchanged(s, task, env, events, execEnv, key);
  }
}
