/** MULTI ... EXEC: what is queued is what the client sent, and EXEC answers command by command. */
module Transactions {
  import opened Wrappers
  import opened Resp
  import opened Aof
  import opened Responses
  import opened Keyspace
  import opened Commands
  import opened Channels
  import opened ReplicationStream
  import opened Processor
  import opened Ledger
  import opened Blocking
  import opened WatchRuns
  import opened Outcomes
  import opened PopOutcomes

  /* ---------- The replies of EXEC ---------- */

  /** The database that the k-th command of a queue finds; `first` is the number of the first command. */
  function DbBefore(db: Db, commands: seq<Command>, first: nat, env: Env, k: nat): Db
    requires k <= |commands|
  {
    if k == 0 then db
    else Dispatch(DbBefore(db, commands, first, env, k - 1), commands[k - 1], env.context(first + k - 1)).db
  }

  lemma {:induction false} DbBeforeShifted(db: Db, commands: seq<Command>, first: nat, env: Env, k: nat)
    requires commands != [] && k <= |commands| - 1
    ensures DbBefore(Dispatch(db, commands[0], env.context(first)).db, commands[1..], first + 1, env, k) ==
            DbBefore(db, commands, first, env, k + 1)
    decreases k
  {
    hide Dispatch;
    if k > 0 {
      DbBeforeShifted(db, commands, first, env, k - 1);
      assert commands[1..][k - 1] == commands[k];
    }
  }

  /** The k-th response is that of the k-th command on the database the first k commands left. */
  ghost predicate AnswersInOrder(responses: seq<Response>, db: Db, commands: seq<Command>, first: nat, env: Env) {
    && |responses| == |commands|
    && forall k :: 0 <= k < |commands| ==>
         responses[k] == Dispatch(DbBefore(db, commands, first, env, k), commands[k], env.context(first + k)).response
  }

  lemma {:induction false} QueueAnswers(db: Db, commands: seq<Command>, first: nat, env: Env)
    ensures var ran := RunQueue(db, commands, first, env);
            && AnswersInOrder(ran.responses, db, commands, first, env)
            && ran.db == DbBefore(db, commands, first, env, |commands|)
    decreases |commands|
  {
    hide Dispatch, IsWrite, Modified, Normalize, DbBefore;
    if commands == [] {
      NothingRun(db, first, env);
    } else {
      var after := Dispatch(db, commands[0], env.context(first)).db;
      QueueAnswers(after, commands[1..], first + 1, env);
      DbBeforeShifted(db, commands, first, env, |commands| - 1);
      NothingBefore(db, commands, first, env);
      var ran, rest := RunQueue(db, commands, first, env), RunQueue(after, commands[1..], first + 1, env);
      forall k | 0 <= k < |commands|
        ensures ran.responses[k] == Dispatch(DbBefore(db, commands, first, env, k), commands[k], env.context(first + k)).response
      {
        if k > 0 {
          DbBeforeShifted(db, commands, first, env, k - 1);
          assert ran.responses[k] == rest.responses[k - 1] && commands[k] == commands[1..][k - 1];
        }
      }
    }
  }

  lemma NothingRun(db: Db, first: nat, env: Env)
    ensures DbBefore(db, [], first, env, 0) == db
  {
  }

  lemma NothingBefore(db: Db, commands: seq<Command>, first: nat, env: Env)
    ensures DbBefore(db, commands, first, env, 0) == db
  {
  }

  /** What EXEC answers when it is not aborted: every command its own response, in order, unless recording fails. */
  lemma ExecAnswers(s: State, client: ClientId, source: Source, env: Env)
    requires client in s.transactions && !s.transactions[client].hasError
    requires !CheckWatched(s.db, WatchedBy(s, client), env.watchOrder, env.now).changed
    ensures var commands := s.transactions[client].commands;
            var db := CheckWatched(s.db, WatchedBy(s, client), env.watchOrder, env.now).db;
            var processed := ExecuteTransaction(s, client, source, env);
            && processed.state.db == DbBefore(db, commands, 0, env, |commands|)
            && if commands == [] then processed.response == EmptyArray
               else || (processed.response == MISCONF && AppendFails(env))
                    || (processed.response.ResponseArray? && AnswersInOrder(processed.response.responses, db, commands, 0, env))
  {
    hide CheckWatched, RunQueue, AnswersInOrder, DbBefore, Record, SerializeAll, AppendFails;
    var commands := s.transactions[client].commands;
    var db := CheckWatched(s.db, WatchedBy(s, client), env.watchOrder, env.now).db;
    QueueAnswers(db, commands, 0, env);
    NothingBefore(db, commands, 0, env);
    if commands != [] {
      var ran := RunQueue(db, commands, 0, env);
      var ended := s.(db := ran.db, transactions := s.transactions - {client}, watched := s.watched - {client});
      var payload := SerializeAll(Bracketed(ran.logged));
      RecordDb(ended, client, source, payload, env);
      if !Record(ended, client, source, payload, env).ok {
        RecordFails(ended, client, source, payload, env);
      }
    }
  }

  /* ---------- The queue ---------- */

  /** A command that its client's transaction queues. */
  predicate IsQueued(s: State, task: Task) {
    && task.command != [] && !ImmediateVerb(VerbOf(task.command))
    && (task.source.FromClient? ==> Authenticated(s, task.client) && task.client !in s.hub.subscriptions)
    && !(s.replication.role.Replica? && task.source.FromClient? && IsWrite(task.command))
    && !(VerbOf(task.command).Ping? && task.client in s.hub.subscriptions)
  }

  /** A write that a replica refuses marks the transaction. */
  predicate IsMarked(s: State, task: Task) {
    && task.source.FromClient? && Authenticated(s, task.client) && task.client !in s.hub.subscriptions
    && s.replication.role.Replica? && IsWrite(task.command)
  }

  function TaskOfEvent(event: Event, client: ClientId): Option<Task> {
    if event.Work? && event.t.CommandTask? && event.t.task.client == client then Some(event.t.task) else None
  }

  /** What an event adds to the queue of a client in a transaction. */
  function QueuedBy(s: State, event: Event, client: ClientId): seq<Command> {
    var task := TaskOfEvent(event, client);
    if task.Some? && IsQueued(s, task.value) then [task.value.command] else []
  }

  predicate MarkedBy(s: State, event: Event, client: ClientId) {
    var task := TaskOfEvent(event, client);
    task.Some? && IsMarked(s, task.value)
  }

  /** The commands that a client's transaction queues over a run, in the order in which they were taken. */
  function QueuedIn(s: State, events: seq<Event>, client: ClientId): seq<Command>
    decreases |events|
  {
    if events == [] then []
    else QueuedBy(s, events[0], client) + QueuedIn(Next(s, events[0]), events[1..], client)
  }

  predicate MarkedIn(s: State, events: seq<Event>, client: ClientId)
    decreases |events|
  {
    events != [] && (MarkedBy(s, events[0], client) || MarkedIn(Next(s, events[0]), events[1..], client))
  }

  /** An event in which the client does not end its transaction. */
  predicate LeavesOpen(event: Event, client: ClientId) {
    event.Work? ==>
      && event.t != UnregisterClient(client) && !event.t.InitializeAof?
      && (event.t.CommandTask? && event.t.task.client == client ==>
            !VerbOf(event.t.task.command).Exec? && !VerbOf(event.t.task.command).Discard?)
  }

  predicate AllLeaveOpen(events: seq<Event>, client: ClientId) {
    forall i :: 0 <= i < |events| ==> LeavesOpen(events[i], client)
  }

  /** The transaction of the client goes on with these commands behind the others. */
  predicate Grown(s: State, t: State, client: ClientId, more: seq<Command>, marked: bool) {
    && client in s.transactions && client in t.transactions
    && t.transactions[client].commands == s.transactions[client].commands + more
    && t.transactions[client].hasError == (s.transactions[client].hasError || marked)
  }

  lemma GrownSame(s: State, t: State, client: ClientId)
    requires client in s.transactions && client in t.transactions && t.transactions[client] == s.transactions[client]
    ensures Grown(s, t, client, [], false)
  {
  }

  lemma GrownTrans(a: State, b: State, c: State, client: ClientId, x: seq<Command>, y: seq<Command>, m: bool, n: bool)
    requires Grown(a, b, client, x, m) && Grown(b, c, client, y, n)
    ensures Grown(a, c, client, x + y, m || n)
  {
    assert a.transactions[client].commands + x + y == a.transactions[client].commands + (x + y);
  }

  /* ---------- Commands of others ---------- */

  lemma ExecuteOthers(s: State, actor: ClientId, source: Source, env: Env)
    ensures ExecuteTransaction(s, actor, source, env).state.transactions in {s.transactions, s.transactions - {actor}}
  {
    hide RunQueue, CheckWatched, SerializeAll, Bracketed, Record;
    if actor in s.transactions {
      var checked := CheckWatched(s.db, WatchedBy(s, actor), env.watchOrder, env.now);
      var ran := RunQueue(checked.db, s.transactions[actor].commands, 0, env);
      var after := s.(db := ran.db, transactions := s.transactions - {actor}, watched := s.watched - {actor});
      RecordWatched(after, actor, source, SerializeAll(Bracketed(ran.logged)), env);
    }
  }

  predicate SameTransaction(s: State, t: State, client: ClientId) {
    (client in s.transactions <==> client in t.transactions)
    && (client in s.transactions ==> t.transactions[client] == s.transactions[client])
  }

  lemma ImmediateOthers(s: State, actor: ClientId, command: Command, source: Source, env: Env, client: ClientId)
    requires actor != client && command != []
    ensures SameTransaction(s, ProcessImmediate(s, actor, command, source, env).state, client)
  {
    hide VerbOf, ExecuteTransaction, DoSubscribe, DoUnsubscribe, DoPublish, DoWatch, DoAuth, ProcessAdministrative;
    if VerbOf(command).Exec? {
      ExecuteOthers(s, actor, source, env);
    } else if !VerbOf(command).Multi? && !VerbOf(command).Discard? {
      PlainImmediate(s, actor, command, env);
    }
  }

  lemma PlainImmediate(s: State, actor: ClientId, command: Command, env: Env)
    requires command != []
    ensures DoSubscribe(s, actor, command, env).state.transactions == s.transactions
    ensures DoUnsubscribe(s, actor, command, env).state.transactions == s.transactions
    ensures DoPublish(s, command, env).state.transactions == s.transactions
    ensures DoWatch(s, actor, command, env).state.transactions == s.transactions
    ensures DoAuth(s, actor, env).state.transactions == s.transactions
    ensures ProcessAdministrative(s, actor, command, env).state.transactions == s.transactions
  {
    hide VerbOf, WatchKeys, JoinAll, LeaveAll, Forget, DropFrom;
  }

  lemma CommandOthers(s: State, actor: ClientId, command: Command, source: Source, env: Env, client: ClientId)
    requires actor != client
    ensures SameTransaction(s, ProcessCommand(s, actor, command, source, env).state, client)
  {
    hide VerbOf, ProcessImmediate, Dispatch;
    if command != [] {
      ImmediateOthers(s, actor, command, source, env, client);
    }
  }

  lemma DirectOthers(s: State, task: Task, env: Env, client: ClientId)
    requires task.client != client
    ensures SameTransaction(s, ProcessDirect(s, task, env), client)
  {
    hide VerbOf, ProcessCommand, Record, Conclude, IsWrite, Modified, Normalize, SerializeCommand;
    var processed := ProcessCommand(s, task.client, task.command, task.source, env);
    CommandOthers(s, task.client, task.command, task.source, env, client);
    var payload := SerializeCommand(Normalize(task.command, processed.response));
    var recorded := Record(processed.state, task.client, task.source, payload, env);
    RecordWatched(processed.state, task.client, task.source, payload, env);
    var succeeded := !processed.response.SimpleError?;
    ConcludeWatched(recorded.state, task, succeeded, if recorded.ok then processed.response else MISCONF, env);
    ConcludeWatched(processed.state, task, succeeded, processed.response, env);
  }

  lemma RefuseLeavesClients(s: State, task: Task, response: Response, env: Env)
    ensures var t := Refuse(s, task, response, env); t.watched == s.watched && t.transactions == s.transactions
  {
  }

  lemma TaskOthers(s: State, task: Task, env: Env, client: ClientId)
    requires task.client != client
    ensures SameTransaction(s, ProcessTask(s, task, env), client)
  {
    hide VerbOf, IsWrite, Refuse, ProcessDirect, ProcessBlpop, ProcessXread, ProcessWait;
    DirectOthers(s, task, env, client);
    BlockingWatched(s, task, env);
    RefuseLeavesClients(s, task, NOAUTH, env);
    RefuseLeavesClients(s, task, ERR, env);
  }

  /* ---------- Commands of the client itself ---------- */

  /** Inside a transaction a command other than EXEC and DISCARD is queued, or handled at once, and nothing is recorded. */
  lemma CommandOwn(s: State, task: Task, env: Env)
    requires task.client in s.transactions && !VerbOf(task.command).Exec? && !VerbOf(task.command).Discard?
    ensures var t := ProcessCommand(s, task.client, task.command, task.source, env).state;
            var queued := task.command != [] && !ImmediateVerb(VerbOf(task.command))
                          && !(VerbOf(task.command).Ping? && task.client in s.hub.subscriptions);
            Grown(s, t, task.client, if queued then [task.command] else [], false)
  {
    hide VerbOf, ExecuteTransaction, WatchKeys, JoinAll, LeaveAll, Forget, DropFrom, Dispatch;
  }

  lemma DirectOwn(s: State, task: Task, env: Env)
    requires task.client in s.transactions && !VerbOf(task.command).Exec? && !VerbOf(task.command).Discard?
    ensures var queued := task.command != [] && !ImmediateVerb(VerbOf(task.command))
                          && !(VerbOf(task.command).Ping? && task.client in s.hub.subscriptions);
            Grown(s, ProcessDirect(s, task, env), task.client, if queued then [task.command] else [], false)
  {
    hide VerbOf, ProcessCommand, Conclude, IsWrite, Modified, Normalize, SerializeCommand, ImmediateVerb;
    var processed := ProcessCommand(s, task.client, task.command, task.source, env);
    CommandOwn(s, task, env);
    ConcludeWatched(processed.state, task, !processed.response.SimpleError?, processed.response, env);
  }

  lemma TaskOwn(s: State, task: Task, env: Env)
    requires task.client in s.transactions && !VerbOf(task.command).Exec? && !VerbOf(task.command).Discard?
    ensures Grown(s, ProcessTask(s, task, env), task.client,
                  if IsQueued(s, task) then [task.command] else [], IsMarked(s, task))
  {
    assert VerbOf(task.command).Auth? ==> !IsWrite(task.command);
    hide VerbOf, IsWrite, Refuse, ProcessDirect, ProcessBlpop, ProcessXread, ProcessWait, LeavesClients;
    DirectOwn(s, task, env);
    RefusedOwn(s, task, NOAUTH, env);
    RefusedOwn(s, task, ERR, env);
    assert s.transactions[task.client].commands + [] == s.transactions[task.client].commands;
  }

  lemma RefusedOwn(s: State, task: Task, response: Response, env: Env)
    requires task.client in s.transactions
    ensures Grown(s, Refuse(s, task, response, env), task.client, [], false)
  {
  }

  /* ---------- Events and runs ---------- */

  lemma UnregisterOthers(s: State, other: ClientId, client: ClientId)
    requires other != client
    ensures SameTransaction(s, ProcessUnregister(s, other), client)
  {
    hide CancelPops, CancelReads, CancelWaits, Forget, Unregister;
    var a := CancelPops(s, s.pendingPops, [], other);
    var b := CancelReads(a, s.pendingReads, [], other);
    CancelPopsWatched(s, s.pendingPops, [], other);
    CancelReadsWatched(a, s.pendingReads, [], other);
    CancelWaitsWatched(b, s.pendingWaits, [], other);
  }

  lemma ProcessGrown(s: State, t: ProcessorTask, env: Env, client: ClientId)
    requires client in s.transactions && LeavesOpen(Work(t, env), client)
    ensures Grown(s, Process(s, t, env), client, QueuedBy(s, Work(t, env), client), MarkedBy(s, Work(t, env), client))
  {
    hide VerbOf, Grown, ProcessTask, LoadEntries, ProcessAof, ProcessUnregister, IsQueued, IsMarked;
    match t {
      case CommandTask(task) =>
        if task.client == client {
          TaskOwn(s, task, env);
        } else {
          TaskOthers(s, task, env, client);
          GrownSame(s, ProcessTask(s, task, env), client);
        }
      case UnregisterClient(other) =>
        UnregisterOthers(s, other, client);
        GrownSame(s, ProcessUnregister(s, other), client);
      case RegisterReplica(_) => GrownSame(s, Process(s, t, env), client);
      case InstallReplicationState(_) => GrownSame(s, Process(s, t, env), client);
      case GetReplicationOffset => GrownSame(s, s, client);
      case AcknowledgeReplica(_, _) => GrownSame(s, Process(s, t, env), client);
      case LoadRdb(_, _) => GrownSame(s, Process(s, t, env), client);
      case RegisterClient(_) => GrownSame(s, Process(s, t, env), client);
    }
  }

  lemma NextGrown(s: State, event: Event, client: ClientId)
    requires client in s.transactions && LeavesOpen(event, client)
    ensures Grown(s, Next(s, event), client, QueuedBy(s, event, client), MarkedBy(s, event, client))
  {
    match event {
      case Work(t, env) =>
        hide VerbOf, Process, RetryAll, ExpireAll, QueuedBy, MarkedBy;
        ProcessGrown(s, t, env, client);
        TurnEndWatched(Process(s, t, env), env);
      case Tick(now) =>
        hide Grown, ExpireAll;
        ExpireAllWatched(s, now);
        GrownSame(s, ExpireAll(s, now), client);
      case Connection(_, _) =>
        hide Grown, StepSessions;
        GrownSame(s, Next(s, event), client);
    }
  }

  /** Over every run that leaves it open, a transaction queues exactly what its client sent, in order. */
  lemma {:induction false} RunGrown(s: State, events: seq<Event>, client: ClientId)
    requires client in s.transactions && AllLeaveOpen(events, client)
    ensures Grown(s, Run(s, events), client, QueuedIn(s, events, client), MarkedIn(s, events, client))
    decreases |events|
  {
    hide Grown, Next, LeavesOpen, QueuedBy, MarkedBy;
    if events == [] {
      GrownSame(s, s, client);
    } else {
      NextGrown(s, events[0], client);
      GrownOpen(s, Next(s, events[0]), client, QueuedBy(s, events[0], client), MarkedBy(s, events[0], client));
      RunGrown(Next(s, events[0]), events[1..], client);
      GrownTrans(s, Next(s, events[0]), Run(s, events), client, QueuedBy(s, events[0], client),
                 QueuedIn(Next(s, events[0]), events[1..], client), MarkedBy(s, events[0], client),
                 MarkedIn(Next(s, events[0]), events[1..], client));
    }
  }

  lemma GrownOpen(s: State, t: State, client: ClientId, more: seq<Command>, marked: bool)
    requires Grown(s, t, client, more, marked)
    ensures client in t.transactions
  {
  }

  /** MULTI of an admitted client opens an empty transaction. */
  lemma MultiOpens(s: State, task: Task, env: Env)
    requires VerbOf(task.command).Multi? && Admitted(s, task)
    ensures var t := Step(s, CommandTask(task), env);
            task.client in t.transactions && t.transactions[task.client] == Transaction([], false)
  {
    MultiProcessed(s, task, env);
    hide VerbOf, Admitted, ProcessTask, RetryAll, ExpireAll;
    TurnEndWatched(ProcessTask(s, task, env), env);
  }

  lemma MultiProcessed(s: State, task: Task, env: Env)
    requires VerbOf(task.command).Multi? && Admitted(s, task)
    ensures ProcessTask(s, task, env).transactions == s.transactions[task.client := Transaction([], false)]
  {
    hide VerbNamed, Refuse, RefuseWrite, ProcessBlpop, ProcessXread, ProcessWait, ExecuteTransaction, DoSubscribe,
         DoUnsubscribe, DoPublish, DoWatch, QueueOrRun, Record, Conclude, SerializeCommand, Normalize, Modified;
    var processed := ProcessCommand(s, task.client, task.command, task.source, env);
    assert processed == DoMulti(s, task.client);
    ConcludeWatched(processed.state, task, true, processed.response, env);
  }

  /** EXEC of a client that passes the gates is answered with what the transaction answers. */
  lemma ExecReplied(s: State, task: Task, env: Env)
    requires VerbOf(task.command).Exec?
    requires task.source.FromClient? ==> Authenticated(s, task.client) && task.client !in s.hub.subscriptions
    ensures ProcessTask(s, task, env).replies ==
            s.replies + [Reply(task.id, ExecuteTransaction(s, task.client, task.source, env).response)]
  {
    hide VerbNamed, Refuse, RefuseWrite, ProcessBlpop, ProcessXread, ProcessWait, ExecuteTransaction, DoSubscribe,
         DoUnsubscribe, DoPublish, DoWatch, QueueOrRun, Record, Deflect, SerializeCommand, Normalize, Modified;
    var processed := ProcessCommand(s, task.client, task.command, task.source, env);
    assert processed == ExecuteTransaction(s, task.client, task.source, env);
    ExecuteSame(s, task.client, task.source, env);
  }

  lemma ExecuteSame(s: State, client: ClientId, source: Source, env: Env)
    ensures var t := ExecuteTransaction(s, client, source, env).state; t.replies == s.replies && t.hub == s.hub
  {
    hide RunQueue, CheckWatched, SerializeAll, Bracketed, Record;
    if client in s.transactions {
      var checked := CheckWatched(s.db, WatchedBy(s, client), env.watchOrder, env.now);
      var ran := RunQueue(checked.db, s.transactions[client].commands, 0, env);
      var after := s.(db := ran.db, transactions := s.transactions - {client}, watched := s.watched - {client});
      RecordQueues(after, client, source, SerializeAll(Bracketed(ran.logged)), env);
    }
  }

  /**
   A whole transaction: from the state that MULTI left, through any run in which the client queues commands while
   others do what they like, EXEC answers, unless it is aborted or recording fails, with the responses of exactly
   the commands the client sent, each run on the database that the ones before it left.
   */
  lemma TransactionAnswered(s: State, events: seq<Event>, task: Task, env: Env)
    requires task.client in s.transactions && s.transactions[task.client] == Transaction([], false)
    requires AllLeaveOpen(events, task.client) && !MarkedIn(s, events, task.client)
    requires var later := Run(s, events);
             && VerbOf(task.command).Exec?
             && (task.source.FromClient? ==> Authenticated(later, task.client) && task.client !in later.hub.subscriptions)
             && !CheckWatched(later.db, WatchedBy(later, task.client), env.watchOrder, env.now).changed
    ensures var later := Run(s, events);
            var commands := QueuedIn(s, events, task.client);
            var db := CheckWatched(later.db, WatchedBy(later, task.client), env.watchOrder, env.now).db;
            var t := ProcessTask(later, task, env);
            && |t.replies| == |later.replies| + 1 && t.replies[|later.replies|].id == task.id
            && var response := t.replies[|later.replies|].response;
               if commands == [] then response == EmptyArray
               else || (response == MISCONF && AppendFails(env))
                    || (response.ResponseArray? && AnswersInOrder(response.responses, db, commands, 0, env))
  {
    hide Run, AllLeaveOpen, MarkedIn, QueuedIn, VerbOf, CheckWatched, ProcessTask, ExecuteTransaction, AnswersInOrder,
         AppendFails;
    var later := Run(s, events);
    RunGrown(s, events, task.client);
    assert [] + QueuedIn(s, events, task.client) == QueuedIn(s, events, task.client);
    ExecReplied(later, task, env);
    ExecAnswers(later, task.client, task.source, env);
  }
}
