/** Who may use the server: a client without credentials stays outside over every run and changes nothing. */
module Access {
  import opened Resp
  import opened Responses
  import opened Keyspace
  import opened Commands
  import opened Channels
  import opened ReplicationStream
  import opened Processor
  import opened WatchRuns

  /** Whoever is let in afterwards was let in before. */
  predicate StaysOut(s: State, t: State, client: ClientId) {
    Authenticated(t, client) ==> Authenticated(s, client)
  }

  /** The events that let a client in: it connects while no password is asked for, or gives the right one. */
  predicate Grants(s: State, event: Event, client: ClientId) {
    && event.Work?
    && match event.t
       case RegisterClient(other) => other == client && s.openAccess
       case CommandTask(task) => task.client == client && VerbOf(task.command).Auth? && event.env.credentials
       case InitializeAof(_, _) => client == AOF_CLIENT
       case _ => false
  }

  lemma PubSubStaysOut(s: State, actor: ClientId, command: Command, env: Env, client: ClientId)
    requires command != []
    ensures StaysOut(s, DoSubscribe(s, actor, command, env).state, client)
    ensures StaysOut(s, DoUnsubscribe(s, actor, command, env).state, client)
    ensures StaysOut(s, DoPublish(s, command, env).state, client)
  {
    hide JoinAll, LeaveAll, Forget, DropFrom;
  }

  lemma ExecuteKeepsClients(s: State, actor: ClientId, source: Source, env: Env)
    ensures var t := ExecuteTransaction(s, actor, source, env).state; t.clients == s.clients && t.hub == s.hub
  {
    if actor in s.transactions {
      hide ExecuteTransaction;
      ExecuteEnds(s, actor, source, env);
    }
  }

  lemma ImmediateStaysOut(s: State, actor: ClientId, command: Command, source: Source, env: Env, client: ClientId)
    requires command != [] && !(actor == client && VerbOf(command).Auth? && env.credentials)
    ensures StaysOut(s, ProcessImmediate(s, actor, command, source, env).state, client)
  {
    hide VerbOf, WatchKeys, DoSubscribe, DoUnsubscribe, DoPublish, ExecuteTransaction;
    PubSubStaysOut(s, actor, command, env, client);
    ExecuteKeepsClients(s, actor, source, env);
  }

  lemma CommandStaysOut(s: State, actor: ClientId, command: Command, source: Source, env: Env, client: ClientId)
    requires !(actor == client && VerbOf(command).Auth? && env.credentials)
    ensures StaysOut(s, ProcessCommand(s, actor, command, source, env).state, client)
  {
    hide VerbOf, ProcessImmediate, Dispatch;
    if command != [] {
      ImmediateStaysOut(s, actor, command, source, env, client);
    }
  }

  lemma ConcludeStaysOut(s: State, task: Task, succeeded: bool, response: Response, env: Env, client: ClientId)
    ensures StaysOut(s, Conclude(s, task, succeeded, response, env), client)
  {
  }

  lemma DirectStaysOut(s: State, task: Task, env: Env, client: ClientId)
    requires !(task.client == client && VerbOf(task.command).Auth? && env.credentials)
    ensures StaysOut(s, ProcessDirect(s, task, env), client)
  {
    hide VerbOf, ProcessCommand, Record, Conclude, IsWrite, Modified, Normalize, SerializeCommand;
    var processed := ProcessCommand(s, task.client, task.command, task.source, env);
    CommandStaysOut(s, task.client, task.command, task.source, env, client);
    var payload := SerializeCommand(Normalize(task.command, processed.response));
    RecordWatched(processed.state, task.client, task.source, payload, env);
    var recorded := Record(processed.state, task.client, task.source, payload, env);
    var succeeded := !processed.response.SimpleError?;
    ConcludeStaysOut(recorded.state, task, succeeded, if recorded.ok then processed.response else MISCONF, env, client);
    ConcludeStaysOut(processed.state, task, succeeded, processed.response, env, client);
  }

  lemma RefuseStaysOut(s: State, task: Task, response: Response, env: Env, client: ClientId)
    ensures StaysOut(s, Refuse(s, task, response, env), client) && StaysOut(s, RefuseWrite(s, task), client)
  {
  }

  lemma TaskStaysOut(s: State, task: Task, env: Env, client: ClientId)
    requires !(task.client == client && VerbOf(task.command).Auth? && env.credentials)
    ensures StaysOut(s, ProcessTask(s, task, env), client)
  {
    hide VerbOf, IsWrite, Refuse, RefuseWrite, ProcessDirect, ProcessBlpop, ProcessXread, ProcessWait;
    DirectStaysOut(s, task, env, client);
    BlockingWatched(s, task, env);
    RefuseStaysOut(s, task, NOAUTH, env, client);
    RefuseStaysOut(s, task, ERR, env, client);
  }

  lemma {:induction false} ReplayStaysOut(s: State, commands: seq<Command>, env: Env, client: ClientId)
    requires client != AOF_CLIENT
    ensures StaysOut(s, ReplayCommands(s, commands, env).state, client)
    decreases |commands|
  {
    hide ProcessCommand, VerbOf;
    if commands != [] {
      CommandStaysOut(s, AOF_CLIENT, commands[0], FromAof, env, client);
      ReplayStaysOut(ProcessCommand(s, AOF_CLIENT, commands[0], FromAof, env).state, commands[1..], env, client);
    }
  }

  lemma UnregisterStaysOut(s: State, other: ClientId, client: ClientId)
    ensures StaysOut(s, ProcessUnregister(s, other), client)
  {
    hide CancelPops, CancelReads, CancelWaits, Forget;
    var a := CancelPops(s, s.pendingPops, [], other);
    var b := CancelReads(a, s.pendingReads, [], other);
    CancelPopsWatched(s, s.pendingPops, [], other);
    CancelReadsWatched(a, s.pendingReads, [], other);
    CancelWaitsWatched(b, s.pendingWaits, [], other);
  }

  lemma ProcessStaysOut(s: State, t: ProcessorTask, env: Env, client: ClientId)
    requires !Grants(s, Work(t, env), client)
    ensures StaysOut(s, Process(s, t, env), client)
  {
    hide VerbOf, ProcessTask, LoadEntries, ReplayCommands, ProcessUnregister;
    match t {
      case CommandTask(task) => TaskStaysOut(s, task, env, client);
      case InitializeAof(_, commands) => ReplayStaysOut(s, commands, env, client);
      case UnregisterClient(other) => UnregisterStaysOut(s, other, client);
      case _ =>
    }
  }

  /** Every event but those that let a client in keeps a stranger out. */
  lemma NextStaysOut(s: State, event: Event, client: ClientId)
    requires !Grants(s, event, client)
    ensures StaysOut(s, Next(s, event), client)
  {
    hide Process, RetryAll, ExpireAll, StepSessions, Grants;
    match event {
      case Work(t, env) =>
        ProcessStaysOut(s, t, env, client);
        TurnEndWatched(Process(s, t, env), env);
      case Tick(now) => ExpireAllWatched(s, now);
      case Connection(_, _) =>
    }
  }

  /** Over every run without an event that lets it in, a stranger stays outside. */
  lemma {:induction false} StaysOutside(s: State, events: seq<Event>, client: ClientId)
    requires !Authenticated(s, client)
    requires forall i :: 0 <= i < |events| ==> !Grants(Run(s, events[..i]), events[i], client)
    ensures !Authenticated(Run(s, events), client)
    decreases |events|
  {
    hide Next, Grants, Authenticated;
    if events != [] {
      assert events[..0] == [];
      assert !Grants(Run(s, events[..0]), events[0], client);
      StillOutside(s, events[0], client);
      forall i | 0 <= i < |events[1..]| ensures !Grants(Run(Next(s, events[0]), events[1..][..i]), events[1..][i], client) {
        RunShifted(s, events, i);
        assert !Grants(Run(s, events[..i + 1]), events[i + 1], client);
      }
      StaysOutside(Next(s, events[0]), events[1..], client);
    }
  }

  lemma StillOutside(s: State, event: Event, client: ClientId)
    requires !Authenticated(s, client) && !Grants(s, event, client)
    ensures !Authenticated(Next(s, event), client)
  {
    hide Next, Grants;
    NextStaysOut(s, event, client);
  }

  /** A stranger's command is answered and does nothing else; at most the server finds that its session is gone. */
  lemma StrangerRefused(s: State, task: Task, env: Env)
    requires task.source.FromClient? && !VerbOf(task.command).Auth? && !Authenticated(s, task.client)
    ensures var t := ProcessTask(s, task, env);
            && t == s.(replies := t.replies, clients := t.clients)
            && |t.replies| == |s.replies| + 1 && s.replies <= t.replies
            && (task.client !in s.hub.subscriptions ==>
                  t.clients == s.clients && t.replies[|s.replies|] == Reply(task.id, NOAUTH))
  {
    hide VerbOf, ProcessAdmitted;
  }

  /**
   Over every run that does not let a client in, each of its commands is refused: database, log, stream, transactions,
   watches and subscriptions are those from before.
   */
  lemma StrangerChangesNothing(s: State, events: seq<Event>, k: nat, task: Task, env: Env)
    requires !Authenticated(s, task.client) && k < |events| && events[k] == Work(CommandTask(task), env)
    requires task.source.FromClient? && !VerbOf(task.command).Auth?
    requires forall i :: 0 <= i < k ==> !Grants(Run(s, events[..i]), events[i], task.client)
    ensures var before := Run(s, events[..k]);
            var after := Process(before, CommandTask(task), env);
            after == before.(replies := after.replies, clients := after.clients)
  {
    hide Run, Grants, VerbOf, ProcessTask, Authenticated;
    var first := events[..k];
    forall i | 0 <= i < |first| ensures !Grants(Run(s, first[..i]), first[i], task.client) {
      assert first[..i] == events[..i];
    }
    StaysOutside(s, first, task.client);
    StrangerRefused(Run(s, events[..k]), task, env);
  }

  /** A client that connects is inside at once if and only if no password is asked for. */
  lemma ConnectingLetsIn(s: State, client: ClientId, env: Env)
    ensures Authenticated(Step(s, RegisterClient(client), env), client) <==> s.openAccess
  {
    hide RetryAll, ExpireAll;
    TurnEndWatched(Process(s, RegisterClient(client), env), env);
  }
}
