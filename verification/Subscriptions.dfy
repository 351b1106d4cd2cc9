/** A subscription lasts over every run until its client ends it, and every PUBLISH in between counts the client. */
module Subscriptions {
  import opened Decimal
  import opened Resp
  import opened Responses
  import opened Keyspace
  import opened Commands
  import opened Channels
  import opened ReplicationStream
  import opened Processor
  import opened WatchRuns
  import opened Access
  import opened CommandLaws

  predicate Listens(s: State, client: ClientId, channel: Bytes) {
    client in s.clients && channel in ChannelsOf(s.hub, client)
  }

  predicate KeepsListening(s: State, t: State, client: ClientId, channel: Bytes) {
    Listens(s, client, channel) ==> Listens(t, client, channel)
  }

  /* ---------- SUBSCRIBE and UNSUBSCRIBE ---------- */

  /** SUBSCRIBE adds exactly the channels it names, for its client only. */
  lemma SubscribeLaw(s: State, client: ClientId, command: Command, source: Source, env: Env)
    requires IsNamed(command, "SUBSCRIBE") && |command| >= 2 && SessionThere(s, client, env) && Mirror(s.hub)
    ensures var p := ProcessCommand(s, client, command, source, env);
            var t := p.state;
            && p.response == (if env.session(client).Accepting? then NoResponse else ERR)
            && t == s.(hub := t.hub)
            && ChannelsOf(t.hub, client) == ChannelsOf(s.hub, client) + Names(command[1..])
            && forall other :: other != client ==> ChannelsOf(t.hub, other) == ChannelsOf(s.hub, other)
  {
    assert VerbOf(command).Subscribe?;
    hide VerbOf, ExecuteTransaction, JoinAll, Mirror, Names;
    JoinAllMirror(s.hub, client, command[1..]);
    JoinOthers(s.hub, client, command[1..]);
  }

  lemma {:induction false} JoinOthers(hub: Hub, client: ClientId, channels: seq<Bytes>)
    ensures forall other :: other != client ==> ChannelsOf(JoinAll(hub, client, channels), other) == ChannelsOf(hub, other)
    decreases |channels|
  {
    if channels != [] {
      JoinOthers(Join(hub, client, channels[0]), client, channels[1..]);
    }
  }

  /** UNSUBSCRIBE takes away exactly the channels it names, or all of them, from its client only. */
  lemma UnsubscribeLaw(s: State, client: ClientId, command: Command, source: Source, env: Env)
    requires IsNamed(command, "UNSUBSCRIBE") && SessionThere(s, client, env) && Mirror(s.hub)
    ensures var p := ProcessCommand(s, client, command, source, env);
            var t := p.state;
            && p.response == (if env.session(client).Accepting? then NoResponse else ERR)
            && t == s.(hub := t.hub)
            && ChannelsOf(t.hub, client) == (if |command| == 1 then {} else ChannelsOf(s.hub, client) - Names(command[1..]))
            && forall other :: other != client ==> ChannelsOf(t.hub, other) == ChannelsOf(s.hub, other)
  {
    assert VerbOf(command).Unsubscribe?;
    hide VerbOf, ExecuteTransaction, LeaveAll, Mirror, Names;
    if |command| > 1 {
      LeaveAllMirror(s.hub, client, command[1..]);
      LeaveOthers(s.hub, client, command[1..]);
    }
  }

  lemma {:induction false} LeaveOthers(hub: Hub, client: ClientId, channels: seq<Bytes>)
    ensures forall other :: other != client ==> ChannelsOf(LeaveAll(hub, client, channels), other) == ChannelsOf(hub, other)
    decreases |channels|
  {
    if channels != [] {
      LeaveOthers(Leave(hub, client, channels[0]), client, channels[1..]);
    }
  }

  /**
   A subscribed client that sends anything but SUBSCRIBE, UNSUBSCRIBE and PING is refused through its session, with an
   error if the session does not take the refusal, and nothing else happens.
   */
  lemma SubscribedRefused(s: State, task: Task, env: Env)
    requires task.source.FromClient? && Authenticated(s, task.client) && ChannelsOf(s.hub, task.client) != {}
    requires !(VerbOf(task.command).Subscribe? || VerbOf(task.command).Unsubscribe? || VerbOf(task.command).Ping?)
    ensures var t := ProcessTask(s, task, env);
            && t == s.(replies := t.replies, clients := t.clients)
            && t.clients == (if env.session(task.client).Gone? then s.clients - {task.client} else s.clients)
            && t.replies == s.replies + [Reply(task.id, if env.session(task.client).Accepting? then NoResponse else ERR)]
  {
    hide VerbOf, ProcessAdmitted;
  }

  /* ---------- One command ---------- */

  lemma {:induction false} JoinKeeps(hub: Hub, actor: ClientId, channels: seq<Bytes>, client: ClientId)
    ensures ChannelsOf(hub, client) <= ChannelsOf(JoinAll(hub, actor, channels), client)
    decreases |channels|
  {
    if channels != [] {
      JoinKeeps(Join(hub, actor, channels[0]), actor, channels[1..], client);
    }
  }

  lemma PubSubKeeps(s: State, actor: ClientId, command: Command, env: Env, client: ClientId, channel: Bytes)
    requires command != [] && !env.session(client).Gone?
    ensures KeepsListening(s, DoSubscribe(s, actor, command, env).state, client, channel)
    ensures actor != client ==> KeepsListening(s, DoUnsubscribe(s, actor, command, env).state, client, channel)
    ensures KeepsListening(s, DoPublish(s, command, env).state, client, channel)
  {
    hide JoinAll, LeaveAll;
    if |command| >= 2 {
      JoinKeeps(s.hub, actor, command[1..], client);
      LeaveOthers(s.hub, actor, command[1..]);
    }
  }

  lemma ImmediateListens(
    s: State, actor: ClientId, command: Command, source: Source, env: Env, client: ClientId, channel: Bytes)
    requires command != [] && !env.session(client).Gone? && !(actor == client && VerbOf(command).Unsubscribe?)
    ensures KeepsListening(s, ProcessImmediate(s, actor, command, source, env).state, client, channel)
  {
    hide VerbOf, WatchKeys, DoSubscribe, DoUnsubscribe, DoPublish, ExecuteTransaction;
    PubSubKeeps(s, actor, command, env, client, channel);
    ExecuteKeepsClients(s, actor, source, env);
  }

  lemma CommandListens(
    s: State, actor: ClientId, command: Command, source: Source, env: Env, client: ClientId, channel: Bytes)
    requires !env.session(client).Gone? && !(actor == client && VerbOf(command).Unsubscribe?)
    ensures KeepsListening(s, ProcessCommand(s, actor, command, source, env).state, client, channel)
  {
    hide VerbOf, ProcessImmediate, Dispatch;
    if command != [] {
      ImmediateListens(s, actor, command, source, env, client, channel);
    }
  }

  lemma ConcludeListens(
    s: State, task: Task, succeeded: bool, response: Response, env: Env, client: ClientId, channel: Bytes)
    requires !env.session(client).Gone?
    ensures KeepsListening(s, Conclude(s, task, succeeded, response, env), client, channel)
  {
  }

  lemma RefuseListens(s: State, task: Task, response: Response, env: Env, client: ClientId, channel: Bytes)
    requires !env.session(client).Gone?
    ensures KeepsListening(s, Refuse(s, task, response, env), client, channel)
    ensures KeepsListening(s, RefuseWrite(s, task), client, channel)
  {
  }

  lemma DirectListens(s: State, task: Task, env: Env, client: ClientId, channel: Bytes)
    requires !env.session(client).Gone? && !(task.client == client && VerbOf(task.command).Unsubscribe?)
    ensures KeepsListening(s, ProcessDirect(s, task, env), client, channel)
  {
    hide VerbOf, ProcessCommand, Record, Conclude, IsWrite, Modified, Normalize, SerializeCommand;
    var processed := ProcessCommand(s, task.client, task.command, task.source, env);
    CommandListens(s, task.client, task.command, task.source, env, client, channel);
    var payload := SerializeCommand(Normalize(task.command, processed.response));
    RecordWatched(processed.state, task.client, task.source, payload, env);
    var recorded := Record(processed.state, task.client, task.source, payload, env);
    var succeeded := !processed.response.SimpleError?;
    var response := if recorded.ok then processed.response else MISCONF;
    ConcludeListens(recorded.state, task, succeeded, response, env, client, channel);
    ConcludeListens(processed.state, task, succeeded, processed.response, env, client, channel);
  }

  lemma TaskListens(s: State, task: Task, env: Env, client: ClientId, channel: Bytes)
    requires !env.session(client).Gone? && !(task.client == client && VerbOf(task.command).Unsubscribe?)
    ensures KeepsListening(s, ProcessTask(s, task, env), client, channel)
  {
    hide VerbOf, IsWrite, Refuse, RefuseWrite, ProcessDirect, ProcessBlpop, ProcessXread, ProcessWait;
    DirectListens(s, task, env, client, channel);
    BlockingWatched(s, task, env);
    RefuseListens(s, task, NOAUTH, env, client, channel);
    RefuseListens(s, task, ERR, env, client, channel);
  }

  /* ---------- Whole runs ---------- */

  /** An event that does not end a subscription of the client: its session is there and it does not unsubscribe. */
  predicate Stays(event: Event, client: ClientId) {
    event.Work? ==>
      && !event.env.session(client).Gone? && event.t != UnregisterClient(client)
      && !(event.t.CommandTask? && event.t.task.client == client && VerbOf(event.t.task.command).Unsubscribe?)
  }

  lemma {:induction false} ReplayListens(s: State, commands: seq<Command>, env: Env, client: ClientId, channel: Bytes)
    requires client != AOF_CLIENT && !env.session(client).Gone?
    ensures KeepsListening(s, ReplayCommands(s, commands, env).state, client, channel)
    decreases |commands|
  {
    hide ProcessCommand, VerbOf;
    if commands != [] {
      CommandListens(s, AOF_CLIENT, commands[0], FromAof, env, client, channel);
      ReplayListens(ProcessCommand(s, AOF_CLIENT, commands[0], FromAof, env).state, commands[1..], env, client, channel);
    }
  }

  lemma UnregisterListens(s: State, other: ClientId, client: ClientId, channel: Bytes)
    requires other != client
    ensures KeepsListening(s, ProcessUnregister(s, other), client, channel)
  {
    hide CancelPops, CancelReads, CancelWaits;
    var a := CancelPops(s, s.pendingPops, [], other);
    var b := CancelReads(a, s.pendingReads, [], other);
    CancelPopsWatched(s, s.pendingPops, [], other);
    CancelReadsWatched(a, s.pendingReads, [], other);
    CancelWaitsWatched(b, s.pendingWaits, [], other);
  }

  lemma ProcessListens(s: State, t: ProcessorTask, env: Env, client: ClientId, channel: Bytes)
    requires client != AOF_CLIENT && Stays(Work(t, env), client)
    ensures KeepsListening(s, Process(s, t, env), client, channel)
  {
    hide VerbOf, ProcessTask, LoadEntries, ReplayCommands, ProcessUnregister;
    match t {
      case CommandTask(task) => TaskListens(s, task, env, client, channel);
      case InitializeAof(_, commands) => ReplayListens(s, commands, env, client, channel);
      case UnregisterClient(other) => UnregisterListens(s, other, client, channel);
      case _ =>
    }
  }

  lemma NextListens(s: State, event: Event, client: ClientId, channel: Bytes)
    requires client != AOF_CLIENT && Stays(event, client)
    ensures KeepsListening(s, Next(s, event), client, channel)
  {
    hide Process, RetryAll, ExpireAll, StepSessions, VerbOf;
    match event {
      case Work(t, env) =>
        ProcessListens(s, t, env, client, channel);
        TurnEndWatched(Process(s, t, env), env);
      case Tick(now) => ExpireAllWatched(s, now);
      case Connection(_, _) =>
    }
  }

  lemma {:induction false} RunListens(s: State, events: seq<Event>, client: ClientId, channel: Bytes)
    requires client != AOF_CLIENT && forall i :: 0 <= i < |events| ==> Stays(events[i], client)
    ensures KeepsListening(s, Run(s, events), client, channel)
    decreases |events|
  {
    hide Next, Stays, Listens;
    if events != [] {
      NextListens(s, events[0], client, channel);
      RunListens(Next(s, events[0]), events[1..], client, channel);
    }
  }

  /**
   From the turn in which a client subscribes, over every run in which it stays: a PUBLISH to the channel counts the
   client if and only if its session takes the message.
   */
  lemma SubscriberIsReached(s: State, events: seq<Event>, client: ClientId, channel: Bytes, env: Env)
    requires client != AOF_CLIENT && Listens(s, client, channel) && !env.session(client).Gone?
    requires forall i :: 0 <= i < |events| ==> Stays(events[i], client)
    ensures client in Takers(Run(s, events), channel, env) <==> env.session(client).Accepting?
  {
    hide Run, Stays;
    RunListens(s, events, client, channel);
  }
}
