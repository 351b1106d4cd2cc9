/** A client that was unregistered leaves no task behind, and none of its later tasks is ever left pending. */
module Departure {
  import opened Wrappers
  import opened Responses
  import opened Keyspace
  import opened Commands
  import opened Channels
  import opened ReplicationStream
  import opened Processor
  import opened Invariants
  import opened Ledger

  ghost predicate NoPop(queue: seq<PendingPop>, client: ClientId) {
    forall i :: 0 <= i < |queue| ==> queue[i].task.client != client
  }

  ghost predicate NoRead(queue: seq<PendingRead>, client: ClientId) {
    forall i :: 0 <= i < |queue| ==> queue[i].task.client != client
  }

  ghost predicate NoWait(queue: seq<PendingWait>, client: ClientId) {
    forall i :: 0 <= i < |queue| ==> queue[i].task.client != client
  }

  ghost predicate NonePending(s: State, client: ClientId) {
    NoPop(s.pendingPops, client) && NoRead(s.pendingReads, client) && NoWait(s.pendingWaits, client)
  }

  /** The client is not registered and has no blocked command. */
  ghost predicate Departed(s: State, client: ClientId) {
    client !in s.clients && NonePending(s, client)
  }

  /* ---------- A task blocks at most itself ---------- */

  lemma BlpopPending(s: State, task: Task, env: Env, client: ClientId)
    requires NonePending(s, client) && task.client != client
    ensures NonePending(ProcessBlpop(s, task, env), client)
  {
    hide AttemptPop, NoRead, NoWait, Fulfils;
    if |task.command| == 3 && env.context(0).timeout(task.command[2]).Some? {
      var attempt := AttemptPop(s, task, task.command[1], env);
      AttemptFulfils(s, task, task.command[1], env);
      if attempt.served {
        FulfilsPending(s, attempt.state, task.id, client);
      }
    }
  }

  lemma FulfilsPending(s: State, t: State, id: TaskId, client: ClientId)
    requires Fulfils(s, t, id) && NonePending(s, client)
    ensures NonePending(t, client)
  {
  }

  lemma XreadPending(s: State, task: Task, env: Env, client: ClientId)
    requires NonePending(s, client) && task.client != client
    ensures NonePending(ProcessXread(s, task, env), client)
  {
    hide ReadStreams, ParseXread, XreadResponse, NoPop, NoWait;
  }

  lemma WaitPending(s: State, task: Task, env: Env, client: ClientId)
    requires NonePending(s, client) && task.client != client
    ensures NonePending(ProcessWait(s, task, env), client)
  {
    hide ParseWait, CountReached, Prune, AppendFrame, NoPop, NoRead;
  }

  /** A task of the departed client is refused or fails; any other task may block only itself. */
  lemma TaskPending(s: State, task: Task, env: Env, client: ClientId)
    requires Departed(s, client)
    requires task.client == client ==> task.source.FromClient?
    ensures NonePending(ProcessTask(s, task, env), client)
  {
    hide VerbOf, NonePending, Fulfils, Refuse, RefuseWrite, ProcessDirect, ProcessBlpop, ProcessXread, ProcessWait;
    RefuseFulfils(s, task, NOAUTH, env);
    FulfilsPending(s, Refuse(s, task, NOAUTH, env), task.id, client);
    RefuseFulfils(s, task, ERR, env);
    FulfilsPending(s, Refuse(s, task, ERR, env), task.id, client);
    RefuseWriteFulfils(s, task);
    FulfilsPending(s, RefuseWrite(s, task), task.id, client);
    DirectFulfils(s, task, env);
    FulfilsPending(s, ProcessDirect(s, task, env), task.id, client);
    if task.client != client {
      BlpopPending(s, task, env, client);
      XreadPending(s, task, env, client);
      WaitPending(s, task, env, client);
    }
  }

  /* ---------- The loops block nobody ---------- */

  lemma {:induction false} RetryPopsPending(
    s: State, queue: seq<PendingPop>, kept: seq<PendingPop>, env: Env, client: ClientId)
    requires NoPop(queue, client) && NoPop(kept, client) && NoRead(s.pendingReads, client) && NoWait(s.pendingWaits, client)
    ensures NonePending(RetryPops(s, queue, kept, env), client)
    decreases |queue|
  {
    hide AttemptPop, NoRead, NoWait;
    if queue != [] {
      var attempt := AttemptPop(s, queue[0].task, queue[0].key, env);
      AttemptFulfils(s, queue[0].task, queue[0].key, env);
      RetryPopsPending(attempt.state, queue[1..], if attempt.served then kept else kept + [queue[0]], env, client);
    }
  }

  lemma {:induction false} RetryReadsPending(
    s: State, queue: seq<PendingRead>, kept: seq<PendingRead>, env: Env, client: ClientId)
    requires NoRead(queue, client) && NoRead(kept, client) && NoPop(s.pendingPops, client) && NoWait(s.pendingWaits, client)
    ensures NonePending(RetryReads(s, queue, kept, env), client)
    decreases |queue|
  {
    hide ReadStreams, XreadResponse, NoPop, NoWait;
    if queue != [] {
      var reading := ReadStreams(s.db, queue[0].requests, env.now);
      var after := s.(db := reading.db);
      if reading.results.None? {
        RetryReadsPending(Answer(after, queue[0].task, WRONGTYPE), queue[1..], kept, env, client);
      } else if reading.results.value == [] {
        RetryReadsPending(after, queue[1..], kept + [queue[0].(requests := reading.requests)], env, client);
      } else {
        RetryReadsPending(Answer(after, queue[0].task, XreadResponse(reading.results.value)), queue[1..], kept, env, client);
      }
    }
  }

  lemma {:induction false} RetryWaitsPending(s: State, queue: seq<PendingWait>, kept: seq<PendingWait>, client: ClientId)
    requires NoWait(queue, client) && NoWait(kept, client) && NoPop(s.pendingPops, client) && NoRead(s.pendingReads, client)
    ensures NonePending(RetryWaits(s, queue, kept), client)
    decreases |queue|
  {
    hide CountReached, Prune, NoPop, NoRead;
    if queue != [] {
      var count := CountReached(s.replication.sessions, s.replication.acknowledged, queue[0].target);
      var pruned := s.(replication := Prune(s.replication));
      if count < queue[0].required {
        RetryWaitsPending(pruned, queue[1..], kept + [queue[0]], client);
      } else {
        RetryWaitsPending(Answer(pruned, queue[0].task, Integer(count)), queue[1..], kept, client);
      }
    }
  }

  lemma {:induction false} ExpirePopsPending(
    s: State, queue: seq<PendingPop>, kept: seq<PendingPop>, now: nat, client: ClientId)
    requires NoPop(queue, client) && NoPop(kept, client) && NoRead(s.pendingReads, client) && NoWait(s.pendingWaits, client)
    ensures NonePending(ExpirePops(s, queue, kept, now), client)
    decreases |queue|
  {
    hide NoRead, NoWait;
    if queue != [] {
      if !Overdue(queue[0].deadline, now) {
        ExpirePopsPending(s, queue[1..], kept + [queue[0]], now, client);
      } else {
        ExpirePopsPending(Answer(s, queue[0].task, NullArray), queue[1..], kept, now, client);
      }
    }
  }

  lemma {:induction false} ExpireReadsPending(
    s: State, queue: seq<PendingRead>, kept: seq<PendingRead>, now: nat, client: ClientId)
    requires NoRead(queue, client) && NoRead(kept, client) && NoPop(s.pendingPops, client) && NoWait(s.pendingWaits, client)
    ensures NonePending(ExpireReads(s, queue, kept, now), client)
    decreases |queue|
  {
    hide NoPop, NoWait;
    if queue != [] {
      if !Overdue(queue[0].deadline, now) {
        ExpireReadsPending(s, queue[1..], kept + [queue[0]], now, client);
      } else {
        ExpireReadsPending(Answer(s, queue[0].task, NullArray), queue[1..], kept, now, client);
      }
    }
  }

  lemma {:induction false} ExpireWaitsPending(
    s: State, queue: seq<PendingWait>, kept: seq<PendingWait>, now: nat, client: ClientId)
    requires NoWait(queue, client) && NoWait(kept, client) && NoPop(s.pendingPops, client) && NoRead(s.pendingReads, client)
    ensures NonePending(ExpireWaits(s, queue, kept, now), client)
    decreases |queue|
  {
    hide CountReached, Prune, Overdue, NoPop, NoRead;
    if queue != [] {
      var count := CountReached(s.replication.sessions, s.replication.acknowledged, queue[0].target);
      var pruned := s.(replication := Prune(s.replication));
      if !Overdue(queue[0].deadline, now) {
        ExpireWaitsPending(s, queue[1..], kept + [queue[0]], now, client);
      } else {
        ExpireWaitsPending(Answer(pruned, queue[0].task, Integer(count)), queue[1..], kept, now, client);
      }
    }
  }

  lemma NothingPending(client: ClientId)
    ensures NoPop([], client) && NoRead([], client) && NoWait([], client)
  {
  }

  lemma SettlePending(s: State, env: Env, client: ClientId)
    requires NonePending(s, client)
    ensures NonePending(ExpireAll(RetryAll(s, env), env.now), client)
  {
    hide RetryPops, RetryReads, RetryWaits, ExpireAll, NoPop, NoRead, NoWait;
    NothingPending(client);
    RetryPopsPending(s, s.pendingPops, [], env, client);
    var a := RetryPops(s, s.pendingPops, [], env);
    RetryReadsPending(a, a.pendingReads, [], env, client);
    var b := RetryReads(a, a.pendingReads, [], env);
    RetryWaitsPending(b, b.pendingWaits, [], client);
    ExpirePending(RetryAll(s, env), env.now, client);
  }

  lemma ExpirePending(s: State, now: nat, client: ClientId)
    requires NonePending(s, client)
    ensures NonePending(ExpireAll(s, now), client)
  {
    hide ExpirePops, ExpireReads, ExpireWaits, NoPop, NoRead, NoWait;
    NothingPending(client);
    ExpirePopsPending(s, s.pendingPops, [], now, client);
    var a := ExpirePops(s, s.pendingPops, [], now);
    ExpireReadsPending(a, a.pendingReads, [], now, client);
    var b := ExpireReads(a, a.pendingReads, [], now);
    ExpireWaitsPending(b, b.pendingWaits, [], now, client);
  }

  /* ---------- Unregistering ---------- */

  lemma {:induction false} CancelPopsPending(
    s: State, queue: seq<PendingPop>, kept: seq<PendingPop>, gone: ClientId, client: ClientId)
    requires NoPop(kept, client) && (gone == client || NoPop(queue, client))
    ensures NoPop(CancelPops(s, queue, kept, gone).pendingPops, client)
    decreases |queue|
  {
    if queue != [] {
      if queue[0].task.client != gone {
        CancelPopsPending(s, queue[1..], kept + [queue[0]], gone, client);
      } else {
        CancelPopsPending(Answer(s, queue[0].task, NoResponse), queue[1..], kept, gone, client);
      }
    }
  }

  lemma {:induction false} CancelReadsPending(
    s: State, queue: seq<PendingRead>, kept: seq<PendingRead>, gone: ClientId, client: ClientId)
    requires NoRead(kept, client) && (gone == client || NoRead(queue, client))
    ensures NoRead(CancelReads(s, queue, kept, gone).pendingReads, client)
    decreases |queue|
  {
    if queue != [] {
      if queue[0].task.client != gone {
        CancelReadsPending(s, queue[1..], kept + [queue[0]], gone, client);
      } else {
        CancelReadsPending(Answer(s, queue[0].task, NoResponse), queue[1..], kept, gone, client);
      }
    }
  }

  lemma {:induction false} CancelWaitsPending(
    s: State, queue: seq<PendingWait>, kept: seq<PendingWait>, gone: ClientId, client: ClientId)
    requires NoWait(kept, client) && (gone == client || NoWait(queue, client))
    ensures var t := CancelWaits(s, queue, kept, gone);
            NoWait(t.pendingWaits, client) && t.pendingPops == s.pendingPops && t.pendingReads == s.pendingReads
    decreases |queue|
  {
    if queue != [] {
      if queue[0].task.client != gone {
        CancelWaitsPending(s, queue[1..], kept + [queue[0]], gone, client);
      } else {
        CancelWaitsPending(Answer(s, queue[0].task, NoResponse), queue[1..], kept, gone, client);
      }
    }
  }

  lemma UnregisterPending(s: State, gone: ClientId, client: ClientId)
    requires gone == client || NonePending(s, client)
    ensures NonePending(ProcessUnregister(s, gone), client)
  {
    hide CancelPops, CancelReads, CancelWaits, Forget, NoPop, NoRead, NoWait;
    var a := CancelPops(s, s.pendingPops, [], gone);
    var b := CancelReads(a, s.pendingReads, [], gone);
    NothingPending(client);
    CancelPopsPending(s, s.pendingPops, [], gone, client);
    CancelPopsOthers(s, s.pendingPops, [], gone);
    CancelReadsPending(a, s.pendingReads, [], gone, client);
    CancelReadsOthers(a, s.pendingReads, [], gone);
    CancelWaitsPending(b, s.pendingWaits, [], gone, client);
  }

  /** Unregistering a client answers all its blocked commands and forgets it. */
  lemma UnregisterDeparts(s: State, client: ClientId, env: Env)
    ensures Departed(Step(s, UnregisterClient(client), env), client)
  {
    hide ProcessUnregister, RetryAll, ExpireAll, NonePending, ProcessTask, LoadEntries, ProcessAof, Evolves, DbOk,
         Accounted, Mirror, Extends;
    var processed := ProcessUnregister(s, client);
    UnregisterPending(s, client, client);
    assert client !in processed.clients by {
      UnregisterForgets(s, client);
    }
    SettlePending(processed, env, client);
    SettleStep(processed, env, NO_TERMS);
  }

  lemma UnregisterForgets(s: State, client: ClientId)
    ensures client !in ProcessUnregister(s, client).clients
  {
    hide CancelPops, CancelReads, CancelWaits, Forget;
  }

  /** The task neither registers this client again nor uses its id from elsewhere. */
  predicate KeepsAway(t: ProcessorTask, client: ClientId) {
    && t != RegisterClient(client)
    && (t.CommandTask? && t.task.client == client ==> t.task.source.FromClient?)
  }

  lemma ProcessPending(s: State, t: ProcessorTask, env: Env, client: ClientId)
    requires Departed(s, client) && KeepsAway(t, client)
    ensures NonePending(Process(s, t, env), client)
  {
    hide ProcessTask, LoadEntries, ReplayCommands, ProcessUnregister, NoPop, NoRead, NoWait;
    match t {
      case CommandTask(task) => TaskPending(s, task, env, client);
      case InitializeAof(contents, commands) => ReplayQueues(s, commands, env);
      case UnregisterClient(gone) => UnregisterPending(s, gone, client);
      case _ =>
    }
  }

  lemma StepDeparted(s: State, t: ProcessorTask, env: Env, client: ClientId)
    requires Departed(s, client) && KeepsAway(t, client)
    ensures Departed(Step(s, t, env), client)
  {
    hide Process, RetryAll, ExpireAll, NonePending, Evolves, DbOk, Accounted, Mirror, Extends;
    var processed := Process(s, t, env);
    ProcessPending(s, t, env, client);
    SettlePending(processed, env, client);
    SettleStep(processed, env, NO_TERMS);
    if t.RegisterClient? {
      RegisterClientKeeps(s, t.client, env);
    } else {
      ProcessKeeps(s, t, env, NO_TERMS);
    }
  }

  predicate AllKeepAway(events: seq<Event>, client: ClientId) {
    forall i :: 0 <= i < |events| ==> (events[i].Work? ==> KeepsAway(events[i].t, client))
  }

  /** Over every run after it was unregistered, a client that does not register again has nothing pending. */
  lemma {:induction false} StaysDeparted(s: State, events: seq<Event>, client: ClientId)
    requires Departed(s, client) && AllKeepAway(events, client)
    ensures Departed(Run(s, events), client)
    decreases |events|
  {
    hide Departed, Next, KeepsAway;
    if events != [] {
      NextDeparted(s, events[0], client);
      StaysDeparted(Next(s, events[0]), events[1..], client);
    }
  }

  lemma NextDeparted(s: State, event: Event, client: ClientId)
    requires Departed(s, client) && (event.Work? ==> KeepsAway(event.t, client))
    ensures Departed(Next(s, event), client)
  {
    hide Step, ExpireAll, StepSessions, NoPop, NoRead, NoWait, KeepsAway, Evolves, DbOk, Accounted, Mirror, Extends;
    match event {
      case Work(t, env) => StepDeparted(s, t, env, client);
      case Tick(now) =>
        ExpirePending(s, now, client);
        ExpireAllKeeps(s, now, NO_TERMS);
      case Connection(_, _) =>
    }
  }
}
