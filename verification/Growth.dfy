/** Replies are only ever added, a task blocks at the end of its queue, and each loop touches one queue only. */
module Growth {
  import opened Resp
  import opened Responses
  import opened Keyspace
  import opened Commands
  import opened Channels
  import opened ReplicationStream
  import opened Processor
  import opened Ledger

  /** Replies were added, and blocked commands at the end of the queues. */
  predicate Grows(s: State, t: State) {
    && s.replies <= t.replies && s.pendingPops <= t.pendingPops && s.pendingReads <= t.pendingReads
    && s.pendingWaits <= t.pendingWaits
  }

  /** Replies were added, and no pop or read was touched. */
  predicate OnlyReplies(s: State, t: State) {
    s.replies <= t.replies && t.pendingPops == s.pendingPops && t.pendingReads == s.pendingReads
  }

  lemma FulfilsGrows(s: State, t: State, id: TaskId)
    requires Fulfils(s, t, id)
    ensures OnlyReplies(s, t) && t.pendingWaits == s.pendingWaits
  {
  }

  lemma BlpopGrows(s: State, task: Task, env: Env)
    ensures Grows(s, ProcessBlpop(s, task, env))
  {
    hide AttemptPop, Fulfils;
    if |task.command| == 3 && env.context(0).timeout(task.command[2]).Some? {
      var attempt := AttemptPop(s, task, task.command[1], env);
      AttemptFulfils(s, task, task.command[1], env);
      if attempt.served {
        FulfilsGrows(s, attempt.state, task.id);
      }
    }
  }

  lemma XreadGrows(s: State, task: Task, env: Env)
    ensures Grows(s, ProcessXread(s, task, env))
  {
    hide ReadStreams, ParseXread, XreadResponse;
  }

  lemma WaitGrows(s: State, task: Task, env: Env)
    ensures Grows(s, ProcessWait(s, task, env))
  {
    hide ParseWait, CountReached, Prune, AppendFrame, SerializeCommand;
  }

  lemma TaskGrows(s: State, task: Task, env: Env)
    ensures Grows(s, ProcessTask(s, task, env))
  {
    hide VerbOf, Fulfils, IsWrite, Refuse, RefuseWrite, ProcessDirect, ProcessBlpop, ProcessXread, ProcessWait;
    RefuseFulfils(s, task, NOAUTH, env);
    FulfilsGrows(s, Refuse(s, task, NOAUTH, env), task.id);
    RefuseFulfils(s, task, ERR, env);
    FulfilsGrows(s, Refuse(s, task, ERR, env), task.id);
    RefuseWriteFulfils(s, task);
    FulfilsGrows(s, RefuseWrite(s, task), task.id);
    DirectFulfils(s, task, env);
    FulfilsGrows(s, ProcessDirect(s, task, env), task.id);
    BlpopGrows(s, task, env);
    XreadGrows(s, task, env);
    WaitGrows(s, task, env);
  }

  /** Every task but the departure of a client. */
  lemma ProcessGrows(s: State, t: ProcessorTask, env: Env)
    requires !t.UnregisterClient?
    ensures Grows(s, Process(s, t, env))
  {
    hide ProcessTask, LoadEntries, ReplayCommands, ProcessUnregister;
    match t {
      case CommandTask(task) => TaskGrows(s, task, env);
      case InitializeAof(contents, commands) => ReplayQueues(s, commands, env);
      case RegisterReplica(_) =>
      case InstallReplicationState(_) =>
      case GetReplicationOffset =>
      case AcknowledgeReplica(_, _) =>
      case LoadRdb(_, _) =>
      case RegisterClient(_) =>
    }
  }

  /* ---------- The loops ---------- */

  lemma {:induction false} RetryPopsGrows(s: State, queue: seq<PendingPop>, kept: seq<PendingPop>, env: Env)
    ensures var t := RetryPops(s, queue, kept, env);
            s.replies <= t.replies && t.pendingReads == s.pendingReads && t.pendingWaits == s.pendingWaits
    decreases |queue|
  {
    hide AttemptPop, Fulfils;
    if queue != [] {
      var attempt := AttemptPop(s, queue[0].task, queue[0].key, env);
      AttemptFulfils(s, queue[0].task, queue[0].key, env);
      if attempt.served {
        FulfilsGrows(s, attempt.state, queue[0].task.id);
      }
      RetryPopsGrows(attempt.state, queue[1..], if attempt.served then kept else kept + [queue[0]], env);
    }
  }

  lemma {:induction false} RetryReadsGrows(s: State, queue: seq<PendingRead>, kept: seq<PendingRead>, env: Env)
    ensures var t := RetryReads(s, queue, kept, env);
            s.replies <= t.replies && t.pendingPops == s.pendingPops && t.pendingWaits == s.pendingWaits
    decreases |queue|
  {
    hide ReadStreams, XreadResponse;
    if queue != [] {
      var reading := ReadStreams(s.db, queue[0].requests, env.now);
      var after := s.(db := reading.db);
      if reading.results.None? {
        RetryReadsGrows(Answer(after, queue[0].task, WRONGTYPE), queue[1..], kept, env);
      } else if reading.results.value == [] {
        RetryReadsGrows(after, queue[1..], kept + [queue[0].(requests := reading.requests)], env);
      } else {
        RetryReadsGrows(Answer(after, queue[0].task, XreadResponse(reading.results.value)), queue[1..], kept, env);
      }
    }
  }

  lemma {:induction false} RetryWaitsGrows(s: State, queue: seq<PendingWait>, kept: seq<PendingWait>)
    ensures OnlyReplies(s, RetryWaits(s, queue, kept))
    decreases |queue|
  {
    hide CountReached, Prune;
    if queue != [] {
      var count := CountReached(s.replication.sessions, s.replication.acknowledged, queue[0].target);
      var pruned := s.(replication := Prune(s.replication));
      if count < queue[0].required {
        RetryWaitsGrows(pruned, queue[1..], kept + [queue[0]]);
      } else {
        RetryWaitsGrows(Answer(pruned, queue[0].task, Integer(count)), queue[1..], kept);
      }
    }
  }

  lemma {:induction false} ExpirePopsGrows(s: State, queue: seq<PendingPop>, kept: seq<PendingPop>, now: nat)
    ensures var t := ExpirePops(s, queue, kept, now);
            s.replies <= t.replies && t.pendingReads == s.pendingReads && t.pendingWaits == s.pendingWaits
    decreases |queue|
  {
    hide Overdue;
    if queue != [] {
      if !Overdue(queue[0].deadline, now) {
        ExpirePopsGrows(s, queue[1..], kept + [queue[0]], now);
      } else {
        ExpirePopsGrows(Answer(s, queue[0].task, NullArray), queue[1..], kept, now);
      }
    }
  }

  lemma {:induction false} ExpireReadsGrows(s: State, queue: seq<PendingRead>, kept: seq<PendingRead>, now: nat)
    ensures var t := ExpireReads(s, queue, kept, now);
            s.replies <= t.replies && t.pendingPops == s.pendingPops && t.pendingWaits == s.pendingWaits
    decreases |queue|
  {
    hide Overdue;
    if queue != [] {
      if !Overdue(queue[0].deadline, now) {
        ExpireReadsGrows(s, queue[1..], kept + [queue[0]], now);
      } else {
        ExpireReadsGrows(Answer(s, queue[0].task, NullArray), queue[1..], kept, now);
      }
    }
  }

  lemma {:induction false} ExpireWaitsGrows(s: State, queue: seq<PendingWait>, kept: seq<PendingWait>, now: nat)
    ensures OnlyReplies(s, ExpireWaits(s, queue, kept, now))
    decreases |queue|
  {
    hide CountReached, Prune, Overdue;
    if queue != [] {
      var count := CountReached(s.replication.sessions, s.replication.acknowledged, queue[0].target);
      var pruned := s.(replication := Prune(s.replication));
      if !Overdue(queue[0].deadline, now) {
        ExpireWaitsGrows(s, queue[1..], kept + [queue[0]], now);
      } else {
        ExpireWaitsGrows(Answer(pruned, queue[0].task, Integer(count)), queue[1..], kept, now);
      }
    }
  }

  lemma {:induction false} CancelPopsGrows(s: State, queue: seq<PendingPop>, kept: seq<PendingPop>, client: ClientId)
    ensures s.replies <= CancelPops(s, queue, kept, client).replies
    decreases |queue|
  {
    if queue != [] {
      if queue[0].task.client != client {
        CancelPopsGrows(s, queue[1..], kept + [queue[0]], client);
      } else {
        CancelPopsGrows(Answer(s, queue[0].task, NoResponse), queue[1..], kept, client);
      }
    }
  }

  lemma {:induction false} CancelReadsGrows(s: State, queue: seq<PendingRead>, kept: seq<PendingRead>, client: ClientId)
    ensures s.replies <= CancelReads(s, queue, kept, client).replies
    decreases |queue|
  {
    if queue != [] {
      if queue[0].task.client != client {
        CancelReadsGrows(s, queue[1..], kept + [queue[0]], client);
      } else {
        CancelReadsGrows(Answer(s, queue[0].task, NoResponse), queue[1..], kept, client);
      }
    }
  }

  lemma {:induction false} CancelWaitsGrows(s: State, queue: seq<PendingWait>, kept: seq<PendingWait>, client: ClientId)
    ensures OnlyReplies(s, CancelWaits(s, queue, kept, client))
    decreases |queue|
  {
    if queue != [] {
      if queue[0].task.client != client {
        CancelWaitsGrows(s, queue[1..], kept + [queue[0]], client);
      } else {
        CancelWaitsGrows(Answer(s, queue[0].task, NoResponse), queue[1..], kept, client);
      }
    }
  }

  /* ---------- One promise ---------- */

  /** The promise has been answered at or behind position `from`. */
  ghost predicate AnsweredFrom(replies: seq<Reply>, from: nat, id: TaskId) {
    exists p :: from <= p < |replies| && replies[p].id == id
  }

  /** Nothing at or behind position `from` answers the promise. */
  predicate SilentFrom(replies: seq<Reply>, from: nat, id: TaskId) {
    forall p :: from <= p < |replies| ==> replies[p].id != id
  }

  /** The event submits nothing under this promise. */
  predicate Elsewhere(event: Event, id: TaskId) {
    event.Work? && event.t.CommandTask? ==> event.t.task.id != id
  }

  predicate AllElsewhere(events: seq<Event>, id: TaskId) {
    forall i :: 0 <= i < |events| ==> Elsewhere(events[i], id)
  }

  lemma {:induction false} MemberCounts(ids: seq<TaskId>, i: nat)
    requires i < |ids|
    ensures multiset(ids)[ids[i]] >= 1
  {
    assert ids[i] in multiset(ids);
  }

  lemma TwiceCounts(ids: seq<TaskId>, i: nat, j: nat)
    requires i < j < |ids| && ids[i] == ids[j]
    ensures multiset(ids)[ids[i]] >= 2
  {
    assert ids == ids[..j] + ids[j..];
    MemberCounts(ids[..j], i);
    MemberCounts(ids[j..], 0);
  }

  /** A promise that occurs once and waits among the pops has no reply and no second place there. */
  lemma WaitingPop(s: State, j: nat)
    requires j < |s.pendingPops| && Account(s)[s.pendingPops[j].task.id] == 1
    ensures SilentFrom(s.replies, 0, s.pendingPops[j].task.id)
    ensures forall k :: 0 <= k < |s.pendingPops| && k != j ==> s.pendingPops[k].task.id != s.pendingPops[j].task.id
  {
    var id := s.pendingPops[j].task.id;
    var ids := PopIds(s.pendingPops);
    MemberCounts(ids, j);
    forall p | 0 <= p < |s.replies| ensures s.replies[p].id != id {
      MemberCounts(ReplyIds(s.replies), p);
    }
    forall k | 0 <= k < |s.pendingPops| && k != j ensures s.pendingPops[k].task.id != id {
      if s.pendingPops[k].task.id == id {
        TwiceCounts(ids, if k < j then k else j, if k < j then j else k);
      }
    }
  }

  lemma WaitingRead(s: State, j: nat)
    requires j < |s.pendingReads| && Account(s)[s.pendingReads[j].task.id] == 1
    ensures SilentFrom(s.replies, 0, s.pendingReads[j].task.id)
    ensures forall k :: 0 <= k < |s.pendingReads| && k != j ==> s.pendingReads[k].task.id != s.pendingReads[j].task.id
  {
    var id := s.pendingReads[j].task.id;
    var ids := ReadIds(s.pendingReads);
    MemberCounts(ids, j);
    forall p | 0 <= p < |s.replies| ensures s.replies[p].id != id {
      MemberCounts(ReplyIds(s.replies), p);
    }
    forall k | 0 <= k < |s.pendingReads| && k != j ensures s.pendingReads[k].task.id != id {
      if s.pendingReads[k].task.id == id {
        TwiceCounts(ids, if k < j then k else j, if k < j then j else k);
      }
    }
  }

  lemma WaitingWait(s: State, j: nat)
    requires j < |s.pendingWaits| && Account(s)[s.pendingWaits[j].task.id] == 1
    ensures SilentFrom(s.replies, 0, s.pendingWaits[j].task.id)
    ensures forall k :: 0 <= k < |s.pendingWaits| && k != j ==> s.pendingWaits[k].task.id != s.pendingWaits[j].task.id
  {
    var id := s.pendingWaits[j].task.id;
    var ids := WaitIds(s.pendingWaits);
    MemberCounts(ids, j);
    forall p | 0 <= p < |s.replies| ensures s.replies[p].id != id {
      MemberCounts(ReplyIds(s.replies), p);
    }
    forall k | 0 <= k < |s.pendingWaits| && k != j ensures s.pendingWaits[k].task.id != id {
      if s.pendingWaits[k].task.id == id {
        TwiceCounts(ids, if k < j then k else j, if k < j then j else k);
      }
    }
  }

  /** A promise that occurs once and has been answered is not answered again. */
  lemma AnsweredOnce(t: State, p: nat, from: nat)
    requires p < from <= |t.replies| && Account(t)[t.replies[p].id] == 1
    ensures SilentFrom(t.replies, from, t.replies[p].id)
  {
    forall q | from <= q < |t.replies| ensures t.replies[q].id != t.replies[p].id {
      if t.replies[q].id == t.replies[p].id {
        TwiceCounts(ReplyIds(t.replies), p, q);
      }
    }
  }

  /** The same for a promise that is nowhere yet. */
  lemma NowhereSilent(s: State, id: TaskId)
    requires Account(s)[id] == 0
    ensures SilentFrom(s.replies, 0, id)
  {
    forall p | 0 <= p < |s.replies| ensures s.replies[p].id != id {
      MemberCounts(ReplyIds(s.replies), p);
    }
  }
}
