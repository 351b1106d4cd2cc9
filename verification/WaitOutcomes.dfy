/** The three loops over the blocked WAITs, and what each does to one of them. */
module WaitOutcomes {
  import opened Decimal
  import opened Responses
  import opened Channels
  import opened ReplicationStream
  import opened Processor
  import opened Blocking
  import opened Outcomes

  /** No other WAIT has this promise. */
  predicate OnlyWait(queue: seq<PendingWait>, wait: PendingWait) {
    forall k :: 0 <= k < |queue| && queue[k].task.id == wait.task.id ==> queue[k] == wait
  }

  /* ---------- Counting ---------- */

  lemma CountTrue(s: State, target: nat)
    ensures CountReached(s.replication.sessions, s.replication.acknowledged, target) == Count(s, target)
  {
    hide CountReached, AtTarget;
    CountIsExact(s.replication.sessions, s.replication.acknowledged, target);
  }

  lemma PruneCounts(s: State, target: nat)
    ensures Count(s.(replication := Prune(s.replication)), target) == Count(s, target)
  {
    hide CountReached, Live, Count;
    CountTrue(s, target);
    CountTrue(s.(replication := Prune(s.replication)), target);
    LiveCounts(s.replication.sessions, s.replication.acknowledged, target);
  }

  /** Dropped sessions never count, and a frame more in its queue changes nothing about the others. */
  lemma {:induction false} EnqueueCounts(sessions: seq<Session>, frame: Frame, acknowledged: map<ClientId, nat>, target: nat)
    ensures CountReached(EnqueueAll(sessions, frame), acknowledged, target) == CountReached(sessions, acknowledged, target)
  {
    if sessions != [] {
      EnqueueCounts(sessions[1..], frame, acknowledged, target);
    }
  }

  lemma AppendCounts(r: Replication, payload: Bytes, target: nat)
    ensures var t := AppendFrame(r, payload);
            CountReached(t.sessions, t.acknowledged, target) == CountReached(r.sessions, r.acknowledged, target)
  {
    hide CountReached, EnqueueAll;
    EnqueueCounts(r.sessions, Frame(payload, r.offset + |payload|), r.acknowledged, target);
  }

  lemma RecordReaches(s: State, client: ClientId, source: Source, payload: Bytes, env: Env, target: nat)
    ensures var t := Record(s, client, source, payload, env).state;
            CountReached(t.replication.sessions, t.replication.acknowledged, target) ==
            CountReached(s.replication.sessions, s.replication.acknowledged, target)
  {
    hide CountReached, AppendFrame;
    AppendCounts(s.replication, payload, target);
  }

  lemma RecordCounts(s: State, client: ClientId, source: Source, payload: Bytes, env: Env, target: nat)
    ensures Count(Record(s, client, source, payload, env).state, target) == Count(s, target)
  {
    hide CountReached, AppendFrame, Count, Record;
    CountTrue(s, target);
    var t := Record(s, client, source, payload, env).state;
    CountTrue(t, target);
    RecordReaches(s, client, source, payload, env, target);
  }

  lemma {:induction false} RetryWaitsCounts(s: State, queue: seq<PendingWait>, kept: seq<PendingWait>, target: nat)
    ensures Count(RetryWaits(s, queue, kept), target) == Count(s, target)
    decreases |queue|
  {
    hide CountReached, Prune, AtTarget;
    if queue != [] {
      var count := CountReached(s.replication.sessions, s.replication.acknowledged, queue[0].target);
      var pruned := s.(replication := Prune(s.replication));
      PruneCounts(s, target);
      if count < queue[0].required {
        RetryWaitsCounts(pruned, queue[1..], kept + [queue[0]], target);
      } else {
        RetryWaitsCounts(Answer(pruned, queue[0].task, Integer(count)), queue[1..], kept, target);
      }
    }
  }

  lemma {:induction false} ExpireWaitsCounts(s: State, queue: seq<PendingWait>, kept: seq<PendingWait>, now: nat, target: nat)
    ensures Count(ExpireWaits(s, queue, kept, now), target) == Count(s, target)
    decreases |queue|
  {
    hide CountReached, Prune, Overdue, AtTarget;
    if queue != [] {
      if !Overdue(queue[0].deadline, now) {
        ExpireWaitsCounts(s, queue[1..], kept + [queue[0]], now, target);
      } else {
        var count := CountReached(s.replication.sessions, s.replication.acknowledged, queue[0].target);
        PruneCounts(s, target);
        var middle := Answer(s.(replication := Prune(s.replication)), queue[0].task, Integer(count));
        ExpireWaitsCounts(middle, queue[1..], kept, now, target);
      }
    }
  }

  /* ---------- The loops ---------- */

  lemma {:induction false} CancelWaitsFate(
    s: State, queue: seq<PendingWait>, kept: seq<PendingWait>, client: ClientId, b: Blocked, o: Occasion)
    requires b.BlockedWait? && OnlyWait(queue, b.wait) && Departs(o.event, client)
    ensures Fate(s, CancelWaits(s, queue, kept, client), b, o, b.wait in kept || b.wait in queue)
    decreases |queue|
  {
    hide Fate, Meets, Departs;
    var t := CancelWaits(s, queue, kept, client);
    if queue == [] {
      FateKept(s, t, b, o, b.wait in kept);
    } else if queue[0].task.client != client {
      CancelWaitsFate(s, queue[1..], kept + [queue[0]], client, b, o);
      assert b.wait in queue ==> b.wait == queue[0] || b.wait in queue[1..];
    } else {
      var middle := Answer(s, queue[0].task, NoResponse);
      CancelWaitsFate(middle, queue[1..], kept, client, b, o);
      if queue[0].task.id == IdOf(b) {
        DepartureMeets(b, o, client);
      }
      var rest := b.wait in kept || b.wait in queue[1..];
      FateAnswered(s, middle, t, queue[0].task, NoResponse, b, o, rest);
      FateWeaker(s, t, b, o, rest || queue[0].task.id == IdOf(b), b.wait in kept || b.wait in queue);
    }
  }

  lemma CountMeets(b: Blocked, o: Occasion, count: nat)
    requires b.BlockedWait? && count == Count(o.after, b.wait.target)
    requires count >= b.wait.required || b.wait.target == 0 || TimeUp(b.wait.deadline, o.event)
    ensures Meets(b, o, Integer(count))
  {
    hide PopAnswer, ReadAnswer, Count, TimeUp;
  }

  lemma {:induction false} RetryWaitsFate(s: State, queue: seq<PendingWait>, kept: seq<PendingWait>, b: Blocked, o: Occasion)
    requires b.BlockedWait? && OnlyWait(queue, b.wait)
    requires Count(RetryWaits(s, queue, kept), b.wait.target) == Count(o.after, b.wait.target)
    ensures Fate(s, RetryWaits(s, queue, kept), b, o, b.wait in kept || b.wait in queue)
    decreases |queue|
  {
    hide Fate, Meets, CountReached, Prune, AtTarget;
    var t := RetryWaits(s, queue, kept);
    if queue == [] {
      FateKept(s, t, b, o, b.wait in kept);
    } else {
      var first := queue[0];
      var count := CountReached(s.replication.sessions, s.replication.acknowledged, first.target);
      CountTrue(s, first.target);
      var pruned := s.(replication := Prune(s.replication));
      if count < first.required {
        RetryWaitsFate(pruned, queue[1..], kept + [first], b, o);
        var rest := b.wait in kept + [first] || b.wait in queue[1..];
        FateMoved(s, pruned, t, b, o, rest);
        FateWeaker(s, t, b, o, rest, b.wait in kept || b.wait in queue);
      } else {
        var middle := Answer(pruned, first.task, Integer(count));
        RetryWaitsFate(middle, queue[1..], kept, b, o);
        if first.task.id == IdOf(b) {
          RetryWaitsCounts(s, queue, kept, b.wait.target);
          CountMeets(b, o, count);
        }
        var rest := b.wait in kept || b.wait in queue[1..];
        FateAnswered(s, middle, t, first.task, Integer(count), b, o, rest);
        FateWeaker(s, t, b, o, rest || first.task.id == IdOf(b), b.wait in kept || b.wait in queue);
      }
    }
  }

  /** Only what is overdue is timed out. */
  lemma {:induction false} ExpireWaitsFate(
    s: State, queue: seq<PendingWait>, kept: seq<PendingWait>, now: nat, b: Blocked, o: Occasion)
    requires b.BlockedWait? && OnlyWait(queue, b.wait)
    requires Count(ExpireWaits(s, queue, kept, now), b.wait.target) == Count(o.after, b.wait.target)
    requires !o.event.Connection? && Clock(o.event) == now
    ensures Fate(s, ExpireWaits(s, queue, kept, now), b, o, b.wait in kept || b.wait in queue)
    decreases |queue|
  {
    hide Fate, Meets, CountReached, Prune, Clock, AtTarget;
    var t := ExpireWaits(s, queue, kept, now);
    if queue == [] {
      FateKept(s, t, b, o, b.wait in kept);
    } else if !Overdue(queue[0].deadline, now) {
      ExpireWaitsFate(s, queue[1..], kept + [queue[0]], now, b, o);
      assert b.wait in queue ==> b.wait == queue[0] || b.wait in queue[1..];
    } else {
      var first := queue[0];
      var count := CountReached(s.replication.sessions, s.replication.acknowledged, first.target);
      CountTrue(s, first.target);
      var middle := Answer(s.(replication := Prune(s.replication)), first.task, Integer(count));
      ExpireWaitsFate(middle, queue[1..], kept, now, b, o);
      if first.task.id == IdOf(b) {
        ExpireWaitsCounts(s, queue, kept, now, b.wait.target);
        CountMeets(b, o, count);
      }
      var rest := b.wait in kept || b.wait in queue[1..];
      FateAnswered(s, middle, t, first.task, Integer(count), b, o, rest);
      FateWeaker(s, t, b, o, rest || first.task.id == IdOf(b), b.wait in kept || b.wait in queue);
    }
  }
}
