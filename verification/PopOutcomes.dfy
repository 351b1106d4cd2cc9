/** The three loops over the blocked pops, and what each does to one of them. */
module PopOutcomes {
  import opened Decimal
  import opened Resp
  import opened Responses
  import opened Keyspace
  import opened Commands
  import opened Channels
  import opened Processor
  import opened Blocking
  import opened Arrival
  import opened Outcomes

  /** No other pop has this promise. */
  predicate OnlyPop(queue: seq<PendingPop>, pop: PendingPop) {
    forall k :: 0 <= k < |queue| && queue[k].task.id == pop.task.id ==> queue[k] == pop
  }

  /* ---------- Cancelling and expiring ---------- */

  lemma {:induction false} CancelPopsFate(
    s: State, queue: seq<PendingPop>, kept: seq<PendingPop>, client: ClientId, b: Blocked, o: Occasion)
    requires b.BlockedPop? && OnlyPop(queue, b.pop) && Departs(o.event, client)
    ensures Fate(s, CancelPops(s, queue, kept, client), b, o, b.pop in kept || b.pop in queue)
    decreases |queue|
  {
    hide Fate, Meets, Departs;
    var t := CancelPops(s, queue, kept, client);
    if queue == [] {
      FateKept(s, t, b, o, b.pop in kept);
    } else if queue[0].task.client != client {
      CancelPopsFate(s, queue[1..], kept + [queue[0]], client, b, o);
      assert b.pop in queue ==> b.pop == queue[0] || b.pop in queue[1..];
    } else {
      var middle := Answer(s, queue[0].task, NoResponse);
      CancelPopsFate(middle, queue[1..], kept, client, b, o);
      if queue[0].task.id == IdOf(b) {
        DepartureMeets(b, o, client);
      }
      var rest := b.pop in kept || b.pop in queue[1..];
      FateAnswered(s, middle, t, queue[0].task, NoResponse, b, o, rest);
      FateWeaker(s, t, b, o, rest || queue[0].task.id == IdOf(b), b.pop in kept || b.pop in queue);
    }
  }

  lemma TimeoutMeets(b: Blocked, o: Occasion, now: nat)
    requires b.BlockedPop? && b.pop.key !in o.after.db.entries && Overdue(b.pop.deadline, now)
    requires !o.event.Connection? && Clock(o.event) == now
    ensures Meets(b, o, NullArray)
  {
    hide ReadAnswer, WaitAnswer, AttemptAnswer;
  }

  /** Only what is overdue is timed out. */
  lemma {:induction false} ExpirePopsFate(
    s: State, queue: seq<PendingPop>, kept: seq<PendingPop>, now: nat, b: Blocked, o: Occasion)
    requires b.BlockedPop? && OnlyPop(queue, b.pop)
    requires b.pop in queue ==> b.pop.key !in o.after.db.entries
    requires !o.event.Connection? && Clock(o.event) == now
    ensures Fate(s, ExpirePops(s, queue, kept, now), b, o, b.pop in kept || b.pop in queue)
    decreases |queue|
  {
    hide Fate, Meets, Overdue, Clock;
    var t := ExpirePops(s, queue, kept, now);
    if queue == [] {
      FateKept(s, t, b, o, b.pop in kept);
    } else if !Overdue(queue[0].deadline, now) {
      ExpirePopsFate(s, queue[1..], kept + [queue[0]], now, b, o);
      assert b.pop in queue ==> b.pop == queue[0] || b.pop in queue[1..];
    } else {
      var middle := Answer(s, queue[0].task, NullArray);
      ExpirePopsFate(middle, queue[1..], kept, now, b, o);
      if queue[0].task.id == IdOf(b) {
        TimeoutMeets(b, o, now);
      }
      var rest := b.pop in kept || b.pop in queue[1..];
      FateAnswered(s, middle, t, queue[0].task, NullArray, b, o, rest);
      FateWeaker(s, t, b, o, rest || queue[0].task.id == IdOf(b), b.pop in kept || b.pop in queue);
    }
  }

  /* ---------- Retrying ---------- */

  lemma RecordFails(s: State, client: ClientId, source: Source, payload: Bytes, env: Env)
    requires !Record(s, client, source, payload, env).ok
    ensures AppendFails(env)
  {
    hide Broadcast;
  }

  /** The answer of an attempt, in terms of the database it leaves. */
  lemma AttemptTells(s: State, task: Task, key: Bytes, env: Env) returns (response: Response)
    requires AttemptPop(s, task, key, env).served
    ensures var t := AttemptPop(s, task, key, env).state;
            t.replies == s.replies + [Reply(task.id, response)] && AttemptAnswer(t.db, key, env, response)
  {
    hide Record, SerializeCommand, Settle, Apply, AppendFails;
    var settled := Settle(s.db, key, env.now);
    var popped := PopOne(Look(settled, key));
    var after := s.(db := Apply(settled, key, popped.change));
    match popped.outcome {
      case Element(value) =>
        var payload := SerializeCommand(["LPOP", key]);
        var recorded := Record(after, task.client, task.source, payload, env);
        RecordReplies(after, task.client, task.source, payload, env);
        if !recorded.ok {
          RecordFails(after, task.client, task.source, payload, env);
        }
        response := if recorded.ok then Array([key, value]) else MISCONF;
      case NotAList =>
        response := WRONGTYPE;
        KeptIsSame(settled, key);
        SettledLasts(s.db, key, env.now);
    }
  }

  lemma KeptIsSame(db: Db, key: Bytes)
    ensures Apply(db, key, Keep) == db
  {
  }

  lemma SettledLasts(db: Db, key: Bytes, now: nat)
    ensures var settled := Settle(db, key, now); key in settled.entries ==> !Expired(settled.entries[key], now)
  {
  }

  /** What is no list is not popped. */
  lemma PopLeavesNoList(db: Db, key: Bytes, now: nat, other: Bytes)
    requires NoList(db, other, now)
    ensures NoList(PopDb(db, key, now), other, now)
  {
  }

  lemma {:induction false} RetryPopsNoList(s: State, queue: seq<PendingPop>, kept: seq<PendingPop>, env: Env, key: Bytes)
    requires NoList(s.db, key, env.now)
    ensures NoList(RetryPops(s, queue, kept, env).db, key, env.now)
    decreases |queue|
  {
    hide AttemptPop, NoList, PopDb, PopFinds;
    if queue != [] {
      var attempt := AttemptPop(s, queue[0].task, queue[0].key, env);
      AttemptShape(s, queue[0].task, queue[0].key, env);
      PopLeavesNoList(s.db, queue[0].key, env.now, key);
      RetryPopsNoList(attempt.state, queue[1..], if attempt.served then kept else kept + [queue[0]], env, key);
    }
  }

  lemma AttemptMeets(b: Blocked, o: Occasion, db: Db, response: Response)
    requires b.BlockedPop? && o.event.Work? && AttemptAnswer(db, b.pop.key, o.event.env, response)
    requires NoList(db, b.pop.key, o.event.env.now) ==> NoList(o.after.db, b.pop.key, o.event.env.now)
    ensures Meets(b, o, response)
  {
    hide ReadAnswer, WaitAnswer, NoList, AppendFails;
  }

  lemma {:induction false} RetryPopsFate(
    s: State, queue: seq<PendingPop>, kept: seq<PendingPop>, env: Env, b: Blocked, o: Occasion)
    requires b.BlockedPop? && OnlyPop(queue, b.pop) && o.event.Work? && o.event.env == env
    requires NoList(RetryPops(s, queue, kept, env).db, b.pop.key, env.now) ==> NoList(o.after.db, b.pop.key, env.now)
    ensures Fate(s, RetryPops(s, queue, kept, env), b, o, b.pop in kept || b.pop in queue)
    decreases |queue|
  {
    hide Fate, Meets, AttemptPop, NoList, AttemptAnswer;
    var t := RetryPops(s, queue, kept, env);
    if queue == [] {
      FateKept(s, t, b, o, b.pop in kept);
    } else {
      var pop := queue[0];
      var attempt := AttemptPop(s, pop.task, pop.key, env);
      if !attempt.served {
        AttemptAnswers(s, pop, env);
        RetryPopsFate(attempt.state, queue[1..], kept + [pop], env, b, o);
        FateMoved(s, attempt.state, t, b, o, b.pop in kept + [pop] || b.pop in queue[1..]);
        FateWeaker(s, t, b, o, b.pop in kept + [pop] || b.pop in queue[1..], b.pop in kept || b.pop in queue);
      } else {
        var response := AttemptTells(s, pop.task, pop.key, env);
        RetryPopsFate(attempt.state, queue[1..], kept, env, b, o);
        if pop.task.id == IdOf(b) {
          if NoList(attempt.state.db, pop.key, env.now) {
            RetryPopsNoList(attempt.state, queue[1..], kept, env, pop.key);
          }
          AttemptMeets(b, o, attempt.state.db, response);
        }
        var rest := b.pop in kept || b.pop in queue[1..];
        FateAnswered(s, attempt.state, t, pop.task, response, b, o, rest);
        FateWeaker(s, t, b, o, rest || pop.task.id == IdOf(b), b.pop in kept || b.pop in queue);
      }
    }
  }
}
