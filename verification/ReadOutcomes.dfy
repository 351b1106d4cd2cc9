/** The three loops over the blocked reads, and what each does to one of them. */
module ReadOutcomes {
  import opened Decimal
  import opened Responses
  import opened Keyspace
  import opened Commands
  import opened Channels
  import opened Processor
  import opened Blocking
  import opened ReadPositions
  import opened Outcomes

  /** No other read has this promise. */
  predicate OnlyRead(queue: seq<PendingRead>, read: PendingRead) {
    forall k :: 0 <= k < |queue| && queue[k].task.id == read.task.id ==> queue[k] == read
  }

  /* ---------- Cancelling and expiring ---------- */

  lemma {:induction false} CancelReadsFate(
    s: State, queue: seq<PendingRead>, kept: seq<PendingRead>, client: ClientId, b: Blocked, o: Occasion)
    requires b.BlockedRead? && OnlyRead(queue, b.read) && Departs(o.event, client)
    ensures Fate(s, CancelReads(s, queue, kept, client), b, o, b.read in kept || b.read in queue)
    decreases |queue|
  {
    hide Fate, Meets, Departs;
    var t := CancelReads(s, queue, kept, client);
    if queue == [] {
      FateKept(s, t, b, o, b.read in kept);
    } else if queue[0].task.client != client {
      CancelReadsFate(s, queue[1..], kept + [queue[0]], client, b, o);
      assert b.read in queue ==> b.read == queue[0] || b.read in queue[1..];
    } else {
      var middle := Answer(s, queue[0].task, NoResponse);
      CancelReadsFate(middle, queue[1..], kept, client, b, o);
      if queue[0].task.id == IdOf(b) {
        DepartureMeets(b, o, client);
      }
      var rest := b.read in kept || b.read in queue[1..];
      FateAnswered(s, middle, t, queue[0].task, NoResponse, b, o, rest);
      FateWeaker(s, t, b, o, rest || queue[0].task.id == IdOf(b), b.read in kept || b.read in queue);
    }
  }

  lemma TimeoutMeets(b: Blocked, o: Occasion, now: nat)
    requires b.BlockedRead? && Due(b.held, b.requests, o.after.db) == [] && Overdue(b.read.deadline, now)
    requires !o.event.Connection? && Clock(o.event) == now
    ensures Meets(b, o, NullArray)
  {
    hide PopAnswer, WaitAnswer, SomeNoStream, XreadResponse, Due;
  }

  /** Only what is overdue is timed out. */
  lemma {:induction false} ExpireReadsFate(
    s: State, queue: seq<PendingRead>, kept: seq<PendingRead>, now: nat, b: Blocked, o: Occasion)
    requires b.BlockedRead? && OnlyRead(queue, b.read)
    requires b.read in queue ==> Due(b.held, b.requests, o.after.db) == []
    requires !o.event.Connection? && Clock(o.event) == now
    ensures Fate(s, ExpireReads(s, queue, kept, now), b, o, b.read in kept || b.read in queue)
    decreases |queue|
  {
    hide Fate, Meets, Overdue, Clock, Due;
    var t := ExpireReads(s, queue, kept, now);
    if queue == [] {
      FateKept(s, t, b, o, b.read in kept);
    } else if !Overdue(queue[0].deadline, now) {
      ExpireReadsFate(s, queue[1..], kept + [queue[0]], now, b, o);
      assert b.read in queue ==> b.read == queue[0] || b.read in queue[1..];
    } else {
      var middle := Answer(s, queue[0].task, NullArray);
      ExpireReadsFate(middle, queue[1..], kept, now, b, o);
      if queue[0].task.id == IdOf(b) {
        TimeoutMeets(b, o, now);
      }
      var rest := b.read in kept || b.read in queue[1..];
      FateAnswered(s, middle, t, queue[0].task, NullArray, b, o, rest);
      FateWeaker(s, t, b, o, rest || queue[0].task.id == IdOf(b), b.read in kept || b.read in queue);
    }
  }

  /** A blocked read that is idle has nothing due. */
  lemma IdleNothingDue(b: Blocked, db: Db)
    requires b.BlockedRead? && Resolved(b) && DbOk(db) && AllIdle(db, b.read.requests)
    ensures Due(b.held, b.requests, db) == []
  {
    IdleCollects(db, b.read.requests);
    hide DbOk, AllIdle, Due, Collect, PositionAll;
    CollectDue(b.held, b.requests, db);
  }

  lemma {:induction false} IdleCollects(db: Db, requests: seq<ReadRequest>)
    requires AllIdle(db, requests)
    ensures Collect(db, requests) == []
  {
    hide Available, Look;
    if requests != [] {
      assert Idle(db, requests[0]);
      IdleCollects(db, requests[1..]);
    }
  }

  /* ---------- What follows a reading in its turn ---------- */

  /** An entry that has not expired is still there. */
  predicate Stays(a: Db, b: Db, key: Bytes, now: nat) {
    key in a.entries && !Expired(a.entries[key], now) ==> key in b.entries && b.entries[key] == a.entries[key]
  }

  lemma {:induction false} ResolveStays(db: Db, requests: seq<ReadRequest>, now: nat, key: Bytes)
    ensures Stays(db, ResolveAll(db, requests, now).db, key, now)
    decreases |requests|
  {
    hide ResolveRequest;
    if requests != [] {
      ResolveStays(Settle(db, requests[0].key, now), requests[1..], now, key);
    }
  }

  /** A reading is refused because some key holds no stream, before and after it. */
  lemma RefusedReading(db: Db, requests: seq<ReadRequest>, now: nat)
    requires ReadStreams(db, requests, now).results.None?
    ensures SomeNoStream(db, requests, now) && SomeNoStream(ReadStreams(db, requests, now).db, requests, now)
  {
    var i := FindNoStream(db, requests, now);
  }

  lemma {:induction false} FindNoStream(db: Db, requests: seq<ReadRequest>, now: nat) returns (i: nat)
    requires !ResolveAll(db, requests, now).ok
    ensures i < |requests|
    ensures NoStream(db, requests[i].key, now) && NoStream(ResolveAll(db, requests, now).db, requests[i].key, now)
    decreases |requests|
  {
    hide ResolveRequest;
    var settled := Settle(db, requests[0].key, now);
    if Look(settled, requests[0].key).Some? && !Look(settled, requests[0].key).value.value.Stream? {
      i := 0;
    } else {
      i := FindNoStream(settled, requests[1..], now);
      assert NoStream(settled, requests[1..][i].key, now);
      i := i + 1;
      SettledHad(db, requests[0].key, now, requests[i].key);
    }
  }

  lemma SettledHad(db: Db, other: Bytes, now: nat, key: Bytes)
    requires NoStream(Settle(db, other, now), key, now)
    ensures NoStream(db, key, now)
  {
  }

  lemma {:induction false} RetryReadsStays(s: State, queue: seq<PendingRead>, kept: seq<PendingRead>, env: Env, key: Bytes)
    ensures Stays(s.db, RetryReads(s, queue, kept, env).db, key, env.now)
    decreases |queue|
  {
    hide ResolveAll, Collect, XreadResponse;
    if queue != [] {
      var reading := ReadStreams(s.db, queue[0].requests, env.now);
      ResolveStays(s.db, queue[0].requests, env.now, key);
      var after := s.(db := reading.db);
      if reading.results.None? {
        RetryReadsStays(Answer(after, queue[0].task, WRONGTYPE), queue[1..], kept, env, key);
      } else if reading.results.value == [] {
        RetryReadsStays(after, queue[1..], kept + [queue[0].(requests := reading.requests)], env, key);
      } else {
        RetryReadsStays(Answer(after, queue[0].task, XreadResponse(reading.results.value)), queue[1..], kept, env, key);
      }
    }
  }

  lemma {:induction false} RetryReadsStreams(s: State, queue: seq<PendingRead>, kept: seq<PendingRead>, env: Env)
    requires DbOk(s.db)
    ensures SameStreams(s.db, RetryReads(s, queue, kept, env).db)
    decreases |queue|
  {
    hide DbOk, ReadStreams, XreadResponse, SameStreams;
    SameItself(s.db);
    if queue != [] {
      var reading := ReadStreams(s.db, queue[0].requests, env.now);
      ReadKeepsStreams(s.db, queue[0].requests, env.now, s.db);
      var after := s.(db := reading.db);
      if reading.results.None? {
        RetryReadsStreams(Answer(after, queue[0].task, WRONGTYPE), queue[1..], kept, env);
      } else if reading.results.value == [] {
        RetryReadsStreams(after, queue[1..], kept + [queue[0].(requests := reading.requests)], env);
      } else {
        RetryReadsStreams(Answer(after, queue[0].task, XreadResponse(reading.results.value)), queue[1..], kept, env);
      }
      SameItself(reading.db);
      SameBack(reading.db, s.db, RetryReads(s, queue, kept, env).db);
    }
  }

  /* ---------- Retrying ---------- */

  /** What the rest of the turn leaves of a database: the same streams, and what is no stream stays. */
  ghost predicate Settles(db: Db, o: Occasion) {
    && SameStreams(db, o.after.db)
    && forall key :: NoStream(db, key, Clock(o.event)) ==> NoStream(o.after.db, key, Clock(o.event))
  }

  lemma EntriesMeet(b: Blocked, o: Occasion, results: seq<ReadResult>)
    requires b.BlockedRead? && results != [] && results == Due(b.held, b.requests, o.after.db)
    ensures Meets(b, o, XreadResponse(results))
  {
    hide PopAnswer, WaitAnswer, SomeNoStream, Due, ReadReplies;
  }

  lemma WrongTypeMeets(b: Blocked, o: Occasion)
    requires b.BlockedRead?
    requires SomeNoStream(o.before.db, b.requests, Clock(o.event)) || SomeNoStream(o.after.db, b.requests, Clock(o.event))
    ensures Meets(b, o, WRONGTYPE)
  {
    hide PopAnswer, WaitAnswer, SomeNoStream, XreadResponse, Due;
  }

  /** A refusal of the resolved requests speaks about the requests as issued. */
  lemma PositionedNoStream(b: Blocked, db: Db, o: Occasion)
    requires b.BlockedRead? && Resolved(b) && SomeNoStream(db, b.read.requests, Clock(o.event)) && Settles(db, o)
    ensures SomeNoStream(o.after.db, b.requests, Clock(o.event))
  {
    hide DbOk, NoStream, SameStreams, Clock;
    var i :| 0 <= i < |b.read.requests| && NoStream(db, b.read.requests[i].key, Clock(o.event));
    PositionedKey(b.held, b.requests[i]);
    assert NoStream(o.after.db, b.requests[i].key, Clock(o.event));
  }

  /** Its turn has come: a blocked read is answered as it may be, or stays with its positions. */
  lemma RetryOne(s: State, env: Env, b: Blocked, o: Occasion)
    requires b.BlockedRead? && Resolved(b) && DbOk(s.db) && o.event.Work? && o.event.env == env
    requires Settles(ReadStreams(s.db, b.read.requests, env.now).db, o)
    ensures var reading := ReadStreams(s.db, b.read.requests, env.now);
            && (reading.results.None? ==> Meets(b, o, WRONGTYPE))
            && (reading.results.Some? ==> reading.requests == b.read.requests)
            && (reading.results.Some? && reading.results.value != [] ==> Meets(b, o, XreadResponse(reading.results.value)))
  {
    hide DbOk, ReadStreams, Meets, XreadResponse, SomeNoStream, PositionAll, Due;
    var reading := ReadStreams(s.db, b.read.requests, env.now);
    if reading.results.None? {
      RefusedReading(s.db, b.read.requests, env.now);
      PositionedNoStream(b, reading.db, o);
      WrongTypeMeets(b, o);
    } else {
      hide SameStreams, NoStream;
      ReadingStart(s.db, b.read.requests, env.now, o.after.db);
      ReadingDue(Question(b.held, b.requests, o.after.db), s.db, env.now);
      if reading.results.value != [] {
        EntriesMeet(b, o, reading.results.value);
      }
    }
  }

  lemma SettlesOn(s: State, queue: seq<PendingRead>, kept: seq<PendingRead>, env: Env, o: Occasion)
    requires DbOk(s.db) && Settles(RetryReads(s, queue, kept, env).db, o) && Clock(o.event) == env.now
    ensures Settles(s.db, o)
  {
    hide DbOk, RetryReads, StreamAt;
    RetryReadsStreams(s, queue, kept, env);
    forall key | NoStream(s.db, key, env.now) ensures NoStream(o.after.db, key, env.now) {
      RetryReadsStays(s, queue, kept, env, key);
      assert NoStream(RetryReads(s, queue, kept, env).db, key, env.now);
    }
  }

  lemma {:induction false} RetryReadsFate(
    s: State, queue: seq<PendingRead>, kept: seq<PendingRead>, env: Env, b: Blocked, o: Occasion)
    requires b.BlockedRead? && Resolved(b) && OnlyRead(queue, b.read) && o.event.Work? && o.event.env == env
    requires DbOk(s.db) && Settles(RetryReads(s, queue, kept, env).db, o)
    ensures Fate(s, RetryReads(s, queue, kept, env), b, o, b.read in kept || b.read in queue)
    decreases |queue|
  {
    hide Fate, Meets, Resolved, Settles, DbOk, ReadStreams, XreadResponse;
    var t := RetryReads(s, queue, kept, env);
    if queue == [] {
      FateKept(s, t, b, o, b.read in kept);
    } else {
      var first := queue[0];
      var reading := ReadStreams(s.db, first.requests, env.now);
      var after := s.(db := reading.db);
      ReadOk(s.db, first.requests, env.now);
      var empty := reading.results.Some? && reading.results.value == [];
      var response := if reading.results.None? then WRONGTYPE else XreadResponse(reading.results.value);
      var next := if empty then after else Answer(after, first.task, response);
      var passed := if empty then kept + [first.(requests := reading.requests)] else kept;
      SettlesOn(next, queue[1..], passed, env, o);
      if first.task.id == IdOf(b) {
        RetryOne(s, env, b, o);
      }
      RetryReadsFate(next, queue[1..], passed, env, b, o);
      var rest := b.read in passed || b.read in queue[1..];
      if empty {
        FateMoved(s, next, t, b, o, rest);
        FateWeaker(s, t, b, o, rest, b.read in kept || b.read in queue);
      } else {
        FateAnswered(s, next, t, first.task, response, b, o, rest);
        FateWeaker(s, t, b, o, rest || first.task.id == IdOf(b), b.read in kept || b.read in queue);
      }
    }
  }

  lemma ReadOk(db: Db, requests: seq<ReadRequest>, now: nat)
    requires DbOk(db)
    ensures DbOk(ReadStreams(db, requests, now).db)
  {
    hide DbOk, ResolveAll, Collect;
    ResolveOk(db, requests, now);
  }
}
