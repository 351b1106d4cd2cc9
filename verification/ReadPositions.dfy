/** What XREAD asks for, and that resolving `$` once and collecting later gives exactly that. */
module ReadPositions {
  import opened Decimal
  import opened Streams
  import opened Keyspace
  import opened Commands

  /* ---------- What a read is for ---------- */

  /** The stream under a key; a key without a stream counts as an empty one. */
  function StreamAt(db: Db, key: Bytes): seq<StreamEntry> {
    if key in db.entries && db.entries[key].value.Stream? then db.entries[key].value.entries else []
  }

  /** Above every entry. */
  predicate AboveAll(stream: seq<StreamEntry>, id: StreamId) {
    forall i :: 0 <= i < |stream| ==> Less(stream[i].id, id)
  }

  /** `$` asks for what comes after all that was there when the command was issued. */
  predicate Asked(held: Db, request: ReadRequest, id: StreamId) {
    match request.start
    case AfterId(start) => Less(start, id)
    case Latest => AboveAll(StreamAt(held, request.key), id)
  }

  function AskedOf(held: Db, request: ReadRequest, stream: seq<StreamEntry>): seq<StreamEntry> {
    if stream == [] then []
    else
      var rest := AskedOf(held, request, stream[1..]);
      if Asked(held, request, stream[0].id) then [stream[0]] + rest else rest
  }

  /** The answer to a command issued on `held` that a later database gives. */
  function Due(held: Db, requests: seq<ReadRequest>, later: Db): seq<ReadResult> {
    if requests == [] then []
    else
      var rest := Due(held, requests[1..], later);
      var entries := AskedOf(held, requests[0], StreamAt(later, requests[0].key));
      if entries == [] then rest else [ReadResult(requests[0].key, entries)] + rest
  }

  /** A read command as issued on the database `held`, and a database that answers it. */
  datatype Question = Question(held: Db, requests: seq<ReadRequest>, later: Db)

  /** Both databases hold the same streams. */
  ghost predicate SameStreams(a: Db, b: Db) {
    forall key :: StreamAt(a, key) == StreamAt(b, key)
  }

  /* ---------- Resolving `$` once ---------- */

  function Positioned(db: Db, request: ReadRequest): ReadRequest {
    if request.start.Latest? then request.(start := AfterId(LastId(StreamAt(db, request.key)))) else request
  }

  function PositionAll(db: Db, requests: seq<ReadRequest>): seq<ReadRequest> {
    seq(|requests|, i requires 0 <= i < |requests| => Positioned(db, requests[i]))
  }

  /** Streams never expire. */
  lemma SettleStream(db: Db, key: Bytes, now: nat, other: Bytes)
    requires DbOk(db)
    ensures StreamAt(Settle(db, key, now), other) == StreamAt(db, other)
  {
    if key in db.entries {
      assert EntryOk(db.entries[key]);
    }
    hide DbOk, EntryOk;
  }

  lemma {:induction false} ResolvePositions(db: Db, requests: seq<ReadRequest>, now: nat)
    requires DbOk(db) && ResolveAll(db, requests, now).ok
    ensures ResolveAll(db, requests, now).requests == PositionAll(db, requests)
    decreases |requests|
  {
    hide DbOk, Settle, StreamAt;
    if requests != [] {
      var settled := Settle(db, requests[0].key, now);
      SettleOk(db, requests[0].key, now);
      ResolvePositions(settled, requests[1..], now);
      var r := ResolveAll(db, requests, now);
      forall i | 0 <= i < |requests| ensures r.requests[i] == Positioned(db, requests[i]) {
        SettleStream(db, requests[0].key, now, requests[i].key);
        if i == 0 {
          FirstPositioned(settled, requests[0]);
        } else {
          assert r.requests[i] == ResolveAll(settled, requests[1..], now).requests[i - 1];
        }
      }
    }
  }

  lemma FirstPositioned(db: Db, request: ReadRequest)
    requires Look(db, request.key).Some? ==> Look(db, request.key).value.value.Stream?
    ensures ResolveRequest(request, Look(db, request.key)) == Positioned(db, request)
  {
  }

  predicate AllPositioned(requests: seq<ReadRequest>) {
    forall i :: 0 <= i < |requests| ==> requests[i].start.AfterId?
  }

  /** Resolving again changes nothing. */
  lemma PositionedAlready(db: Db, requests: seq<ReadRequest>)
    requires AllPositioned(requests)
    ensures PositionAll(db, requests) == requests
  {
  }

  /* ---------- A resolved request returns what was asked ---------- */

  lemma LessTrans(a: StreamId, b: StreamId, c: StreamId)
    requires Less(a, b) && Less(b, c)
    ensures Less(a, c)
  {
  }

  /** In an ordered stream, above the last entry is above all. */
  lemma AboveLast(stream: seq<StreamEntry>, id: StreamId)
    requires Ordered(stream) && stream != []
    ensures Less(LastId(stream), id) <==> AboveAll(stream, id)
  {
    hide Less;
    if Less(LastId(stream), id) {
      forall i | 0 <= i < |stream| ensures Less(stream[i].id, id) {
        if i < |stream| - 1 {
          LessTrans(stream[i].id, LastId(stream), id);
        }
      }
    }
  }

  lemma StreamOk(db: Db, key: Bytes)
    requires DbOk(db)
    ensures Ordered(StreamAt(db, key)) && Positive(StreamAt(db, key))
  {
    if key in db.entries {
      assert EntryOk(db.entries[key]);
    }
    hide DbOk, EntriesOk;
  }

  /** The resolved position separates what was asked for, for every identifier that a stream can hold. */
  lemma PositionSeparates(held: Db, request: ReadRequest, id: StreamId)
    requires DbOk(held) && Less(ZERO_ID, id)
    ensures Less(Positioned(held, request).start.id, id) <==> Asked(held, request, id)
  {
    StreamOk(held, request.key);
    hide DbOk, StreamAt, Less, Ordered, Positive, AboveAll;
    if request.start.Latest? {
      var stream := StreamAt(held, request.key);
      if stream == [] {
        EmptyBelow(id);
      } else {
        AboveLast(stream, id);
      }
    }
  }

  lemma EmptyBelow(id: StreamId)
    ensures AboveAll([], id)
  {
  }

  lemma {:induction false} FilterAsked(held: Db, request: ReadRequest, stream: seq<StreamEntry>)
    requires DbOk(held) && Positive(stream)
    ensures FilterAfter(stream, Positioned(held, request).start.id) == AskedOf(held, request, stream)
    decreases |stream|
  {
    hide DbOk, Positioned, Asked, Less;
    if stream != [] {
      PositiveRest(stream);
      FilterAsked(held, request, stream[1..]);
      PositionSeparates(held, request, stream[0].id);
    }
  }

  lemma PositiveRest(stream: seq<StreamEntry>)
    requires stream != [] && Positive(stream)
    ensures Positive(stream[1..]) && Less(ZERO_ID, stream[0].id)
  {
    hide Less;
  }

  lemma AvailableAsked(held: Db, request: ReadRequest, later: Db)
    requires DbOk(held) && DbOk(later)
    ensures Available(later, Positioned(held, request)) == AskedOf(held, request, StreamAt(later, request.key))
  {
    var stream := StreamAt(later, request.key);
    StreamOk(later, request.key);
    hide DbOk, Less, Ordered, Positive, ReadAfter, FilterAfter, AskedOf;
    if stream == [] {
      NothingAvailable(held, request, later);
    } else {
      FilterAsked(held, request, stream);
      ReadAfterIsFilter(stream, Positioned(held, request).start.id);
    }
  }

  lemma NothingAvailable(held: Db, request: ReadRequest, later: Db)
    requires StreamAt(later, request.key) == []
    ensures Available(later, Positioned(held, request)) == [] == AskedOf(held, request, [])
  {
    hide LastId;
  }

  /** Resolved on one database and collected on a later one: exactly what was asked for. */
  lemma {:induction false} CollectDue(held: Db, requests: seq<ReadRequest>, later: Db)
    requires DbOk(held) && DbOk(later)
    ensures Collect(later, PositionAll(held, requests)) == Due(held, requests, later)
    decreases |requests|
  {
    hide DbOk, Positioned, Available, AskedOf, StreamAt;
    if requests != [] {
      CollectDue(held, requests[1..], later);
      AvailableAsked(held, requests[0], later);
      assert PositionAll(held, requests)[1..] == PositionAll(held, requests[1..]);
      assert Positioned(held, requests[0]).key == requests[0].key by { PositionedKey(held, requests[0]); }
    }
  }

  lemma PositionedKey(db: Db, request: ReadRequest)
    ensures Positioned(db, request).key == request.key
  {
  }

  /** Only the streams of the later database matter. */
  lemma {:induction false} DueSame(held: Db, requests: seq<ReadRequest>, a: Db, b: Db)
    requires SameStreams(a, b)
    ensures Due(held, requests, a) == Due(held, requests, b)
    decreases |requests|
  {
    hide AskedOf, StreamAt;
    if requests != [] {
      DueSame(held, requests[1..], a, b);
      assert StreamAt(a, requests[0].key) == StreamAt(b, requests[0].key);
    }
  }

  lemma {:induction false} ResolveStreams(db: Db, requests: seq<ReadRequest>, now: nat)
    requires DbOk(db)
    ensures SameStreams(db, ResolveAll(db, requests, now).db)
    decreases |requests|
  {
    hide DbOk, Settle, StreamAt, ResolveRequest;
    if requests != [] {
      var settled := Settle(db, requests[0].key, now);
      SettleOk(db, requests[0].key, now);
      ResolveStreams(settled, requests[1..], now);
      forall key ensures StreamAt(db, key) == StreamAt(ResolveAll(db, requests, now).db, key) {
        SettleStream(db, requests[0].key, now, key);
        assert StreamAt(settled, key) == StreamAt(ResolveAll(settled, requests[1..], now).db, key);
      }
    }
  }

  lemma SameTrans(a: Db, b: Db, c: Db)
    requires SameStreams(a, b) && SameStreams(b, c)
    ensures SameStreams(a, c) && SameStreams(b, a)
  {
    hide StreamAt;
  }

  /** A reading of resolved requests tells the truth about the database they were resolved on. */
  lemma ReadingDue(question: Question, db: Db, now: nat)
    requires DbOk(question.held) && DbOk(db) && SameStreams(db, question.later)
    requires ReadStreams(db, PositionAll(question.held, question.requests), now).results.Some?
    ensures var pending := PositionAll(question.held, question.requests);
            var reading := ReadStreams(db, pending, now);
            reading.requests == pending && reading.results.value == Due(question.held, question.requests, question.later)
  {
    var pending := PositionAll(question.held, question.requests);
    ReadResolved(db, pending, now);
    assert AllPositioned(pending) by {
      hide DbOk, StreamAt, LastId;
    }
    hide DbOk, ReadStreams, XreadResponse, Collect, PositionAll, AllPositioned, SameStreams;
    PositionedAlready(db, pending);
    CollectLater(question, db, ReadStreams(db, pending, now).db);
  }

  lemma CollectLater(question: Question, db: Db, after: Db)
    requires DbOk(question.held) && DbOk(after) && SameStreams(db, after) && SameStreams(db, question.later)
    ensures Collect(after, PositionAll(question.held, question.requests)) == Due(question.held, question.requests, question.later)
  {
    hide DbOk, Collect, PositionAll, Due, SameStreams;
    CollectDue(question.held, question.requests, after);
    SameTrans(db, after, after) by { SameItself(after); }
    SameTrans(after, db, question.later);
    DueSame(question.held, question.requests, after, question.later);
  }

  lemma SameItself(db: Db)
    ensures SameStreams(db, db)
  {
  }

  lemma ReadResolved(db: Db, requests: seq<ReadRequest>, now: nat)
    requires DbOk(db) && ReadStreams(db, requests, now).results.Some?
    ensures var reading := ReadStreams(db, requests, now);
            && DbOk(reading.db) && SameStreams(db, reading.db) && reading.requests == PositionAll(db, requests)
            && reading.results.value == Collect(reading.db, reading.requests)
  {
    hide DbOk, ResolveAll, Collect, PositionAll, SameStreams;
    ResolvePositions(db, requests, now);
    ResolveOk(db, requests, now);
    ResolveStreams(db, requests, now);
  }

  /** The first reading, which resolves `$`. */
  lemma FirstReadingDue(question: Question, now: nat)
    requires DbOk(question.held) && ReadStreams(question.held, question.requests, now).results.Some?
    requires SameStreams(question.held, question.later)
    ensures var reading := ReadStreams(question.held, question.requests, now);
            && reading.requests == PositionAll(question.held, question.requests)
            && reading.results.value == Due(question.held, question.requests, question.later)
  {
    hide DbOk, ReadStreams, XreadResponse, Collect, PositionAll, SameStreams;
    ReadResolved(question.held, question.requests, now);
    CollectLater(question, question.held, ReadStreams(question.held, question.requests, now).db);
  }

  lemma ReadKeepsStreams(db: Db, requests: seq<ReadRequest>, now: nat, later: Db)
    requires DbOk(db) && SameStreams(db, later)
    ensures DbOk(ReadStreams(db, requests, now).db) && SameStreams(ReadStreams(db, requests, now).db, later)
  {
    hide DbOk, ResolveAll, Collect, SameStreams;
    ResolveOk(db, requests, now);
    ResolveStreams(db, requests, now);
    SameBack(db, ResolveAll(db, requests, now).db, later);
  }

  lemma SameBack(a: Db, b: Db, c: Db)
    requires SameStreams(a, b) && SameStreams(a, c)
    ensures SameStreams(b, c)
  {
    hide StreamAt;
  }

  lemma ReadingStart(db: Db, requests: seq<ReadRequest>, now: nat, later: Db)
    requires DbOk(db) && SameStreams(ReadStreams(db, requests, now).db, later)
    ensures SameStreams(db, later)
  {
    hide DbOk, ReadStreams, SameStreams;
    SameItself(db);
    ReadKeepsStreams(db, requests, now, db);
    SameBack(ReadStreams(db, requests, now).db, db, later);
  }

  /* ---------- What `$` means ---------- */

  lemma {:induction false} AskedAbove(held: Db, request: ReadRequest, stream: seq<StreamEntry>, entry: StreamEntry)
    requires entry in AskedOf(held, request, stream)
    ensures entry in stream && Asked(held, request, entry.id)
    decreases |stream|
  {
    hide Asked;
    if stream != [] {
      if entry in AskedOf(held, request, stream[1..]) {
        AskedAbove(held, request, stream[1..], entry);
      }
    }
  }

  /** Every returned entry belongs to a request; under `$` it exceeds all that the stream held. */
  lemma {:induction false} DollarReadsOnlyNew(held: Db, requests: seq<ReadRequest>, later: Db, i: nat, entry: StreamEntry)
    returns (m: nat)
    requires i < |Due(held, requests, later)| && entry in Due(held, requests, later)[i].entries
    ensures m < |requests| && requests[m].key == Due(held, requests, later)[i].key && entry in StreamAt(later, requests[m].key)
    ensures requests[m].start.Latest? ==> AboveAll(StreamAt(held, requests[m].key), entry.id)
    ensures requests[m].start.AfterId? ==> Less(requests[m].start.id, entry.id)
    decreases |requests|
  {
    hide AskedOf, StreamAt, AboveAll, Less;
    var entries := AskedOf(held, requests[0], StreamAt(later, requests[0].key));
    if entries != [] && i == 0 {
      m := 0;
      AskedAbove(held, requests[0], StreamAt(later, requests[0].key), entry);
    } else {
      m := DollarReadsOnlyNew(held, requests[1..], later, if entries == [] then i else i - 1, entry);
      m := m + 1;
    }
  }
}
