/** The database as the object it is: three fields that its methods update. */
module Store {
  import opened Wrappers
  import opened Decimal
  import opened Responses
  import opened Streams
  import opened Keyspace
  import opened Commands

  datatype Error = KeyNotFound | WrongType | InvalidStreamId | NotInteger

  datatype Result<+T> = Success(value: T) | Failure(error: Error)

  datatype Kind = NoKind | StringKind | ListKind | StreamKind

  /* ---------- What the handlers make of the results ---------- */

  function TextReply(r: Result<Bytes>): Response {
    match r
    case Success(text) => BulkString(text)
    case Failure(error) => if error.KeyNotFound? then NullBulkString else WRONGTYPE
  }

  function KindReply(kind: Kind): Response {
    match kind
    case NoKind => SimpleString("none")
    case StringKind => SimpleString("string")
    case ListKind => SimpleString("list")
    case StreamKind => SimpleString("stream")
  }

  function NumberReply(r: Result<int>): Response {
    match r
    case Success(n) => Integer(n)
    case Failure(error) => if error.WrongType? then WRONGTYPE else ERR
  }

  function SliceReply(r: Result<seq<Bytes>>): Response {
    match r
    case Success(items) => if items == [] then EmptyArray else Array(items)
    case Failure(_) => WRONGTYPE
  }

  function PoppedReply(r: Result<seq<Bytes>>): Response {
    match r
    case Success(items) => Array(items)
    case Failure(error) => if error.KeyNotFound? then NullBulkString else WRONGTYPE
  }

  function BlockingReply(key: Bytes, r: Result<Bytes>): Response {
    match r
    case Success(value) => Array([key, value])
    case Failure(error) => if error.KeyNotFound? then NullArray else WRONGTYPE
  }

  function IdReply(r: Result<StreamId>): Response {
    match r
    case Success(id) => BulkString(PrintId(id))
    case Failure(error) => if error.WrongType? then WRONGTYPE else ERR
  }

  function RangeReply(r: Result<seq<StreamEntry>>): Response {
    match r
    case Success(entries) => ResponseArray(EntryReplies(entries))
    case Failure(_) => ERR
  }

  /** What a pop found. */
  function PoppedOutcome(r: Result<Bytes>): PopOutcome {
    match r
    case Success(value) => Element(value)
    case Failure(error) => if error.KeyNotFound? then NothingThere else NotAList
  }

  /** Binary search needs the order of the streams, and every change keeps it. */
  predicate StreamsOrdered(entries: map<Bytes, Entry>) {
    forall key :: key in entries && entries[key].value.Stream? ==> Ordered(entries[key].value.entries)
  }

  class Database {
    var entries: map<Bytes, Entry>
    var revisions: map<Bytes, nat>
    var nextRevision: nat

    function View(): Db
      reads this
    {
      Db(entries, revisions, nextRevision)
    }

    ghost predicate Valid()
      reads this
    {
      StreamsOrdered(entries)
    }

    constructor ()
      ensures Valid() && View() == EMPTY_DB
    {
      entries, revisions, nextRevision := map[], map[], 1;
    }

    /** mark_key_modified. */
    method MarkModified(key: Bytes)
      modifies this
      ensures View() == Mark(old(View()), key)
    {
      revisions := revisions[key := nextRevision];
      nextRevision := nextRevision + 1;
    }

    /** find_active_entry. */
    method FindActive(key: Bytes, now: nat) returns (entry: Option<Entry>)
      requires Valid()
      modifies this
      ensures Valid()
      ensures View() == Settle(old(View()), key, now)
      ensures entry == Look(View(), key)
    {
      if key !in entries {
        return None;
      }
      if entries[key].expiresAt.Some? && now >= entries[key].expiresAt.value {
        entries := entries - {key};
        MarkModified(key);
        return None;
      }
      return Some(entries[key]);
    }

    /** Stores an entry and marks its key. */
    method Replace(key: Bytes, entry: Entry)
      requires Valid() && (entry.value.Stream? ==> Ordered(entry.value.entries))
      modifies this
      ensures Valid()
      ensures View() == Apply(old(View()), key, Put(entry))
    {
      entries := entries[key := entry];
      MarkModified(key);
    }

    method Set(key: Bytes, value: Bytes, expiry: Option<nat>, now: nat)
      requires Valid()
      modifies this
      ensures Valid()
      ensures View() == Apply(old(View()), key,
                              Put(Entry(Text(value), if expiry.Some? then Some(now + expiry.value) else None)))
    {
      var expiresAt := if expiry.Some? then Some(now + expiry.value) else None;
      Replace(key, Entry(Text(value), expiresAt));
    }

    method Get(key: Bytes, now: nat) returns (r: Result<Bytes>)
      requires Valid()
      modifies this
      ensures Valid()
      ensures View() == Settle(old(View()), key, now)
      ensures DecideGet(Look(View(), key)) == Verdict(Keep, TextReply(r))
    {
      var entry := FindActive(key, now);
      if entry.None? {
        return Failure(KeyNotFound);
      }
      match entry.value.value {
        case Text(text) => return Success(text);
        case List(_) => return Failure(WrongType);
        case Stream(_) => return Failure(WrongType);
      }
    }

    method GetType(key: Bytes, now: nat) returns (kind: Kind)
      requires Valid()
      modifies this
      ensures Valid()
      ensures View() == Settle(old(View()), key, now)
      ensures DecideType(Look(View(), key)) == Verdict(Keep, KindReply(kind))
    {
      var entry := FindActive(key, now);
      if entry.None? {
        return NoKind;
      }
      match entry.value.value {
        case Text(_) => return StringKind;
        case List(_) => return ListKind;
        case Stream(_) => return StreamKind;
      }
    }

    /** keys(): one pass over the table in the order it is visited, erasing on the way. */
    method Keys(order: seq<Bytes>, now: nat) returns (result: seq<Bytes>)
      requires Valid()
      modifies this
      ensures Valid()
      ensures View() == Sweep(old(View()), order, now)
      ensures result == Survivors(old(View()), order, now)
    {
      result := [];
      var i := 0;
      assert order[0..] == order;
      assert [] + Survivors(View(), order, now) == Survivors(View(), order, now);
      while i < |order|
        invariant i <= |order| && Valid()
        invariant Sweep(View(), order[i..], now) == Sweep(old(View()), order, now)
        invariant result + Survivors(View(), order[i..], now) == Survivors(old(View()), order, now)
      {
        ghost var before := View();
        ghost var rest := order[i + 1..];
        assert order[i..][1..] == rest && order[i..][0] == order[i];
        var entry := FindActive(order[i], now);
        SurvivorsSettled(before, order[i], rest, now);
        if entry.Some? {
          assert result + ([order[i]] + Survivors(before, rest, now)) == result + [order[i]] + Survivors(before, rest, now);
          result := result + [order[i]];
        }
        i := i + 1;
      }
      assert result + [] == result;
    }

    method IncrementKey(key: Bytes, now: nat) returns (r: Result<int>)
      requires Valid()
      modifies this
      ensures Valid()
      ensures var settled := Settle(old(View()), key, now);
              var verdict := DecideIncr(Look(settled, key));
              View() == Apply(settled, key, verdict.change) && NumberReply(r) == verdict.response
    {
      var entry := FindActive(key, now);
      if entry.None? {
        Replace(key, Entry(Text(PrintInt(1)), None));
        return Success(1);
      }
      if !entry.value.value.Text? {
        return Failure(WrongType);
      }
      var parsed := ParseSigned(entry.value.value.text, I64_LIMIT);
      if parsed.None? {
        return Failure(NotInteger);
      }
      var n := Increment(parsed.value);
      Replace(key, Entry(Text(PrintInt(n)), entry.value.expiresAt));
      return Success(n);
    }

    method AddListElements(key: Bytes, values: seq<Bytes>, append: bool, now: nat) returns (r: Result<int>)
      requires Valid()
      modifies this
      ensures Valid()
      ensures var settled := Settle(old(View()), key, now);
              var verdict := DecidePush(Look(settled, key), values, append);
              View() == Apply(settled, key, verdict.change) && NumberReply(r) == verdict.response
    {
      var entry := FindActive(key, now);
      if entry.Some? && !entry.value.value.List? {
        return Failure(WrongType);
      }
      var present := if entry.Some? then entry.value.value.items else [];
      var items: seq<Bytes>;
      if append {
        items := present + values;
      } else {
        var reversed := ReverseLoop(values);
        items := reversed + present;
      }
      assert entry.None? && append ==> items == values;
      assert entry.None? && !append ==> items == Reverse(values);
      Replace(key, Entry(List(items), if entry.Some? then entry.value.expiresAt else None));
      return Success(|items|);
    }

    method ListElements(key: Bytes, start: int, stop: int, now: nat) returns (r: Result<seq<Bytes>>)
      requires Valid()
      modifies this
      ensures Valid()
      ensures View() == Settle(old(View()), key, now)
      ensures DecideLrange(Look(View(), key), start, stop) == Verdict(Keep, SliceReply(r))
    {
      var entry := FindActive(key, now);
      if entry.None? {
        return Success([]);
      }
      if !entry.value.value.List? {
        return Failure(WrongType);
      }
      var items := entry.value.value.items;
      var size := |items|;
      if size == 0 {
        return Success([]);
      }
      var first, last := start, stop;
      if first < 0 {
        first := first + size;
      }
      if last < 0 {
        last := last + size;
      }
      if first < 0 {
        first := 0;
      }
      if last >= size {
        last := size - 1;
      }
      if last < 0 || first >= size || first > last {
        return Success([]);
      }
      return Success(items[first..last + 1]);
    }

    method ListLength(key: Bytes, now: nat) returns (r: Result<int>)
      requires Valid()
      modifies this
      ensures Valid()
      ensures View() == Settle(old(View()), key, now)
      ensures DecideLlen(Look(View(), key)) == Verdict(Keep, NumberReply(r))
    {
      var entry := FindActive(key, now);
      if entry.None? {
        return Success(0);
      }
      if !entry.value.value.List? {
        return Failure(WrongType);
      }
      return Success(|entry.value.value.items|);
    }

    /** What is left of a list after a pop: an emptied list goes. */
    method StoreRest(key: Bytes, items: seq<Bytes>, expiresAt: Option<nat>)
      requires Valid()
      modifies this
      ensures Valid()
      ensures View() == Apply(old(View()), key, if items == [] then Remove else Put(Entry(List(items), expiresAt)))
    {
      if items == [] {
        entries := entries - {key};
        MarkModified(key);
      } else {
        Replace(key, Entry(List(items), expiresAt));
      }
    }

    method PopListElement(key: Bytes, now: nat) returns (r: Result<Bytes>)
      requires Valid()
      modifies this
      ensures Valid()
      ensures var settled := Settle(old(View()), key, now);
              var popped := PopOne(Look(settled, key));
              View() == Apply(settled, key, popped.change) && PoppedOutcome(r) == popped.outcome
    {
      var entry := FindActive(key, now);
      if entry.None? {
        return Failure(KeyNotFound);
      }
      if !entry.value.value.List? {
        return Failure(WrongType);
      }
      var items := entry.value.value.items;
      if items == [] {
        return Failure(KeyNotFound);
      }
      StoreRest(key, items[1..], entry.value.expiresAt);
      return Success(items[0]);
    }

    method PopListElements(key: Bytes, count: nat, now: nat) returns (r: Result<seq<Bytes>>)
      requires Valid() && count > 0
      modifies this
      ensures Valid()
      ensures var settled := Settle(old(View()), key, now);
              var verdict := DecideLpopCount(Look(settled, key), count);
              View() == Apply(settled, key, verdict.change) && PoppedReply(r) == verdict.response
    {
      var entry := FindActive(key, now);
      if entry.None? {
        return Failure(KeyNotFound);
      }
      if !entry.value.value.List? {
        return Failure(WrongType);
      }
      var items := entry.value.value.items;
      if items == [] {
        return Failure(KeyNotFound);
      }
      var number := if count < |items| then count else |items|;
      var rest := items;
      var result: seq<Bytes> := [];
      for i := 0 to number
        invariant result == items[..i] && rest == items[i..]
      {
        result := result + [rest[0]];
        rest := rest[1..];
      }
      StoreRest(key, rest, entry.value.expiresAt);
      return Success(result);
    }

    method AddStream(key: Bytes, request: IdRequest, fields: seq<(Bytes, Bytes)>, now: nat, wall: nat) returns (r: Result<StreamId>)
      requires Valid()
      modifies this
      ensures Valid()
      ensures var settled := Settle(old(View()), key, now);
              var verdict := DecideXadd(Look(settled, key), request, fields, wall);
              View() == Apply(settled, key, verdict.change) && IdReply(r) == verdict.response
    {
      hide PrintId, ChooseId;
      var entry := FindActive(key, now);
      if entry.Some? && !entry.value.value.Stream? {
        return Failure(WrongType);
      }
      var stream := if entry.Some? then entry.value.value.entries else [];
      var id := NextId(stream, request, wall);
      if stream != [] && !Less(stream[|stream| - 1].id, id) {
        return Failure(InvalidStreamId);
      }
      AppendKeepsOrder(stream, request, wall, fields);
      assert entry.None? ==> stream + [StreamEntry(id, fields)] == [StreamEntry(id, fields)];
      Replace(key, Entry(Stream(stream + [StreamEntry(id, fields)]), if entry.Some? then entry.value.expiresAt else None));
      return Success(id);
    }

    method StreamRange(key: Bytes, start: StreamId, end: StreamId, now: nat) returns (r: Result<seq<StreamEntry>>)
      requires Valid()
      modifies this
      ensures Valid()
      ensures View() == Settle(old(View()), key, now)
      ensures DecideXrange(Look(View(), key), start, end) == Verdict(Keep, RangeReply(r))
    {
      hide EntryReplies;
      var entry := FindActive(key, now);
      if entry.None? {
        return Failure(KeyNotFound);
      }
      if !entry.value.value.Stream? {
        return Failure(WrongType);
      }
      var first := LowerBound(entry.value.value.entries, start);
      var last := UpperBound(entry.value.value.entries, end);
      return Success(Between(entry.value.value.entries, first, last));
    }

    /** First loop of read_streams: the requests with `$` resolved, and whether no other type was met. */
    method ResolveRequests(requests: seq<ReadRequest>, now: nat) returns (resolved: seq<ReadRequest>, ok: bool)
      requires Valid()
      modifies this
      ensures Valid()
      ensures Resolution(View(), resolved, ok) == ResolveAll(old(View()), requests, now)
    {
      resolved := [];
      assert requests[0..] == requests;
      ResolvedNothing(ResolveAll(View(), requests, now));
      for i := 0 to |requests|
        invariant Valid()
        invariant ResolvedFirst(resolved, ResolveAll(View(), requests[i..], now)) == ResolveAll(old(View()), requests, now)
      {
        ghost var before := View();
        assert requests[i..][1..] == requests[i + 1..] && requests[i..][0] == requests[i];
        var entry := FindActive(requests[i].key, now);
        if entry.Some? && !entry.value.value.Stream? {
          return resolved + requests[i..], false;
        }
        ghost var rest := ResolveAll(View(), requests[i + 1..], now);
        var request := ResolveRequest(requests[i], entry);
        assert resolved + ([request] + rest.requests) == resolved + [request] + rest.requests;
        resolved := resolved + [request];
      }
      assert resolved + [] == resolved;
      return resolved, true;
    }

    /** Second loop of read_streams: what the streams hold behind the resolved positions. */
    method CollectResults(requests: seq<ReadRequest>, now: nat) returns (results: seq<ReadResult>)
      requires Valid() && AllSettled(View(), requests, now)
      requires forall i :: 0 <= i < |requests| ==> requests[i].start != Latest
      modifies this
      ensures Valid() && View() == old(View())
      ensures results == Collect(View(), requests)
    {
      hide Settle;
      results := [];
      assert requests[0..] == requests;
      assert [] + Collect(View(), requests) == Collect(View(), requests);
      for i := 0 to |requests|
        invariant Valid() && View() == old(View())
        invariant results + Collect(View(), requests[i..]) == Collect(View(), requests)
      {
        assert requests[i..][1..] == requests[i + 1..] && requests[i..][0] == requests[i];
        var entry := FindActive(requests[i].key, now);
        if entry.Some? && entry.value.value.Stream? {
          var stream := entry.value.value.entries;
          var first := UpperBound(stream, requests[i].start.id);
          assert Available(View(), requests[i]) == stream[first..];
          if first < |stream| {
            ghost var rest := Collect(View(), requests[i + 1..]);
            var result := ReadResult(requests[i].key, stream[first..]);
            assert results + ([result] + rest) == results + [result] + rest;
            results := results + [result];
          }
        }
      }
      assert results + [] == results;
    }

    method ReadFrom(requests: seq<ReadRequest>, now: nat) returns (resolved: seq<ReadRequest>, r: Result<seq<ReadResult>>)
      requires Valid()
      modifies this
      ensures Valid()
      ensures var reading := ReadStreams(old(View()), requests, now);
              && View() == reading.db && resolved == reading.requests
              && r == if reading.results.Some? then Success(reading.results.value) else Failure(WrongType)
    {
      hide ResolveAll, Collect;
      var ok: bool;
      resolved, ok := ResolveRequests(requests, now);
      if !ok {
        return resolved, Failure(WrongType);
      }
      ResolveSettles(old(View()), requests, now);
      var results := CollectResults(resolved, now);
      return resolved, Success(results);
    }

    /** key_revision: an expired key gets its new revision first. */
    method KeyRevision(key: Bytes, now: nat) returns (revision: nat)
      requires Valid()
      modifies this
      ensures Valid()
      ensures View() == Settle(old(View()), key, now)
      ensures revision == Revision(View(), key)
    {
      var entry := FindActive(key, now);
      if key !in revisions {
        return 0;
      }
      return revisions[key];
    }
  }

  /** The identifier that add_stream gives to a new entry; `sequence + 1` wraps at 64 bits. */
  method NextId(stream: seq<StreamEntry>, request: IdRequest, wall: nat) returns (id: StreamId)
    ensures id == ChooseId(stream, request, wall)
  {
    var last := if stream != [] then stream[|stream| - 1].id else ZERO_ID;
    match request {
      case Explicit(milliseconds, sequence) => id := StreamId(milliseconds, sequence);
      case AutomaticSequence(milliseconds) =>
        var sequence := if milliseconds == 0 then 1 else 0;
        if stream != [] && milliseconds == last.milliseconds {
          sequence := (last.sequence + 1) % U64_LIMIT;
        }
        id := StreamId(milliseconds, sequence);
      case Automatic =>
        if stream != [] && wall <= last.milliseconds {
          id := StreamId(last.milliseconds, (last.sequence + 1) % U64_LIMIT);
        } else {
          id := StreamId(wall, 0);
        }
    }
  }

  method ReverseLoop(values: seq<Bytes>) returns (reversed: seq<Bytes>)
    ensures reversed == Reverse(values)
  {
    reversed := [];
    for i := 0 to |values|
      invariant reversed == Reverse(values[..i])
    {
      ReverseExtended(values[..i], values[i]);
      assert values[..i + 1] == values[..i] + [values[i]];
      reversed := [values[i]] + reversed;
    }
    assert values[..|values|] == values;
  }

  lemma {:induction false} ReverseExtended(values: seq<Bytes>, last: Bytes)
    ensures Reverse(values + [last]) == [last] + Reverse(values)
    decreases |values|
  {
    if values != [] {
      assert (values + [last])[1..] == values[1..] + [last];
      ReverseExtended(values[1..], last);
    }
  }

  /** Settling a key does not change which keys survive. */
  lemma {:induction false} SurvivorsSettled(db: Db, key: Bytes, order: seq<Bytes>, now: nat)
    ensures Survivors(Settle(db, key, now), order, now) == Survivors(db, order, now)
    decreases |order|
  {
    if order != [] {
      SurvivorsSettled(db, key, order[1..], now);
    }
  }

  /* ---------- Reading several streams ---------- */

  predicate AllSettled(db: Db, requests: seq<ReadRequest>, now: nat) {
    forall i :: 0 <= i < |requests| ==> Settle(db, requests[i].key, now) == db
  }

  function ResolvedFirst(done: seq<ReadRequest>, rest: Resolution): Resolution {
    Resolution(rest.db, done + rest.requests, rest.ok)
  }

  lemma ResolvedNothing(rest: Resolution)
    ensures ResolvedFirst([], rest) == rest
  {
    assert [] + rest.requests == rest.requests;
  }

  lemma {:induction false} StaysSettled(db: Db, requests: seq<ReadRequest>, key: Bytes, now: nat)
    requires Settle(db, key, now) == db
    ensures Settle(ResolveAll(db, requests, now).db, key, now) == ResolveAll(db, requests, now).db
    decreases |requests|
  {
    hide ResolveRequest;
    if requests != [] {
      var settled := Settle(db, requests[0].key, now);
      assert Settle(settled, key, now) == settled;
      StaysSettled(settled, requests[1..], key, now);
    }
  }

  /** After the first loop every key is settled and every position resolved. */
  lemma {:induction false} ResolveSettles(db: Db, requests: seq<ReadRequest>, now: nat)
    requires ResolveAll(db, requests, now).ok
    ensures var r := ResolveAll(db, requests, now);
            && AllSettled(r.db, r.requests, now)
            && forall i :: 0 <= i < |r.requests| ==> r.requests[i].start != Latest
    decreases |requests|
  {
    if requests != [] {
      var settled := Settle(db, requests[0].key, now);
      assert Settle(settled, requests[0].key, now) == settled;
      StaysSettled(settled, requests[1..], requests[0].key, now);
      ResolveSettles(settled, requests[1..], now);
    }
  }
}
