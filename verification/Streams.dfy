/** Stream identifiers, the three ways of choosing the next one, and reads of an ordered stream. */
module Streams {
  import opened Wrappers
  import opened Decimal

  /** Both parts are 64-bit unsigned numbers in the source; see `InRange`. */
  datatype StreamId = StreamId(milliseconds: nat, sequence: nat)

  const ZERO_ID := StreamId(0, 0)
  const MAX_ID := StreamId(U64_LIMIT - 1, U64_LIMIT - 1)

  predicate InRange(id: StreamId) {
    id.milliseconds < U64_LIMIT && id.sequence < U64_LIMIT
  }

  predicate Less(a: StreamId, b: StreamId) {
    a.milliseconds < b.milliseconds || (a.milliseconds == b.milliseconds && a.sequence < b.sequence)
  }

  predicate AtMost(a: StreamId, b: StreamId) {
    !Less(b, a)
  }

  datatype StreamEntry = StreamEntry(id: StreamId, fields: seq<(Bytes, Bytes)>)

  datatype IdRequest =
    | Automatic
    | AutomaticSequence(milliseconds: nat)
    | Explicit(milliseconds: nat, sequence: nat)

  /* ---------- Identifier text ---------- */

  function PrintId(id: StreamId): Bytes {
    Print(id.milliseconds) + "-" + Print(id.sequence)
  }

  function FindDash(text: Bytes, from: nat): (r: Option<nat>)
    ensures r.Some? ==> from <= r.value < |text| && text[r.value] == '-'
    decreases |text| - from
  {
    if from >= |text| then None
    else if text[from] == '-' then Some(from)
    else FindDash(text, from + 1)
  }

  /** The two numbers around the first dash, or the whole text and `sequence` when there is none. */
  function ParseIdOr(text: Bytes, sequence: nat): Option<StreamId> {
    match FindDash(text, 0)
    case None =>
      (match ParseU64(text)
       case Some(milliseconds) => Some(StreamId(milliseconds, sequence))
       case None => None)
    case Some(dash) =>
      match (ParseU64(text[..dash]), ParseU64(text[dash + 1..]))
      case (Some(m), Some(s)) => Some(StreamId(m, s))
      case _ => None
  }

  /** parse_read_id. */
  function ParseReadId(text: Bytes): Option<StreamId> {
    ParseIdOr(text, 0)
  }

  function ParseRangeStart(text: Bytes): Option<StreamId> {
    if text == "-" then Some(ZERO_ID) else ParseIdOr(text, 0)
  }

  function ParseRangeStop(text: Bytes): Option<StreamId> {
    if text == "+" then Some(MAX_ID) else ParseIdOr(text, U64_LIMIT - 1)
  }

  /** parse_id: the identifier argument of XADD. */
  function ParseIdRequest(text: Bytes): Option<IdRequest> {
    if text == "*" then Some(Automatic)
    else match FindDash(text, 0)
      case None => None
      case Some(dash) =>
        match ParseU64(text[..dash])
        case None => None
        case Some(milliseconds) =>
          if text[dash + 1..] == "*" then Some(AutomaticSequence(milliseconds))
          else match ParseU64(text[dash + 1..])
            case None => None
            case Some(sequence) => Some(Explicit(milliseconds, sequence))
  }

  lemma {:induction false} FindDashSkips(text: Bytes, from: nat, dash: nat)
    requires from <= dash < |text| && text[dash] == '-'
    requires forall i :: from <= i < dash ==> text[i] != '-'
    ensures FindDash(text, from) == Some(dash)
    decreases dash - from
  {
    if from < dash {
      FindDashSkips(text, from + 1, dash);
    }
  }

  /** A printed identifier splits at its dash. */
  lemma PrintedIdParts(id: StreamId)
    requires InRange(id)
    ensures var text := PrintId(id);
            && FindDash(text, 0) == Some(|Print(id.milliseconds)|)
            && text[..|Print(id.milliseconds)|] == Print(id.milliseconds)
            && text[|Print(id.milliseconds)| + 1..] == Print(id.sequence)
            && ParseU64(Print(id.milliseconds)) == Some(id.milliseconds)
            && ParseU64(Print(id.sequence)) == Some(id.sequence)
  {
    var text := PrintId(id);
    var left := Print(id.milliseconds);
    forall i | 0 <= i < |left| ensures text[i] != '-' {
      assert IsDigit(left[i]);
    }
    FindDashSkips(text, 0, |left|);
    PrintParse(id.milliseconds, U64_LIMIT);
    PrintParse(id.sequence, U64_LIMIT);
  }

  /** Printing an identifier and parsing it as the argument of XADD asks for exactly that identifier. */
  lemma PrintedIdIsExplicit(id: StreamId)
    requires InRange(id)
    ensures ParseIdRequest(PrintId(id)) == Some(Explicit(id.milliseconds, id.sequence))
  {
    hide FindDash, ParseU64;
    PrintedIdParts(id);
    assert IsDigit(Print(id.milliseconds)[0]) && IsDigit(Print(id.sequence)[0]);
    assert PrintId(id)[0] == Print(id.milliseconds)[0];
    assert "*"[0] == '*';
  }

  /** Printing an identifier and parsing it as a read or range bound gives it back. */
  lemma PrintedIdIsBound(id: StreamId)
    requires InRange(id)
    ensures ParseReadId(PrintId(id)) == Some(id)
    ensures ParseRangeStart(PrintId(id)) == Some(id) && ParseRangeStop(PrintId(id)) == Some(id)
  {
    hide FindDash, ParseU64;
    PrintedIdParts(id);
    assert IsDigit(Print(id.milliseconds)[0]);
    assert PrintId(id)[0] == Print(id.milliseconds)[0];
    assert "-"[0] == '-' && "+"[0] == '+';
  }

  /* ---------- Adding entries ---------- */

  /** `sequence + 1` on a 64-bit unsigned number. */
  function Successor(sequence: nat): nat {
    (sequence + 1) % U64_LIMIT
  }

  function LastId(stream: seq<StreamEntry>): StreamId {
    if stream == [] then ZERO_ID else stream[|stream| - 1].id
  }

  /** The identifier that a request leads to; `wall` is the wall clock in milliseconds. */
  function ChooseId(stream: seq<StreamEntry>, request: IdRequest, wall: nat): StreamId {
    var last := LastId(stream);
    match request
    case Explicit(milliseconds, sequence) => StreamId(milliseconds, sequence)
    case AutomaticSequence(milliseconds) =>
      if stream != [] && milliseconds == last.milliseconds then
        StreamId(milliseconds, Successor(last.sequence))
      else StreamId(milliseconds, if milliseconds == 0 then 1 else 0)
    case Automatic =>
      if stream != [] && wall <= last.milliseconds then
        StreamId(last.milliseconds, Successor(last.sequence))
      else StreamId(wall, 0)
  }

  /** add_stream accepts an identifier unless a last entry exists that is not below it. */
  predicate Accepts(stream: seq<StreamEntry>, id: StreamId) {
    stream == [] || Less(LastId(stream), id)
  }

  /** Identifiers strictly increase. */
  predicate Ordered(stream: seq<StreamEntry>) {
    forall i, j :: 0 <= i < j < |stream| ==> Less(stream[i].id, stream[j].id)
  }

  /** Every identifier is a pair of 64-bit numbers above 0-0. */
  predicate Positive(stream: seq<StreamEntry>) {
    forall i :: 0 <= i < |stream| ==> InRange(stream[i].id) && Less(ZERO_ID, stream[i].id)
  }

  /** What parsing and the check of XADD guarantee about a request. */
  predicate ProperRequest(request: IdRequest) {
    match request
    case Automatic => true
    case AutomaticSequence(milliseconds) => milliseconds < U64_LIMIT
    case Explicit(milliseconds, sequence) =>
      milliseconds < U64_LIMIT && sequence < U64_LIMIT && !(milliseconds == 0 && sequence == 0)
  }

  /** An accepted identifier keeps the stream ordered, whatever wraps around or runs backwards. */
  lemma AppendKeepsOrder(stream: seq<StreamEntry>, request: IdRequest, wall: nat, fields: seq<(Bytes, Bytes)>)
    requires Ordered(stream)
    requires Accepts(stream, ChooseId(stream, request, wall))
    ensures Ordered(stream + [StreamEntry(ChooseId(stream, request, wall), fields)])
  {
    var id := ChooseId(stream, request, wall);
    var longer := stream + [StreamEntry(id, fields)];
    forall i, j | 0 <= i < j < |longer| ensures Less(longer[i].id, longer[j].id) {
      if j == |stream| {
        assert Less(LastId(stream), id);
        assert i < |stream| - 1 ==> Less(stream[i].id, stream[|stream| - 1].id);
      }
    }
  }

  /**
   The identifier stays above 0-0 exactly unless the clock reads zero and an automatic identifier is
   asked for on an empty stream: XADD checks only explicit identifiers for 0-0.
   */
  lemma ChosenIdPositive(stream: seq<StreamEntry>, request: IdRequest, wall: nat)
    requires Positive(stream) && ProperRequest(request) && wall < U64_LIMIT
    requires Accepts(stream, ChooseId(stream, request, wall))
    ensures var id := ChooseId(stream, request, wall);
            && InRange(id)
            && (Less(ZERO_ID, id) <==> !(request == Automatic && stream == [] && wall == 0))
  {
    if stream != [] {
      assert Less(ZERO_ID, LastId(stream));
    }
  }

  /** When the sequence number of the last entry cannot grow, an automatic one is refused, never wrapped. */
  lemma ExhaustedSequenceRefused(stream: seq<StreamEntry>, wall: nat)
    requires stream != [] && LastId(stream).sequence == U64_LIMIT - 1
    requires wall <= LastId(stream).milliseconds
    ensures !Accepts(stream, ChooseId(stream, Automatic, wall))
    ensures !Accepts(stream, ChooseId(stream, AutomaticSequence(LastId(stream).milliseconds), wall))
  {
  }

  /** Above the last entry, if there is one. */
  predicate AboveLastEntry(stream: seq<StreamEntry>, id: StreamId) {
    stream != [] ==> Less(LastId(stream), id)
  }

  /**
   An automatic identifier is accepted unless the clock is not past the last entry and its sequence number is
   exhausted, and is then the least one above the last entry that is not before the clock.
   */
  lemma AutomaticIdIsLeast(stream: seq<StreamEntry>, wall: nat)
    requires stream != [] ==> InRange(LastId(stream))
    ensures var id := ChooseId(stream, Automatic, wall);
            var exhausted := stream != [] && wall <= LastId(stream).milliseconds && LastId(stream).sequence == U64_LIMIT - 1;
            && (Accepts(stream, id) <==> !exhausted)
            && (!exhausted ==> id.milliseconds >= wall && AboveLastEntry(stream, id))
            && (!exhausted ==> forall other: StreamId ::
                  other.milliseconds >= wall && AboveLastEntry(stream, other) ==> AtMost(id, other))
  {
  }

  /**
   An automatic sequence number is accepted unless the time is before the last entry, or the same and its
   sequence number is exhausted, and then gives the least identifier of that time above the last entry and 0-0.
   */
  lemma AutomaticSequenceIsLeast(stream: seq<StreamEntry>, milliseconds: nat, wall: nat)
    requires stream != [] ==> InRange(LastId(stream))
    ensures var id := ChooseId(stream, AutomaticSequence(milliseconds), wall);
            var last := LastId(stream);
            var possible := || stream == [] || milliseconds > last.milliseconds
                            || (milliseconds == last.milliseconds && last.sequence < U64_LIMIT - 1);
            && (Accepts(stream, id) <==> possible)
            && (possible ==> id.milliseconds == milliseconds && id != ZERO_ID && AboveLastEntry(stream, id))
            && (possible ==> forall other: StreamId ::
                  other.milliseconds == milliseconds && other != ZERO_ID && AboveLastEntry(stream, other) ==>
                    AtMost(id, other))
  {
  }

  /** An explicit identifier is taken as it is, if it is above the last entry. */
  lemma ExplicitIdIsTaken(stream: seq<StreamEntry>, milliseconds: nat, sequence: nat, wall: nat)
    ensures var id := ChooseId(stream, Explicit(milliseconds, sequence), wall);
            id == StreamId(milliseconds, sequence) && (Accepts(stream, id) <==> AboveLastEntry(stream, id))
  {
  }

  /* ---------- Reading ---------- */

  /** How many leading entries lie below `id`: the position std::ranges::lower_bound returns. */
  function CountBelow(stream: seq<StreamEntry>, id: StreamId): (n: nat)
    ensures n <= |stream|
    ensures forall i :: 0 <= i < n ==> Less(stream[i].id, id)
    ensures n < |stream| ==> !Less(stream[n].id, id)
  {
    if stream == [] || !Less(stream[0].id, id) then 0 else 1 + CountBelow(stream[1..], id)
  }

  /** How many leading entries do not exceed `id`: the position std::ranges::upper_bound returns. */
  function CountAtMost(stream: seq<StreamEntry>, id: StreamId): (n: nat)
    ensures n <= |stream|
    ensures forall i :: 0 <= i < n ==> AtMost(stream[i].id, id)
    ensures n < |stream| ==> !AtMost(stream[n].id, id)
  {
    if stream == [] || !AtMost(stream[0].id, id) then 0 else 1 + CountAtMost(stream[1..], id)
  }

  lemma CountUnique(stream: seq<StreamEntry>, id: StreamId, n: nat)
    requires n <= |stream|
    ensures (forall i :: 0 <= i < n ==> Less(stream[i].id, id)) && (n < |stream| ==> !Less(stream[n].id, id))
            ==> n == CountBelow(stream, id)
    ensures (forall i :: 0 <= i < n ==> AtMost(stream[i].id, id)) && (n < |stream| ==> !AtMost(stream[n].id, id))
            ==> n == CountAtMost(stream, id)
  {
  }

  /** Binary search for the first entry that is not below `id`. */
  method LowerBound(stream: seq<StreamEntry>, id: StreamId) returns (first: nat)
    requires Ordered(stream)
    ensures first == CountBelow(stream, id)
  {
    first := 0;
    var count := |stream|;
    while count > 0
      invariant 0 <= count && first + count <= |stream|
      invariant forall i :: 0 <= i < first ==> Less(stream[i].id, id)
      invariant forall i :: first + count <= i < |stream| ==> !Less(stream[i].id, id)
    {
      var half := count / 2;
      if Less(stream[first + half].id, id) {
        first := first + half + 1;
        count := count - half - 1;
      } else {
        count := half;
      }
    }
    CountUnique(stream, id, first);
  }

  /** Binary search for the first entry above `id`. */
  method UpperBound(stream: seq<StreamEntry>, id: StreamId) returns (first: nat)
    requires Ordered(stream)
    ensures first == CountAtMost(stream, id)
  {
    first := 0;
    var count := |stream|;
    while count > 0
      invariant 0 <= count && first + count <= |stream|
      invariant forall i :: 0 <= i < first ==> AtMost(stream[i].id, id)
      invariant forall i :: first + count <= i < |stream| ==> !AtMost(stream[i].id, id)
    {
      var half := count / 2;
      if AtMost(stream[first + half].id, id) {
        first := first + half + 1;
        count := count - half - 1;
      } else {
        count := half;
      }
    }
    CountUnique(stream, id, first);
  }

  /**
   The entries between two positions. The source builds a vector from the two iterators; when they
   cross, C++ gives that no meaning, and the model answers with no entries.
   */
  function Between(stream: seq<StreamEntry>, first: nat, last: nat): seq<StreamEntry>
    requires last <= |stream|
  {
    if first <= last then stream[first..last] else []
  }

  function Range(stream: seq<StreamEntry>, start: StreamId, end: StreamId): seq<StreamEntry> {
    Between(stream, CountBelow(stream, start), CountAtMost(stream, end))
  }

  function ReadAfter(stream: seq<StreamEntry>, id: StreamId): seq<StreamEntry> {
    stream[CountAtMost(stream, id)..]
  }

  /** The plain filter: entries from `start` to `end` inclusive. */
  function Filter(stream: seq<StreamEntry>, start: StreamId, end: StreamId): seq<StreamEntry> {
    if stream == [] then []
    else
      var rest := Filter(stream[1..], start, end);
      if AtMost(start, stream[0].id) && AtMost(stream[0].id, end) then [stream[0]] + rest else rest
  }

  /** The plain filter: entries above `id`. */
  function FilterAfter(stream: seq<StreamEntry>, id: StreamId): seq<StreamEntry> {
    if stream == [] then []
    else
      var rest := FilterAfter(stream[1..], id);
      if Less(id, stream[0].id) then [stream[0]] + rest else rest
  }

  /** When the matching entries are those of one window, the filter is that window. */
  lemma {:induction false} FilterWindow(stream: seq<StreamEntry>, start: StreamId, end: StreamId, a: nat, b: nat)
    requires a <= b <= |stream|
    requires forall i :: 0 <= i < |stream| ==>
                           (AtMost(start, stream[i].id) && AtMost(stream[i].id, end) <==> a <= i < b)
    ensures Filter(stream, start, end) == stream[a..b]
    decreases |stream|
  {
    if stream != [] {
      var rest := stream[1..];
      forall i | 0 <= i < |rest| ensures rest[i] == stream[i + 1] {
      }
      if a > 0 {
        FilterWindow(rest, start, end, a - 1, b - 1);
        assert stream[a..b] == rest[a - 1..b - 1];
      } else if b > 0 {
        FilterWindow(rest, start, end, 0, b - 1);
        assert stream[0..b] == [stream[0]] + rest[0..b - 1];
      } else {
        FilterWindow(rest, start, end, 0, 0);
      }
    }
  }

  /** XRANGE by binary search is the filter over all entries, and its iterators do not cross for ordered bounds. */
  lemma RangeIsFilter(stream: seq<StreamEntry>, start: StreamId, end: StreamId)
    requires Ordered(stream)
    ensures AtMost(start, end) ==> CountBelow(stream, start) <= CountAtMost(stream, end)
    ensures Range(stream, start, end) == Filter(stream, start, end)
  {
    RangeCrosses(stream, start, end);
    var a, b := CountBelow(stream, start), CountAtMost(stream, end);
    hide CountBelow, CountAtMost;
    if a <= b {
      forall i | 0 <= i < |stream|
        ensures AtMost(start, stream[i].id) && AtMost(stream[i].id, end) <==> a <= i < b
      {
        assert a < i ==> Less(stream[a].id, stream[i].id);
        assert b < i ==> Less(stream[b].id, stream[i].id);
      }
      FilterWindow(stream, start, end, a, b);
    } else {
      FilterWindow(stream, start, end, 0, 0);
    }
  }

  /**
   The two iterators of XRANGE cross exactly when some entry lies strictly between a smaller end
   and a larger start. That is the whole family of calls C++ leaves undefined.
   */
  lemma RangeCrosses(stream: seq<StreamEntry>, start: StreamId, end: StreamId)
    requires Ordered(stream)
    ensures CountBelow(stream, start) > CountAtMost(stream, end)
       <==> exists i :: 0 <= i < |stream| && Less(end, stream[i].id) && Less(stream[i].id, start)
  {
    var first, last := CountBelow(stream, start), CountAtMost(stream, end);
    hide CountBelow, CountAtMost;
    if first > last {
      assert Less(stream[last].id, start);
    } else {
      forall i | 0 <= i < |stream| && Less(end, stream[i].id)
        ensures !Less(stream[i].id, start)
      {
        assert first < i ==> Less(stream[first].id, stream[i].id);
      }
    }
  }

  /** XREAD by binary search is the filter over all entries. */
  lemma {:induction false} ReadAfterIsFilter(stream: seq<StreamEntry>, id: StreamId)
    requires Ordered(stream)
    ensures ReadAfter(stream, id) == FilterAfter(stream, id)
    decreases |stream|
  {
    if stream != [] {
      var rest := stream[1..];
      ReadAfterIsFilter(rest, id);
      if AtMost(stream[0].id, id) {
        assert stream[CountAtMost(rest, id) + 1..] == rest[CountAtMost(rest, id)..];
      } else {
        assert CountAtMost(rest, id) == 0 by {
          assert rest != [] ==> Less(stream[0].id, stream[1].id);
        }
        assert stream == [stream[0]] + rest;
      }
    }
  }
}
