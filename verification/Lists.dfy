/** Lists and counters, against definitions that do not follow the handlers. */
module Lists {
  import opened Wrappers
  import opened Decimal
  import opened Responses
  import opened Streams
  import opened Keyspace
  import opened Commands

  predicate Inside(i: int, low: int, high: int) {
    low <= i <= high
  }

  /** The elements whose index lies between two bounds. */
  function Between(items: seq<Bytes>, low: int, high: int, i: nat): seq<Bytes>
    requires i <= |items|
    decreases |items| - i
  {
    if i == |items| then []
    else (if Inside(i, low, high) then [items[i]] else []) + Between(items, low, high, i + 1)
  }

  /** An index counted from the end when it is negative. */
  function Position(index: int, size: nat): int {
    if index < 0 then index + size else index
  }

  lemma {:induction false} WindowBetween(items: seq<Bytes>, low: int, high: int, i: nat, first: nat, next: nat)
    requires i <= |items| && first <= next <= |items|
    requires forall k :: i <= k < |items| ==> (Inside(k, low, high) <==> first <= k < next)
    ensures Between(items, low, high, i) ==
            if i >= next then [] else if i >= first then items[i..next] else items[first..next]
    decreases |items| - i
  {
    hide Inside;
    if i < |items| {
      assert Inside(i, low, high) <==> first <= i < next;
      WindowBetween(items, low, high, i + 1, first, next);
      if first <= i < next {
        assert items[i..next] == [items[i]] + items[i + 1..next];
      }
    }
  }

  /** LRANGE returns the elements whose index lies between the two positions, in order. */
  lemma RangeIsBetween(items: seq<Bytes>, start: int, stop: int)
    ensures ListSlice(items, start, stop) == Between(items, Position(start, |items|), Position(stop, |items|), 0)
  {
    hide Between;
    var size := |items|;
    var a, b := Position(start, size), Position(stop, size);
    var first := if a < 0 then 0 else a;
    var last := if b >= size then size - 1 else b;
    if last < 0 || first >= size || first > last {
      WindowBetween(items, a, b, 0, 0, 0);
    } else {
      WindowBetween(items, a, b, 0, first, last + 1);
    }
  }

  lemma {:induction false} ReversedAt(values: seq<Bytes>, k: nat)
    requires k < |values|
    ensures Reverse(values)[k] == values[|values| - 1 - k]
    decreases |values|
  {
    if k < |values| - 1 {
      ReversedAt(values[1..], k);
    }
  }

  /** LPUSH leaves the last value in front: the k-th element is the k-th value from the end, and the old list follows. */
  lemma PushedInFront(entry: Option<Entry>, values: seq<Bytes>, k: nat)
    requires entry.Some? ==> entry.value.value.List?
    requires k < |values|
    ensures var pushed := DecidePush(entry, values, false).change;
            var present := if entry.Some? then entry.value.value.items else [];
            && pushed.Put? && pushed.entry.value.List?
            && |pushed.entry.value.items| == |values| + |present|
            && pushed.entry.value.items[k] == values[|values| - 1 - k]
            && pushed.entry.value.items[|values|..] == present
  {
    ReversedAt(values, k);
  }

  /** Popping as many elements as were pushed in front returns them, last first, and restores the list. */
  lemma PopUndoesPush(entry: Option<Entry>, values: seq<Bytes>)
    requires values != [] && (entry.Some? ==> entry.value.value.List? && entry.value.value.items != [])
    ensures var pushed := DecidePush(entry, values, false);
            && pushed.change.Put?
            && DecideLpopCount(Some(pushed.change.entry), |values|) ==
               Verdict(if entry.Some? then Put(entry.value) else Remove, Array(Reverse(values)))
  {
    hide Reverse;
    var present := if entry.Some? then entry.value.value.items else [];
    Front(Reverse(values), present);
  }

  lemma Front(first: seq<Bytes>, second: seq<Bytes>)
    ensures (first + second)[..|first|] == first && (first + second)[|first|..] == second
    ensures second == [] ==> first + second == first
  {
  }

  /** INCR stores and reports the successor if and only if the number is below the largest one, and keeps the expiry. */
  lemma IncrAddsOne(text: Bytes, expiresAt: Option<nat>, n: int)
    requires ParseSigned(text, I64_LIMIT) == Some(n)
    ensures var verdict := DecideIncr(Some(Entry(Text(text), expiresAt)));
            && verdict.change.Put? && verdict.change.entry.value.Text? && verdict.change.entry.expiresAt == expiresAt
            && ParseSigned(verdict.change.entry.value.text, I64_LIMIT).Some?
            && verdict.response == Integer(ParseSigned(verdict.change.entry.value.text, I64_LIMIT).value)
            && (verdict.response == Integer(n + 1) <==> n < I64_LIMIT - 1)
  {
    hide PrintInt, ParseSigned;
    PrintParseSigned(Increment(n), I64_LIMIT);
  }
}
