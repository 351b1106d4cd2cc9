/** What a snapshot leaves in the database: for each key its last entry that has not expired, with the rest of its time. */
module Loading {
  import opened Wrappers
  import opened Decimal
  import opened Keyspace
  import opened Snapshot
  import opened Processor

  predicate StillValid(entry: StringEntry, unixNow: int) {
    entry.expiresAtUnix.None? || (0 <= unixNow < entry.expiresAtUnix.value)
  }

  /** The same moment on the clock of the server, as far as 63 bits reach. */
  predicate SameMoment(expiresAt: Option<nat>, entry: StringEntry, unixNow: int, now: nat) {
    if entry.expiresAtUnix.None? then expiresAt.None?
    else
      && expiresAt.Some?
      && var left, meant := expiresAt.value - now, entry.expiresAtUnix.value - unixNow;
         if meant < I64_LIMIT then left == meant else left == I64_LIMIT - 1
  }

  predicate NoneFor(entries: seq<StringEntry>, key: Bytes, unixNow: int) {
    forall i :: 0 <= i < |entries| && entries[i].key == key ==> !StillValid(entries[i], unixNow)
  }

  /** One entry after the other. */
  lemma LoadedInTurn(db: Db, entries: seq<StringEntry>, unixNow: int, now: nat)
    requires entries != []
    ensures LoadEntries(db, entries, unixNow, now) ==
            LoadEntries(LoadEntries(db, entries[..1], unixNow, now), entries[1..], unixNow, now)
  {
    hide Apply;
    assert entries[..1][1..] == [];
  }

  lemma OneLoaded(db: Db, entry: StringEntry, unixNow: int, now: nat)
    ensures var held := Look(LoadEntries(db, [entry], unixNow, now), entry.key);
            if !StillValid(entry, unixNow) then held == Look(db, entry.key)
            else
              && held.Some? && held.value.value == Text(entry.value)
              && SameMoment(held.value.expiresAt, entry, unixNow, now)
    ensures forall key :: key != entry.key ==> Look(LoadEntries(db, [entry], unixNow, now), key) == Look(db, key)
  {
  }

  /** A key without a valid entry keeps what it had. */
  lemma {:induction false} NoneForUntouched(db: Db, entries: seq<StringEntry>, unixNow: int, now: nat, key: Bytes)
    requires NoneFor(entries, key, unixNow)
    ensures Look(LoadEntries(db, entries, unixNow, now), key) == Look(db, key)
    decreases |entries|
  {
    if entries != [] {
      assert entries[..1] == [entries[0]];
      LoadedInTurn(db, entries, unixNow, now);
      OneLoaded(db, entries[0], unixNow, now);
      NoneForUntouched(LoadEntries(db, entries[..1], unixNow, now), entries[1..], unixNow, now, key);
    }
  }

  /** The last valid entry of a key is what the key holds. */
  lemma {:induction false} LastValidWins(db: Db, entries: seq<StringEntry>, unixNow: int, now: nat, i: nat)
    requires i < |entries| && StillValid(entries[i], unixNow)
    requires NoneFor(entries[i + 1..], entries[i].key, unixNow)
    ensures var held := Look(LoadEntries(db, entries, unixNow, now), entries[i].key);
            && held.Some? && held.value.value == Text(entries[i].value)
            && SameMoment(held.value.expiresAt, entries[i], unixNow, now)
    decreases |entries|
  {
    hide LoadEntries, Look, SameMoment, StillValid;
    assert entries[..1] == [entries[0]];
    LoadedInTurn(db, entries, unixNow, now);
    var first := LoadEntries(db, entries[..1], unixNow, now);
    if i == 0 {
      OneLoaded(db, entries[0], unixNow, now);
      NoneForUntouched(first, entries[1..], unixNow, now, entries[0].key);
    } else {
      assert entries[1..][i - 1] == entries[i] && entries[1..][i..] == entries[i + 1..];
      LastValidWins(first, entries[1..], unixNow, now, i - 1);
    }
  }
}
