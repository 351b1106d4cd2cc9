/**
 The database as a value: typed entries with lazy expiry and a revision counter per key.
 Every operation of the source is one look at the entry of a key followed by one change to it.
 */
module Keyspace {
  import opened Wrappers
  import opened Decimal
  import opened Streams

  datatype Value =
    | Text(text: Bytes)
    | List(items: seq<Bytes>)
    | Stream(entries: seq<StreamEntry>)

  /** `expiresAt` is a point of the monotone clock. */
  datatype Entry = Entry(value: Value, expiresAt: Option<nat>)

  datatype Db = Db(entries: map<Bytes, Entry>, revisions: map<Bytes, nat>, nextRevision: nat)

  const EMPTY_DB := Db(map[], map[], 1)

  /** What an operation does to the entry of its key. Put and Remove give the key a fresh revision. */
  datatype Change = Keep | Put(entry: Entry) | Remove

  predicate Expired(entry: Entry, now: nat) {
    entry.expiresAt.Some? && now >= entry.expiresAt.value
  }

  /** mark_key_modified. */
  function Mark(db: Db, key: Bytes): Db {
    db.(revisions := db.revisions[key := db.nextRevision], nextRevision := db.nextRevision + 1)
  }

  function Apply(db: Db, key: Bytes, change: Change): Db {
    match change
    case Keep => db
    case Put(entry) => Mark(db.(entries := db.entries[key := entry]), key)
    case Remove => Mark(db.(entries := db.entries - {key}), key)
  }

  /** find_active_entry: an expired entry is removed when it is touched. */
  function Settle(db: Db, key: Bytes, now: nat): Db {
    if key in db.entries && Expired(db.entries[key], now) then Apply(db, key, Remove) else db
  }

  function Look(db: Db, key: Bytes): Option<Entry> {
    if key in db.entries then Some(db.entries[key]) else None
  }

  /** The revision last given to a key, 0 when it never had one. */
  function Revision(db: Db, key: Bytes): nat {
    if key in db.revisions then db.revisions[key] else 0
  }

  /** One pass over the hash table in the order it is visited. */
  function Sweep(db: Db, order: seq<Bytes>, now: nat): Db
    decreases |order|
  {
    if order == [] then db else Sweep(Settle(db, order[0], now), order[1..], now)
  }

  /** The keys such a pass reports. */
  function Survivors(db: Db, order: seq<Bytes>, now: nat): seq<Bytes> {
    if order == [] then []
    else
      var rest := Survivors(db, order[1..], now);
      if order[0] in db.entries && !Expired(db.entries[order[0]], now) then [order[0]] + rest else rest
  }

  /* ---------- Reading several streams ---------- */

  datatype ReadStart = Latest | AfterId(id: StreamId)

  datatype ReadRequest = ReadRequest(key: Bytes, start: ReadStart)

  datatype ReadResult = ReadResult(key: Bytes, entries: seq<StreamEntry>)

  /** The database after the look-ups, the requests with `$` resolved, and the answers; None is WRONG_TYPE. */
  datatype Reading = Reading(db: Db, requests: seq<ReadRequest>, results: Option<seq<ReadResult>>)

  /** The position that `$` stands for. */
  function ResolveRequest(request: ReadRequest, entry: Option<Entry>): ReadRequest {
    if request.start != Latest then request
    else if entry.Some? && entry.value.value.Stream? then
      request.(start := AfterId(LastId(entry.value.value.entries)))
    else request.(start := AfterId(ZERO_ID))
  }

  datatype Resolution = Resolution(db: Db, requests: seq<ReadRequest>, ok: bool)

  /** First pass of read_streams: settle every key, refuse other types, resolve `$`. */
  function ResolveAll(db: Db, requests: seq<ReadRequest>, now: nat): (r: Resolution)
    ensures |r.requests| == |requests|
    decreases |requests|
  {
    if requests == [] then Resolution(db, [], true)
    else
      var settled := Settle(db, requests[0].key, now);
      var entry := Look(settled, requests[0].key);
      if entry.Some? && !entry.value.value.Stream? then Resolution(settled, requests, false)
      else
        var rest := ResolveAll(settled, requests[1..], now);
        Resolution(rest.db, [ResolveRequest(requests[0], entry)] + rest.requests, rest.ok)
  }

  /** What one resolved request has to return. */
  function Available(db: Db, request: ReadRequest): seq<StreamEntry> {
    match Look(db, request.key)
    case Some(Entry(Stream(entries), _)) =>
      (match request.start
       case AfterId(id) => ReadAfter(entries, id)
       case Latest => [])
    case _ => []
  }

  /** Second pass of read_streams: the requests that have entries, in order. */
  function Collect(db: Db, requests: seq<ReadRequest>): seq<ReadResult> {
    if requests == [] then []
    else
      var rest := Collect(db, requests[1..]);
      var entries := Available(db, requests[0]);
      if entries == [] then rest else [ReadResult(requests[0].key, entries)] + rest
  }

  function ReadStreams(db: Db, requests: seq<ReadRequest>, now: nat): Reading {
    var r := ResolveAll(db, requests, now);
    Reading(r.db, r.requests, if r.ok then Some(Collect(r.db, r.requests)) else None)
  }

  /* ---------- What every operation keeps ---------- */

  /** Only texts expire, lists and streams are never empty, and streams are ordered above 0-0. */
  predicate EntryOk(entry: Entry) {
    && (entry.expiresAt.Some? ==> entry.value.Text?)
    && match entry.value
       case Text(_) => true
       case List(items) => items != []
       case Stream(entries) => entries != [] && Ordered(entries) && Positive(entries)
  }

  predicate EntriesOk(db: Db) {
    forall key :: key in db.entries ==> EntryOk(db.entries[key])
  }

  /** Revisions in use are positive and below the next one. */
  predicate RevisionsOk(db: Db) {
    && db.nextRevision >= 1
    && forall key :: key in db.revisions ==> 1 <= db.revisions[key] < db.nextRevision
  }

  predicate DbOk(db: Db) {
    EntriesOk(db) && RevisionsOk(db)
  }

  predicate ChangeOk(change: Change) {
    change.Put? ==> EntryOk(change.entry)
  }

  lemma ApplyOk(db: Db, key: Bytes, change: Change)
    requires DbOk(db) && ChangeOk(change)
    ensures DbOk(Apply(db, key, change))
  {
    hide EntryOk;
  }

  lemma SettleOk(db: Db, key: Bytes, now: nat)
    requires DbOk(db)
    ensures DbOk(Settle(db, key, now))
  {
    ApplyOk(db, key, Remove);
  }

  /* ---------- Lazy expiry against eager expiry ---------- */

  /** The entries a client can see at time `now`. */
  function Active(db: Db, now: nat): map<Bytes, Entry> {
    map key | key in db.entries && !Expired(db.entries[key], now) :: db.entries[key]
  }

  /** The database with all expired entries already removed. */
  function Purge(db: Db, now: nat): Db {
    db.(entries := Active(db, now))
  }

  lemma PurgeActive(db: Db, now: nat)
    ensures Active(Purge(db, now), now) == Active(db, now)
  {
  }

  /** Databases that agree on what is visible now agree on it at every later time. */
  lemma ActiveLater(a: Db, b: Db, now: nat, later: nat)
    requires Active(a, now) == Active(b, now) && now <= later
    ensures Active(a, later) == Active(b, later)
  {
    forall key ensures key in Active(a, later) <==> key in Active(b, later) {
      assert key in Active(a, now) <==> key in Active(b, now);
    }
    forall key | key in Active(a, later) ensures Active(a, later)[key] == Active(b, later)[key] {
      assert key in Active(a, now) && Active(a, now)[key] == Active(b, now)[key];
    }
  }

  /** What a change makes of the visible entries. */
  function Changed(active: map<Bytes, Entry>, key: Bytes, change: Change, now: nat): map<Bytes, Entry> {
    match change
    case Keep => active
    case Put(entry) => if Expired(entry, now) then active - {key} else active[key := entry]
    case Remove => active - {key}
  }

  lemma ApplyActive(db: Db, key: Bytes, change: Change, now: nat)
    ensures Active(Apply(db, key, change), now) == Changed(Active(db, now), key, change, now)
  {
  }

  /** Removing an expired entry is invisible. */
  lemma SettleActive(db: Db, key: Bytes, now: nat)
    ensures Active(Settle(db, key, now), now) == Active(db, now)
  {
    ApplyActive(db, key, Remove, now);
  }

  /** What a look-up sees after settling is the visible entry. */
  lemma LookSettled(db: Db, key: Bytes, now: nat)
    ensures Look(Settle(db, key, now), key)
         == if key in Active(db, now) then Some(Active(db, now)[key]) else None
  {
  }

  /** What a client sees under a key. */
  function Visible(db: Db, key: Bytes, now: nat): Option<Entry> {
    if key in Active(db, now) then Some(Active(db, now)[key]) else None
  }

  /** What a settled database remembers of a key is what is visible. */
  lemma SettledIsVisible(db: Db, key: Bytes, now: nat)
    ensures Look(Settle(db, key, now), key) == Visible(db, key, now)
  {
    LookSettled(db, key, now);
  }

  /* ---------- Revisions detect every change ---------- */

  /** `after` came from `before` by changes: a key with the same revision has the same entry. */
  ghost predicate Evolves(before: Db, after: Db) {
    && before.nextRevision <= after.nextRevision
    && forall key {:trigger Revision(after, key)} ::
         || (Revision(after, key) == Revision(before, key) && Look(after, key) == Look(before, key))
         || before.nextRevision <= Revision(after, key) < after.nextRevision
  }

  lemma EvolvesRefl(db: Db)
    ensures Evolves(db, db)
  {
  }

  lemma EvolvesTrans(a: Db, b: Db, c: Db)
    requires Evolves(a, b) && Evolves(b, c)
    ensures Evolves(a, c)
  {
    hide Revision, Look;
    forall key
      ensures || (Revision(c, key) == Revision(a, key) && Look(c, key) == Look(a, key))
              || a.nextRevision <= Revision(c, key) < c.nextRevision
    {
      assert Revision(b, key) == Revision(b, key);
    }
  }

  lemma ApplyEvolves(db: Db, key: Bytes, change: Change)
    ensures Evolves(db, Apply(db, key, change))
  {
  }

  lemma SettleEvolves(db: Db, key: Bytes, now: nat)
    ensures Evolves(db, Settle(db, key, now))
  {
    ApplyEvolves(db, key, Remove);
  }

  lemma {:induction false} SweepEvolves(db: Db, order: seq<Bytes>, now: nat)
    ensures Evolves(db, Sweep(db, order, now))
    decreases |order|
  {
    hide Evolves, Settle;
    if order == [] {
      EvolvesRefl(db);
    } else {
      var settled := Settle(db, order[0], now);
      SettleEvolves(db, order[0], now);
      SweepEvolves(settled, order[1..], now);
      EvolvesTrans(db, settled, Sweep(settled, order[1..], now));
    }
  }

  lemma {:induction false} ResolveEvolves(db: Db, requests: seq<ReadRequest>, now: nat)
    ensures Evolves(db, ResolveAll(db, requests, now).db)
    decreases |requests|
  {
    hide Evolves, Settle, ResolveRequest;
    if requests == [] {
      EvolvesRefl(db);
    } else {
      var settled := Settle(db, requests[0].key, now);
      SettleEvolves(db, requests[0].key, now);
      ResolveEvolves(settled, requests[1..], now);
      EvolvesTrans(db, settled, ResolveAll(settled, requests[1..], now).db);
    }
  }

  /* ---------- Sweeps and reads keep the rest ---------- */

  lemma {:induction false} SweepOk(db: Db, order: seq<Bytes>, now: nat)
    requires DbOk(db)
    ensures DbOk(Sweep(db, order, now))
    decreases |order|
  {
    hide DbOk, Settle;
    if order != [] {
      SettleOk(db, order[0], now);
      SweepOk(Settle(db, order[0], now), order[1..], now);
    }
  }

  lemma {:induction false} SweepActive(db: Db, order: seq<Bytes>, now: nat)
    ensures Active(Sweep(db, order, now), now) == Active(db, now)
    decreases |order|
  {
    hide Active, Settle;
    if order != [] {
      SettleActive(db, order[0], now);
      SweepActive(Settle(db, order[0], now), order[1..], now);
    }
  }

  /** KEYS reports visible keys only, and all of them when the pass visits the whole table. */
  lemma {:induction false} SurvivorsAreActive(db: Db, order: seq<Bytes>, now: nat)
    ensures forall key :: key in Survivors(db, order, now) <==> key in order && key in Active(db, now)
  {
    if order != [] {
      SurvivorsAreActive(db, order[1..], now);
      assert forall key :: key in order <==> key == order[0] || key in order[1..];
    }
  }

  lemma {:induction false} SurvivorsSame(a: Db, b: Db, order: seq<Bytes>, now: nat)
    requires Active(a, now) == Active(b, now)
    ensures Survivors(a, order, now) == Survivors(b, order, now)
  {
    if order != [] {
      SurvivorsSame(a, b, order[1..], now);
      assert order[0] in Active(a, now) <==> order[0] in Active(b, now);
    }
  }

  lemma {:induction false} ResolveOk(db: Db, requests: seq<ReadRequest>, now: nat)
    requires DbOk(db)
    ensures DbOk(ResolveAll(db, requests, now).db)
    decreases |requests|
  {
    hide DbOk, Settle, ResolveRequest;
    if requests != [] {
      SettleOk(db, requests[0].key, now);
      ResolveOk(Settle(db, requests[0].key, now), requests[1..], now);
    }
  }

  /** Resolution sees only visible entries and changes none of them. */
  lemma {:induction false} ResolveSame(a: Db, b: Db, requests: seq<ReadRequest>, now: nat)
    requires Active(a, now) == Active(b, now)
    ensures var x := ResolveAll(a, requests, now);
            var y := ResolveAll(b, requests, now);
            && Active(x.db, now) == Active(y.db, now) == Active(a, now)
            && x.requests == y.requests && x.ok == y.ok
    decreases |requests|
  {
    hide Active, Settle, ResolveRequest, Look;
    if requests != [] {
      var key := requests[0].key;
      SettleActive(a, key, now);
      SettleActive(b, key, now);
      LookSettled(a, key, now);
      LookSettled(b, key, now);
      ResolveSame(Settle(a, key, now), Settle(b, key, now), requests[1..], now);
    }
  }
}
