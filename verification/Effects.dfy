/** What running one command does to the database, for every command of the table. */
module Effects {
  import opened Wrappers
  import opened Decimal
  import opened Resp
  import opened Responses
  import opened Streams
  import opened Keyspace
  import opened Commands

  /** The wall clock reads a positive 64-bit number of milliseconds. */
  predicate ClockSet(context: Context) {
    0 < context.wall < U64_LIMIT
  }

  /* ---------- Types and order are kept ---------- */

  lemma ParsedRequestProper(text: Bytes)
    requires ParseIdRequest(text).Some? && ParseIdRequest(text).value != Explicit(0, 0)
    ensures ProperRequest(ParseIdRequest(text).value)
  {
  }

  lemma DecideXaddOk(entry: Option<Entry>, request: IdRequest, fields: seq<(Bytes, Bytes)>, wall: nat)
    requires entry.Some? ==> EntryOk(entry.value)
    requires ProperRequest(request) && 0 < wall < U64_LIMIT
    ensures ChangeOk(DecideXadd(entry, request, fields, wall).change)
  {
    match entry {
      case None => ChosenIdPositive([], request, wall);
      case Some(Entry(Stream(entries), _)) =>
        if Accepts(entries, ChooseId(entries, request, wall)) {
          AppendKeepsOrder(entries, request, wall, fields);
          ChosenIdPositive(entries, request, wall);
        }
      case _ =>
    }
  }

  /** Lists stay non-empty, streams ordered, and only texts carry an expiry. */
  lemma DecideOk(command: Command, context: Context, entry: Option<Entry>)
    requires KeyVerb(VerbOf(command)) && ArgumentsValid(command, context) && ClockSet(context)
    requires entry.Some? ==> EntryOk(entry.value)
    ensures ChangeOk(Decide(command, context, entry).change)
  {
    hide VerbOf, ParseIdRequest, ParseExpiry, ParseCount, DecideXadd, Range, ListSlice;
    if VerbOf(command).Xadd? {
      ParsedRequestProper(command[2]);
      DecideXaddOk(entry, ParseIdRequest(command[2]).value, PairUp(command[3..]), context.wall);
    }
  }

  lemma DispatchKeyOk(db: Db, command: Command, context: Context)
    requires KeyVerb(VerbOf(command)) && ArgumentsValid(command, context)
    requires DbOk(db) && ClockSet(context)
    ensures DbOk(DispatchKey(db, command, context).db)
  {
    hide Decide, ArgumentsValid, VerbOf, Settle, Apply, EntryOk;
    var key := command[1];
    var settled := SettleFor(db, command, context.now);
    SettleOk(db, key, context.now);
    DecideOk(command, context, Look(settled, key));
    ApplyOk(settled, key, Decide(command, context, Look(settled, key)).change);
  }

  /** Every command keeps the typing, ordering and revision invariants of the database. */
  lemma DispatchOk(db: Db, command: Command, context: Context)
    requires DbOk(db) && ClockSet(context)
    ensures DbOk(Dispatch(db, command, context).db)
  {
    hide DispatchKey, ArgumentsValid, VerbOf, DbOk, ResolveAll, Sweep, ParseXread;
    if command != [] && ArgumentsValid(command, context) {
      if KeyVerb(VerbOf(command)) {
        DispatchKeyOk(db, command, context);
      } else if VerbOf(command).Keys? {
        SweepOk(db, context.order, context.now);
      } else if VerbOf(command).Xread? {
        ResolveOk(db, ParseXread(command).value.requests, context.now);
      }
    }
  }

  /** Every command that changes the entry of a key gives it a fresh revision. */
  lemma DispatchEvolves(db: Db, command: Command, context: Context)
    ensures Evolves(db, Dispatch(db, command, context).db)
  {
    hide Decide, ArgumentsValid, VerbOf, Evolves, ResolveAll, Sweep, ParseXread, Settle, Apply, Look;
    EvolvesRefl(db);
    if command != [] && ArgumentsValid(command, context) {
      if KeyVerb(VerbOf(command)) {
        var key := command[1];
        var settled := SettleFor(db, command, context.now);
        var change := Decide(command, context, Look(settled, key)).change;
        SettleEvolves(db, key, context.now);
        ApplyEvolves(settled, key, change);
        EvolvesTrans(db, settled, Apply(settled, key, change));
      } else if VerbOf(command).Keys? {
        SweepEvolves(db, context.order, context.now);
      } else if VerbOf(command).Xread? {
        ResolveEvolves(db, ParseXread(command).value.requests, context.now);
      }
    }
  }

  /* ---------- Lazy expiry refines eager expiry ---------- */

  /** Streams never expire, so what they have to return depends on the visible entries only. */
  lemma {:induction false} CollectSame(a: Db, b: Db, requests: seq<ReadRequest>, now: nat)
    requires Active(a, now) == Active(b, now) && EntriesOk(a) && EntriesOk(b)
    ensures Collect(a, requests) == Collect(b, requests)
  {
    if requests != [] {
      CollectSame(a, b, requests[1..], now);
      AvailableSame(a, b, requests[0], now);
      hide Available;
    }
  }

  lemma AvailableSame(a: Db, b: Db, request: ReadRequest, now: nat)
    requires Active(a, now) == Active(b, now) && EntriesOk(a) && EntriesOk(b)
    ensures Available(a, request) == Available(b, request)
  {
    var key := request.key;
    assert key in Active(a, now) <==> key in Active(b, now);
    if key in Active(a, now) {
      assert a.entries[key] == Active(a, now)[key] == Active(b, now)[key] == b.entries[key];
    } else {
      assert key in a.entries ==> a.entries[key].value.Text?;
      assert key in b.entries ==> b.entries[key].value.Text?;
    }
  }

  lemma SetIgnoresEntry(command: Command, context: Context, entry: Option<Entry>)
    requires VerbOf(command).Set? && ArgumentsValid(command, context)
    ensures Decide(command, context, entry) == Decide(command, context, None)
  {
    hide VerbOf;
  }

  lemma DispatchKeySame(a: Db, b: Db, command: Command, context: Context)
    requires KeyVerb(VerbOf(command)) && ArgumentsValid(command, context)
    requires Active(a, context.now) == Active(b, context.now)
    ensures DispatchKey(a, command, context).response == DispatchKey(b, command, context).response
    ensures Active(DispatchKey(a, command, context).db, context.now)
         == Active(DispatchKey(b, command, context).db, context.now)
  {
    hide ArgumentsValid, Settle, Apply, Active, Look, VerbOf, Decide;
    var key, now := command[1], context.now;
    if VerbOf(command).Set? {
      var change := Decide(command, context, None).change;
      SetIgnoresEntry(command, context, Look(a, key));
      SetIgnoresEntry(command, context, Look(b, key));
      ApplyActive(a, key, change, now);
      ApplyActive(b, key, change, now);
    } else {
      SettleActive(a, key, now);
      SettleActive(b, key, now);
      LookSettled(a, key, now);
      LookSettled(b, key, now);
      var change := Decide(command, context, Look(Settle(a, key, now), key)).change;
      ApplyActive(Settle(a, key, now), key, change, now);
      ApplyActive(Settle(b, key, now), key, change, now);
    }
  }

  /** The response and the entries visible afterwards depend on the visible entries only. */
  lemma DispatchSame(a: Db, b: Db, command: Command, context: Context)
    requires Active(a, context.now) == Active(b, context.now)
    requires DbOk(a) && DbOk(b)
    ensures Dispatch(a, command, context).response == Dispatch(b, command, context).response
    ensures Active(Dispatch(a, command, context).db, context.now)
         == Active(Dispatch(b, command, context).db, context.now)
  {
    hide DispatchKey, ArgumentsValid, VerbOf, Active, ResolveAll, Sweep, ParseXread, Survivors, Collect,
         XreadResponse, EntriesOk;
    if command != [] && ArgumentsValid(command, context) {
      if KeyVerb(VerbOf(command)) {
        DispatchKeySame(a, b, command, context);
      } else if VerbOf(command).Keys? {
        SweepActive(a, context.order, context.now);
        SweepActive(b, context.order, context.now);
        SurvivorsSame(a, b, context.order, context.now);
      } else if VerbOf(command).Xread? {
        var requests := ParseXread(command).value.requests;
        ResolveSame(a, b, requests, context.now);
        ResolveOk(a, requests, context.now);
        ResolveOk(b, requests, context.now);
        var x, y := ResolveAll(a, requests, context.now), ResolveAll(b, requests, context.now);
        CollectSame(x.db, y.db, x.requests, context.now);
      }
    }
  }

  /** A command together with what its handler reads of the outside world. */
  datatype Call = Call(command: Command, context: Context)

  predicate TimesIncrease(calls: seq<Call>, now: nat)
    decreases |calls|
  {
    calls == [] || (now <= calls[0].context.now && TimesIncrease(calls[1..], calls[0].context.now))
  }

  predicate ClocksSet(calls: seq<Call>) {
    forall i :: 0 <= i < |calls| ==> ClockSet(calls[i].context)
  }

  /** The source: expired entries go when they are touched. */
  function LazyRun(db: Db, calls: seq<Call>): seq<Response>
    decreases |calls|
  {
    if calls == [] then []
    else
      var outcome := Dispatch(db, calls[0].command, calls[0].context);
      [outcome.response] + LazyRun(outcome.db, calls[1..])
  }

  /** The reference: all expired entries go before every command. */
  function EagerRun(db: Db, calls: seq<Call>): seq<Response>
    decreases |calls|
  {
    if calls == [] then []
    else
      var outcome := Dispatch(Purge(db, calls[0].context.now), calls[0].command, calls[0].context);
      [outcome.response] + EagerRun(outcome.db, calls[1..])
  }

  lemma PurgeOk(db: Db, now: nat)
    requires DbOk(db)
    ensures DbOk(Purge(db, now))
  {
    hide EntryOk;
  }

  /** Over every run, removing expired keys lazily gives the responses of removing them eagerly. */
  lemma {:induction false} LazyIsEager(lazy: Db, eager: Db, calls: seq<Call>, now: nat)
    requires DbOk(lazy) && DbOk(eager) && Active(lazy, now) == Active(eager, now)
    requires TimesIncrease(calls, now) && ClocksSet(calls)
    ensures LazyRun(lazy, calls) == EagerRun(eager, calls)
    decreases |calls|
  {
    hide Dispatch, DbOk, Active, Purge, ClockSet;
    if calls != [] {
      var call := calls[0];
      var t := call.context.now;
      var purged := Purge(eager, t);
      ActiveLater(lazy, eager, now, t);
      PurgeActive(eager, t);
      PurgeOk(eager, t);
      DispatchSame(lazy, purged, call.command, call.context);
      DispatchOk(lazy, call.command, call.context);
      DispatchOk(purged, call.command, call.context);
      LazyIsEager(Dispatch(lazy, call.command, call.context).db,
                  Dispatch(purged, call.command, call.context).db, calls[1..], t);
    }
  }
}
