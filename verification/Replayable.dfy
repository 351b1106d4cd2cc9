/** Logged commands carry everything that is needed to repeat their effect. */
module Replayable {
  import opened Wrappers
  import opened Decimal
  import opened Resp
  import opened Responses
  import opened Streams
  import opened Keyspace
  import opened Commands
  import opened Effects

  /** Keys and values without expiry times and revisions. */
  type Values = map<Bytes, Value>

  function ValuesOf(db: Db): Values {
    map key | key in db.entries :: db.entries[key].value
  }

  predicate NoExpiry(db: Db) {
    forall key :: key in db.entries ==> db.entries[key].expiresAt == None
  }

  /** SET with EX or PX: its time to live is logged as a duration. */
  predicate ExpiringSet(command: Command) {
    VerbOf(command).Set? && |command| == 5
  }

  /** A command whose effect the log can repeat. */
  predicate Plain(command: Command) {
    Representable(command) && !ExpiringSet(command)
  }

  /** A context that tells a handler nothing: no clock, no timeout that can be read. */
  const NEUTRAL: Context := Context(0, 0, (text: Bytes) => None, [])

  function ValueEntry(values: Values, key: Bytes): Option<Entry> {
    if key in values then Some(Entry(values[key], None)) else None
  }

  function ChangeValues(values: Values, key: Bytes, change: Change): Values {
    match change
    case Keep => values
    case Put(entry) => values[key := entry.value]
    case Remove => values - {key}
  }

  /** The meaning of a logged write; None when it is refused. */
  function ApplyWrite(values: Values, command: Command): Option<Values> {
    if !IsWrite(command) || !ArgumentsValid(command, NEUTRAL) then None
    else
      var verdict := Decide(command, NEUTRAL, ValueEntry(values, command[1]));
      if verdict.response.SimpleError? then None
      else Some(ChangeValues(values, command[1], verdict.change))
  }

  predicate ExplicitId(command: Command) {
    |command| > 2 && ParseIdRequest(command[2]).Some? && ParseIdRequest(command[2]).value.Explicit?
  }

  /** A command as it appears in the log: no blocking pop, no generated identifier. */
  predicate Logged(command: Command) {
    IsWrite(command) && Plain(command) && !VerbOf(command).Blpop? && (VerbOf(command).Xadd? ==> ExplicitId(command))
  }

  /** A logged command does the same whatever the clocks read. */
  lemma LoggedIgnoresContext(command: Command, context: Context, entry: Option<Entry>)
    requires Logged(command) && ArgumentsValid(command, NEUTRAL)
    ensures ArgumentsValid(command, context)
    ensures Decide(command, context, entry) == Decide(command, NEUTRAL, entry)
  {
    hide VerbOf, ParseSigned, ParseIdRequest, Accepts;
  }

  lemma ApplyValues(db: Db, key: Bytes, change: Change)
    ensures ValuesOf(Apply(db, key, change)) == ChangeValues(ValuesOf(db), key, change)
    ensures NoExpiry(db) && (change.Put? ==> change.entry.expiresAt == None) ==> NoExpiry(Apply(db, key, change))
  {
  }

  lemma SettleNothing(db: Db, key: Bytes, now: nat)
    requires NoExpiry(db)
    ensures Settle(db, key, now) == db
  {
  }

  lemma LookValue(db: Db, key: Bytes)
    requires NoExpiry(db)
    ensures Look(db, key) == ValueEntry(ValuesOf(db), key)
  {
  }

  lemma LpopNamed(key: Bytes)
    ensures VerbOf(["LPOP", key]) == Lpop
  {
  }

  /** What the log has to say about a verdict: it is repeated exactly, or there is nothing to repeat. */
  predicate Repeats(command: Command, verdict: Verdict, entry: Option<Entry>)
    requires IsWrite(command) && |command| >= 2
  {
    if Modified(command, verdict.response) then
      var logged := Normalize(command, verdict.response);
      && IsWrite(logged) && !VerbOf(logged).Blpop? && (VerbOf(logged).Xadd? ==> ExplicitId(logged))
      && ArgumentsValid(logged, NEUTRAL)
      && logged[1] == command[1]
      && Decide(logged, NEUTRAL, entry).change == verdict.change
      && !Decide(logged, NEUTRAL, entry).response.SimpleError?
    else verdict.change == Keep
  }

  /** The normalised command asks for its identifier explicitly and is otherwise the same. */
  lemma XaddLogged(command: Command, context: Context, id: StreamId)
    requires VerbOf(command).Xadd? && ArgumentsValid(command, context) && InRange(id) && id != ZERO_ID
    ensures var logged := command[2 := PrintId(id)];
            && VerbOf(logged).Xadd? && ArgumentsValid(logged, NEUTRAL) && ExplicitId(logged)
            && logged[1] == command[1] && logged[3..] == command[3..]
            && ParseIdRequest(logged[2]) == Some(Explicit(id.milliseconds, id.sequence))
  {
    hide VerbNamed, PrintId, ParseIdRequest;
    PrintedIdIsExplicit(id);
    var logged := command[2 := PrintId(id)];
    assert logged[0] == command[0];
  }

  lemma AboveZero(id: StreamId)
    requires Less(ZERO_ID, id)
    ensures id != ZERO_ID
  {
  }

  /** A stream entry with a generated identifier is repeated with that identifier. */
  lemma XaddRepeats(command: Command, context: Context, entry: Option<Entry>)
    requires VerbOf(command).Xadd? && ArgumentsValid(command, context) && ClockSet(context)
    requires entry.Some? ==> EntryOk(entry.value)
    ensures Repeats(command, Decide(command, context, entry), entry)
  {
    XaddProper(command, context);
    hide VerbOf, ArgumentsValid, PairUp, Less, Ordered, PrintId, ParseIdRequest, ChooseId, Accepts, ExplicitId;
    var request := ParseIdRequest(command[2]).value;
    var entries := if entry.Some? && entry.value.value.Stream? then entry.value.value.entries else [];
    var id := ChooseId(entries, request, context.wall);
    EmptyAccepts(id);
    ExplicitChosen(entries, id);
    if Accepts(entries, id) && (entry.Some? ==> entry.value.value.Stream?) {
      ChosenIdPositive(entries, request, context.wall);
      AboveZero(id);
      XaddLogged(command, context, id);
    }
  }

  lemma XaddProper(command: Command, context: Context)
    requires VerbOf(command).Xadd? && ArgumentsValid(command, context)
    ensures |command| >= 5 && ParseIdRequest(command[2]).Some? && ProperRequest(ParseIdRequest(command[2]).value)
  {
    hide VerbOf, ParseIdRequest;
    ParsedRequestProper(command[2]);
  }

  lemma EmptyAccepts(id: StreamId)
    ensures Accepts([], id)
  {
  }

  lemma ExplicitChosen(entries: seq<StreamEntry>, id: StreamId)
    ensures ChooseId(entries, Explicit(id.milliseconds, id.sequence), 0) == id
  {
  }

  /** A blocking pop is repeated as a plain pop. */
  lemma BlpopRepeats(command: Command, context: Context, entry: Option<Entry>)
    requires VerbOf(command).Blpop? && ArgumentsValid(command, context)
    ensures Repeats(command, Decide(command, context, entry), entry)
  {
    LpopNamed(command[1]);
    hide VerbOf;
  }

  /** Every other write is repeated as it was given. */
  lemma WriteRepeats(command: Command, context: Context, entry: Option<Entry>)
    requires IsWrite(command) && !VerbOf(command).Blpop? && !VerbOf(command).Xadd? && !ExpiringSet(command)
    requires ArgumentsValid(command, context)
    requires entry.Some? ==> EntryOk(entry.value)
    ensures Repeats(command, Decide(command, context, entry), entry)
  {
    hide VerbOf, ParseSigned, Reverse, PrintInt;
  }

  lemma DecideRepeats(command: Command, context: Context, entry: Option<Entry>)
    requires IsWrite(command) && !ExpiringSet(command)
    requires ArgumentsValid(command, context) && ClockSet(context)
    requires entry.Some? ==> EntryOk(entry.value)
    ensures Repeats(command, Decide(command, context, entry), entry)
  {
    hide VerbOf, ArgumentsValid, Decide, Repeats, EntryOk;
    if VerbOf(command).Xadd? {
      XaddRepeats(command, context, entry);
    } else if VerbOf(command).Blpop? {
      BlpopRepeats(command, context, entry);
    } else {
      WriteRepeats(command, context, entry);
    }
  }

  /** Reads change nothing, and no plain write creates an expiry. */
  lemma DecideShape(command: Command, context: Context, entry: Option<Entry>)
    requires KeyVerb(VerbOf(command)) && ArgumentsValid(command, context) && !ExpiringSet(command)
    requires entry.Some? ==> entry.value.expiresAt == None
    ensures !IsWrite(command) ==> Decide(command, context, entry).change == Keep
    ensures Decide(command, context, entry).change.Put? ==> Decide(command, context, entry).change.entry.expiresAt == None
  {
    hide VerbOf, ParseSigned, Reverse, PrintInt, ParseIdRequest, ChooseId, Accepts, ListSlice, Range;
  }

  lemma NormalizedPlain(command: Command, response: Response)
    requires Plain(command) && IsWrite(command) && |command| >= 2
    requires response.BulkString? && VerbOf(command).Xadd? ==> |response.value| < U64_LIMIT
    requires IsWrite(Normalize(command, response)) && !VerbOf(Normalize(command, response)).Blpop?
    requires VerbOf(Normalize(command, response)).Xadd? ==> ExplicitId(Normalize(command, response))
    ensures Logged(Normalize(command, response))
  {
    LpopNamed(command[1]);
    hide VerbOf;
  }

  lemma PrintIdLength(id: StreamId)
    requires InRange(id)
    ensures |PrintId(id)| <= 41
  {
    PrintU64Length(id.milliseconds);
    PrintU64Length(id.sequence);
  }

  lemma XaddResponseShort(command: Command, context: Context, entry: Option<Entry>)
    requires VerbOf(command).Xadd? && ArgumentsValid(command, context) && ClockSet(context)
    requires entry.Some? ==> EntryOk(entry.value)
    ensures var response := Decide(command, context, entry).response;
            response.BulkString? ==> |response.value| < U64_LIMIT
  {
    hide VerbNamed, PairUp, Less, Ordered, PrintId, ParseIdRequest;
    var request := ParseIdRequest(command[2]).value;
    var entries := if entry.Some? && entry.value.value.Stream? then entry.value.value.entries else [];
    var id := ChooseId(entries, request, context.wall);
    ParsedRequestProper(command[2]);
    if Accepts(entries, id) {
      ChosenIdPositive(entries, request, context.wall);
      PrintIdLength(id);
    }
  }

  /** What one command leaves for the log to repeat. */
  ghost predicate LogRepeats(before: Db, command: Command, outcome: Outcome) {
    && NoExpiry(outcome.db)
    && if IsWrite(command) && Modified(command, outcome.response) then
         && Logged(Normalize(command, outcome.response))
         && ApplyWrite(ValuesOf(before), Normalize(command, outcome.response)) == Some(ValuesOf(outcome.db))
       else ValuesOf(outcome.db) == ValuesOf(before)
  }

  lemma DispatchKeyRepeats(db: Db, command: Command, context: Context)
    requires KeyVerb(VerbOf(command)) && ArgumentsValid(command, context)
    requires NoExpiry(db) && EntriesOk(db) && Plain(command) && ClockSet(context)
    ensures LogRepeats(db, command, DispatchKey(db, command, context))
  {
    hide VerbOf, ArgumentsValid, Decide, EntryOk, Apply, Settle, Look, NoExpiry, ValuesOf, Normalize, Modified, Plain;
    var key := command[1];
    SettleNothing(db, key, context.now);
    LookValue(db, key);
    var entry := Look(db, key);
    EntryPlain(db, key);
    PlainShape(command);
    DecideShape(command, context, entry);
    var verdict := Decide(command, context, entry);
    ApplyValues(db, key, verdict.change);
    if IsWrite(command) {
      DecideRepeats(command, context, entry);
      if Modified(command, verdict.response) {
        if VerbOf(command).Xadd? {
          XaddResponseShort(command, context, entry);
        }
        NormalizedPlain(command, verdict.response);
      }
    }
  }

  lemma PlainShape(command: Command)
    requires Plain(command)
    ensures !ExpiringSet(command)
  {
  }

  lemma EntryPlain(db: Db, key: Bytes)
    requires NoExpiry(db) && EntriesOk(db)
    ensures var entry := Look(db, key);
            entry.Some? ==> entry.value.expiresAt == None && EntryOk(entry.value)
  {
    hide EntryOk;
  }

  lemma {:induction false} SweepNothing(db: Db, order: seq<Bytes>, now: nat)
    requires NoExpiry(db)
    ensures Sweep(db, order, now) == db
    decreases |order|
  {
    hide NoExpiry;
    if order != [] {
      SettleNothing(db, order[0], now);
      SweepNothing(db, order[1..], now);
    }
  }

  lemma {:induction false} ResolveNothing(db: Db, requests: seq<ReadRequest>, now: nat)
    requires NoExpiry(db)
    ensures ResolveAll(db, requests, now).db == db
    decreases |requests|
  {
    hide NoExpiry;
    if requests != [] {
      SettleNothing(db, requests[0].key, now);
      ResolveNothing(db, requests[1..], now);
    }
  }

  /**
   On a database without expiries, every command either leaves all values alone and is not logged,
   or is logged in a form that repeats its effect from the same values, at any time, without error.
   */
  lemma DispatchRepeats(db: Db, command: Command, context: Context)
    requires NoExpiry(db) && EntriesOk(db) && Plain(command) && ClockSet(context)
    ensures LogRepeats(db, command, Dispatch(db, command, context))
  {
    assert command == [] ==> VerbOf(command) == Unknown;
    hide VerbOf, ArgumentsValid, DispatchKey, EntriesOk, NoExpiry, ValuesOf, Normalize, ApplyWrite, Plain, ParseXread,
         ResolveAll, Sweep, Survivors, Collect, XreadResponse;
    if command != [] && ArgumentsValid(command, context) {
      if KeyVerb(VerbOf(command)) {
        DispatchKeyRepeats(db, command, context);
      } else if VerbOf(command).Keys? {
        SweepNothing(db, context.order, context.now);
      } else if VerbOf(command).Xread? {
        ResolveNothing(db, ParseXread(command).value.requests, context.now);
      }
    }
  }
}
