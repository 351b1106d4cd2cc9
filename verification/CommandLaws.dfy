/** What each command of the handler table does and answers, in terms of what a client sees. */
module CommandLaws {
  import opened Wrappers
  import opened Decimal
  import opened Resp
  import opened Responses
  import opened Streams
  import opened Keyspace
  import opened Commands
  import opened Channels
  import opened Processor
  import opened Lists
  import opened ReadBack

  predicate IsNamed(command: Command, name: Bytes) {
    command != [] && command[0] == name
  }

  /* ---------- From the command to its handler ---------- */

  lemma TextVerbs(command: Command)
    ensures IsNamed(command, "SET") ==> VerbOf(command).Set?
    ensures IsNamed(command, "GET") ==> VerbOf(command).Get?
    ensures IsNamed(command, "TYPE") ==> VerbOf(command).Type?
    ensures IsNamed(command, "INCR") ==> VerbOf(command).Incr?
  {
  }

  lemma ListVerbs(command: Command)
    ensures IsNamed(command, "RPUSH") ==> VerbOf(command).Rpush?
    ensures IsNamed(command, "LPUSH") ==> VerbOf(command).Lpush?
    ensures IsNamed(command, "LRANGE") ==> VerbOf(command).Lrange?
    ensures IsNamed(command, "LLEN") ==> VerbOf(command).Llen?
    ensures IsNamed(command, "LPOP") ==> VerbOf(command).Lpop?
    ensures IsNamed(command, "BLPOP") ==> VerbOf(command).Blpop?
  {
  }

  lemma OtherVerbs(command: Command)
    ensures IsNamed(command, "XADD") ==> VerbOf(command).Xadd?
    ensures IsNamed(command, "XRANGE") ==> VerbOf(command).Xrange?
    ensures IsNamed(command, "KEYS") ==> VerbOf(command).Keys?
  {
  }

  /** The entry a handler finds is the visible one, except that SET looks at none. */
  lemma HandlerFinds(db: Db, command: Command, context: Context)
    requires KeyVerb(VerbOf(command)) && ArgumentsValid(command, context) && !VerbOf(command).Set?
    ensures var verdict := Decide(command, context, Visible(db, command[1], context.now));
            var outcome := Dispatch(db, command, context);
            && outcome.response == verdict.response
            && outcome.db == Apply(Settle(db, command[1], context.now), command[1], verdict.change)
  {
    hide VerbOf, ArgumentsValid, Decide, Settle, Apply, Visible;
    assert command != [];
    SettledIsVisible(db, command[1], context.now);
  }

  /** What is visible under a key once a handler has changed it. */
  function Changed(entry: Option<Entry>, change: Change): Option<Entry> {
    match change
    case Keep => entry
    case Put(after) => Some(after)
    case Remove => None
  }

  lemma AppliedIsVisible(db: Db, key: Bytes, change: Change, now: nat, later: nat)
    requires now <= later
    ensures var after := Apply(Settle(db, key, now), key, change);
            var entry := Changed(Visible(db, key, now), change);
            Visible(after, key, later) == if entry.Some? && !Expired(entry.value, later) then entry else None
  {
  }

  /** The response, and what is visible under the key then and later. */
  ghost predicate Leads(db: Db, command: Command, context: Context, response: Response, entry: Option<Entry>)
    requires |command| >= 2
  {
    && Dispatch(db, command, context).response == response
    && forall later: nat :: context.now <= later ==>
         Visible(Dispatch(db, command, context).db, command[1], later) ==
         if entry.Some? && !Expired(entry.value, later) then entry else None
  }

  /** A handler other than SET's in terms of the visible entry. */
  lemma HandlerLeads(db: Db, command: Command, context: Context)
    requires KeyVerb(VerbOf(command)) && ArgumentsValid(command, context) && !VerbOf(command).Set?
    ensures var entry := Visible(db, command[1], context.now);
            var verdict := Decide(command, context, entry);
            Leads(db, command, context, verdict.response, Changed(entry, verdict.change))
  {
    hide VerbOf, ArgumentsValid, Decide, Settle, Apply, Visible, Changed, Dispatch;
    HandlerFinds(db, command, context);
    var entry := Visible(db, command[1], context.now);
    var verdict := Decide(command, context, entry);
    forall later: nat | context.now <= later
      ensures Visible(Dispatch(db, command, context).db, command[1], later) ==
              var after := Changed(entry, verdict.change);
              if after.Some? && !Expired(after.value, later) then after else None
    {
      AppliedIsVisible(db, command[1], verdict.change, context.now, later);
    }
  }

  /* ---------- Texts ---------- */

  /** How long a SET makes its key last, in milliseconds; None is for ever. */
  ghost predicate LastsFor(command: Command, time: Option<nat>)
    requires |command| >= 3
  {
    || (|command| == 3 && time == None)
    || (|command| == 5 && time.Some? && time.value > 0
        && ParseSigned(command[4], I64_LIMIT).Some?
        && var n := ParseSigned(command[4], I64_LIMIT).value;
           (command[3] == "PX" && n == time.value) || (command[3] == "EX" && n * 1000 == time.value))
  }

  /** SET stores the text under its key; the key is gone once its time has passed, and not before. */
  lemma SetLaw(db: Db, command: Command, context: Context, time: Option<nat>, later: nat)
    requires IsNamed(command, "SET") && |command| >= 3 && LastsFor(command, time)
    ensures var outcome := Dispatch(db, command, context);
            && outcome.response == OK
            && Visible(outcome.db, command[1], later) ==
               if time.Some? && later >= context.now + time.value then None
               else Some(Entry(Text(command[2]), if time.Some? then Some(context.now + time.value) else None))
  {
    TextVerbs(command);
    hide VerbOf;
    PlainText(db, command, context);
  }

  lemma PlainText(db: Db, command: Command, context: Context)
    requires VerbOf(command).Set? && ArgumentsValid(command, context)
    ensures Dispatch(db, command, context) ==
            Outcome(Apply(db, command[1], DecideSet(command, context.now).change), DecideSet(command, context.now).response)
  {
    hide VerbNamed, ParseExpiry, DecideSet, Apply;
  }

  /** GET answers with the text that is visible under its key. */
  lemma GetLaw(db: Db, command: Command, context: Context)
    requires IsNamed(command, "GET") && |command| == 2
    ensures var entry := Visible(db, command[1], context.now);
            Leads(db, command, context,
                  if entry.None? then NullBulkString
                  else if entry.value.value.Text? then BulkString(entry.value.value.text) else WRONGTYPE,
                  entry)
  {
    TextVerbs(command);
    hide VerbOf, Visible, Leads;
    HandlerLeads(db, command, context);
  }

  lemma TypeLaw(db: Db, command: Command, context: Context)
    requires IsNamed(command, "TYPE") && |command| == 2
    ensures var entry := Visible(db, command[1], context.now);
            Leads(db, command, context,
                  SimpleString(if entry.None? then "none"
                               else if entry.value.value.Text? then "string"
                               else if entry.value.value.List? then "list" else "stream"),
                  entry)
  {
    TextVerbs(command);
    hide VerbOf, Visible, Leads;
    HandlerLeads(db, command, context);
  }

  /** INCR counts on from the number under its key, from 0 if there is none, and keeps the expiry; other texts are refused. */
  lemma IncrLaw(db: Db, command: Command, context: Context)
    requires IsNamed(command, "INCR") && |command| == 2
    ensures var entry := Visible(db, command[1], context.now);
            var n := if entry.None? then Some(0)
                     else if entry.value.value.Text? then ParseSigned(entry.value.value.text, I64_LIMIT) else None;
            var expiry := if entry.None? then None else entry.value.expiresAt;
            && (entry.Some? && !entry.value.value.Text? ==> Leads(db, command, context, WRONGTYPE, entry))
            && (entry.Some? && entry.value.value.Text? && n.None? ==> Leads(db, command, context, ERR, entry))
            && (n.Some? && n.value < I64_LIMIT - 1 ==>
                  Leads(db, command, context, Integer(n.value + 1), Some(Entry(Text(PrintInt(n.value + 1)), expiry))))
  {
    TextVerbs(command);
    hide VerbOf, Visible, Leads, ParseSigned, PrintInt;
    HandlerLeads(db, command, context);
  }

  /* ---------- Lists ---------- */

  /** The elements under a key; a missing key counts as an empty list, another type as none. */
  function ElementsOf(entry: Option<Entry>): Option<seq<Bytes>> {
    if entry.None? then Some([]) else if entry.value.value.List? then Some(entry.value.value.items) else None
  }

  function ExpiryOf(entry: Option<Entry>): Option<nat> {
    if entry.None? then None else entry.value.expiresAt
  }

  /** A list command on another type is refused and changes nothing. */
  lemma WrongListLaw(db: Db, command: Command, context: Context)
    requires |command| >= 2 && ArgumentsValid(command, context)
    requires || IsNamed(command, "RPUSH") || IsNamed(command, "LPUSH") || IsNamed(command, "LRANGE")
             || IsNamed(command, "LLEN") || IsNamed(command, "LPOP") || IsNamed(command, "BLPOP")
    requires ElementsOf(Visible(db, command[1], context.now)).None?
    ensures Leads(db, command, context, WRONGTYPE, Visible(db, command[1], context.now))
  {
    ListVerbs(command);
    hide VerbOf, Visible, Leads, ParseSigned, ParseCount;
    HandlerLeads(db, command, context);
  }

  /** RPUSH leaves the elements where they are and puts its values behind them, in order. */
  lemma RpushLaw(db: Db, command: Command, context: Context) returns (items: seq<Bytes>)
    requires IsNamed(command, "RPUSH") && |command| >= 3 && ElementsOf(Visible(db, command[1], context.now)).Some?
    ensures var entry := Visible(db, command[1], context.now);
            var present := ElementsOf(entry).value;
            && |items| == |present| + |command| - 2
            && (forall k :: 0 <= k < |present| ==> items[k] == present[k])
            && (forall k :: |present| <= k < |items| ==> items[k] == command[2 + k - |present|])
            && Leads(db, command, context, Integer(|items|), Some(Entry(List(items), ExpiryOf(entry))))
  {
    ListVerbs(command);
    hide VerbOf, Visible, Leads;
    HandlerLeads(db, command, context);
    items := ElementsOf(Visible(db, command[1], context.now)).value + command[2..];
    assert [] + command[2..] == command[2..];
  }

  /** LPUSH puts its values in front one after the other, so the last one is first, and leaves the elements behind them. */
  lemma LpushLaw(db: Db, command: Command, context: Context) returns (items: seq<Bytes>)
    requires IsNamed(command, "LPUSH") && |command| >= 3 && ElementsOf(Visible(db, command[1], context.now)).Some?
    ensures var entry := Visible(db, command[1], context.now);
            var present := ElementsOf(entry).value;
            var n := |command| - 2;
            && |items| == n + |present|
            && (forall k :: 0 <= k < n ==> items[k] == command[|command| - 1 - k])
            && (forall k :: 0 <= k < |present| ==> items[n + k] == present[k])
            && Leads(db, command, context, Integer(|items|), Some(Entry(List(items), ExpiryOf(entry))))
  {
    ListVerbs(command);
    hide VerbOf, Visible, Leads, Reverse;
    HandlerLeads(db, command, context);
    var values := command[2..];
    items := Reverse(values) + ElementsOf(Visible(db, command[1], context.now)).value;
    assert Reverse(values) + [] == Reverse(values);
    forall k | 0 <= k < |values| ensures items[k] == command[|command| - 1 - k] {
      ReversedAt(values, k);
    }
  }

  lemma LlenLaw(db: Db, command: Command, context: Context)
    requires IsNamed(command, "LLEN") && |command| == 2 && ElementsOf(Visible(db, command[1], context.now)).Some?
    ensures var entry := Visible(db, command[1], context.now);
            Leads(db, command, context, Integer(|ElementsOf(entry).value|), entry)
  {
    ListVerbs(command);
    hide VerbOf, Visible, Leads;
    HandlerLeads(db, command, context);
  }

  /** LRANGE answers with the elements between its two positions, counted from either end, and changes nothing. */
  lemma LrangeLaw(db: Db, command: Command, context: Context, start: int, stop: int)
    requires IsNamed(command, "LRANGE") && |command| == 4 && ElementsOf(Visible(db, command[1], context.now)).Some?
    requires ParseSigned(command[2], I64_LIMIT) == Some(start) && ParseSigned(command[3], I64_LIMIT) == Some(stop)
    ensures var entry := Visible(db, command[1], context.now);
            var items := ElementsOf(entry).value;
            var part := Lists.Between(items, Position(start, |items|), Position(stop, |items|), 0);
            Leads(db, command, context, if part == [] then EmptyArray else Array(part), entry)
  {
    ListVerbs(command);
    var entry := Visible(db, command[1], context.now);
    NoSlice(start, stop);
    hide VerbOf, Visible, Leads, ParseSigned, ListSlice, Lists.Between;
    HandlerLeads(db, command, context);
    RangeIsBetween(ElementsOf(entry).value, start, stop);
  }

  lemma NoSlice(start: int, stop: int)
    ensures ListSlice([], start, stop) == []
  {
  }

  /** The entry once the first elements are gone. */
  function Without(entry: Option<Entry>, rest: seq<Bytes>): Option<Entry> {
    if rest == [] then None else Some(Entry(List(rest), ExpiryOf(entry)))
  }

  /** LPOP answers with the first element and takes it away, with the key if it was the last. */
  lemma LpopLaw(db: Db, command: Command, context: Context)
    requires IsNamed(command, "LPOP") && |command| == 2 && ElementsOf(Visible(db, command[1], context.now)).Some?
    ensures var entry := Visible(db, command[1], context.now);
            var items := ElementsOf(entry).value;
            if items == [] then Leads(db, command, context, NullBulkString, entry)
            else Leads(db, command, context, BulkString(items[0]), Without(entry, items[1..]))
  {
    ListVerbs(command);
    hide VerbOf, Visible, Leads;
    HandlerLeads(db, command, context);
  }

  /** LPOP with a count answers with as many of the first elements as there are, in order. */
  lemma LpopCountLaw(db: Db, command: Command, context: Context, count: nat)
    requires IsNamed(command, "LPOP") && |command| == 3 && ElementsOf(Visible(db, command[1], context.now)).Some?
    requires ParseSigned(command[2], 0x8000_0000) == Some(count) && count > 0
    ensures var entry := Visible(db, command[1], context.now);
            var items := ElementsOf(entry).value;
            var n := if count < |items| then count else |items|;
            if items == [] then Leads(db, command, context, NullBulkString, entry)
            else Leads(db, command, context, Array(items[..n]), Without(entry, items[n..]))
  {
    ListVerbs(command);
    hide VerbOf, Visible, Leads, ParseSigned;
    HandlerLeads(db, command, context);
  }

  /** BLPOP inside a transaction: the key and its first element, or the null array at once. */
  lemma BlpopLaw(db: Db, command: Command, context: Context)
    requires IsNamed(command, "BLPOP") && ArgumentsValid(command, context) && |command| == 3
    requires ElementsOf(Visible(db, command[1], context.now)).Some?
    ensures var entry := Visible(db, command[1], context.now);
            var items := ElementsOf(entry).value;
            if items == [] then Leads(db, command, context, NullArray, entry)
            else Leads(db, command, context, Array([command[1], items[0]]), Without(entry, items[1..]))
  {
    ListVerbs(command);
    hide VerbOf, Visible, Leads;
    HandlerLeads(db, command, context);
  }

  /* ---------- Streams ---------- */

  /** The entries of a stream; a missing key counts as an empty one, another type as none. */
  function EntriesOf(entry: Option<Entry>): Option<seq<StreamEntry>> {
    if entry.None? then Some([]) else if entry.value.value.Stream? then Some(entry.value.value.entries) else None
  }

  lemma {:induction false} PairsStand(values: seq<Bytes>)
    requires |values| % 2 == 0
    ensures |PairUp(values)| == |values| / 2
    ensures forall j :: 0 <= j < |values| / 2 ==> PairUp(values)[j] == (values[2 * j], values[2 * j + 1])
    decreases |values|
  {
    if |values| >= 2 {
      var rest := values[2..];
      PairsStand(rest);
      forall j | 0 <= j < |values| / 2 ensures PairUp(values)[j] == (values[2 * j], values[2 * j + 1]) {
        if j > 0 {
          assert PairUp(values)[j] == PairUp(rest)[j - 1];
          assert rest[2 * (j - 1)] == values[2 * j] && rest[2 * (j - 1) + 1] == values[2 * j + 1];
        }
      }
    }
  }

  /**
   XADD puts one entry behind the others, with the chosen identifier and its names and values in order, and answers
   with that identifier; an identifier that is not above the last one is refused.
   */
  lemma XaddLaw(db: Db, command: Command, context: Context) returns (added: StreamEntry)
    requires IsNamed(command, "XADD") && XaddArguments(command) && EntriesOf(Visible(db, command[1], context.now)).Some?
    ensures var entry := Visible(db, command[1], context.now);
            var stream := EntriesOf(entry).value;
            && added.id == ChooseId(stream, ParseIdRequest(command[2]).value, context.wall)
            && |added.fields| == (|command| - 3) / 2
            && (forall j :: 0 <= j < |added.fields| ==> added.fields[j] == (command[3 + 2 * j], command[4 + 2 * j]))
            && if AboveLastEntry(stream, added.id)
               then Leads(db, command, context, BulkString(PrintId(added.id)),
                          Some(Entry(Stream(stream + [added]), ExpiryOf(entry))))
               else Leads(db, command, context, ERR, entry)
  {
    OtherVerbs(command);
    hide VerbOf, Visible, Leads, ParseIdRequest, ChooseId, PrintId, PairUp;
    HandlerLeads(db, command, context);
    var stream := EntriesOf(Visible(db, command[1], context.now)).value;
    PairsStand(command[3..]);
    added := StreamEntry(ChooseId(stream, ParseIdRequest(command[2]).value, context.wall), PairUp(command[3..]));
    assert [] + [added] == [added];
  }

  /** XRANGE answers with the entries from start to end, in order, as a client reads them. */
  lemma XrangeLaw(db: Db, command: Command, context: Context, start: StreamId, end: StreamId)
    requires IsNamed(command, "XRANGE") && |command| == 4 && DbOk(db)
    requires ParseRangeStart(command[2]) == Some(start) && ParseRangeStop(command[3]) == Some(end) && AtMost(start, end)
    requires var entry := Visible(db, command[1], context.now); entry.Some? && entry.value.value.Stream?
    ensures var entry := Visible(db, command[1], context.now);
            var response := Dispatch(db, command, context).response;
            && Leads(db, command, context, response, entry)
            && response.ResponseArray?
            && ReadsEntries(response.responses, Filter(entry.value.value.entries, start, end))
  {
    OtherVerbs(command);
    var entry := Visible(db, command[1], context.now);
    var stream := entry.value.value.entries;
    assert EntryOk(db.entries[command[1]]);
    FilterInRange(stream, start, end);
    hide VerbOf, Visible, Leads, ParseRangeStart, ParseRangeStop, Range, EntryReplies, ReadsEntries, Filter,
         DbOk, Dispatch, AllInRange;
    HandlerLeads(db, command, context);
    LeadsResponse(db, command, context);
    RangeIsFilter(stream, start, end);
    EntriesReadBack(Filter(stream, start, end));
  }

  lemma LeadsResponse(db: Db, command: Command, context: Context)
    requires |command| >= 2
    ensures forall response, entry :: Leads(db, command, context, response, entry) ==>
              Dispatch(db, command, context).response == response
  {
    hide Dispatch;
  }

  lemma {:induction false} FilterInRange(stream: seq<StreamEntry>, start: StreamId, end: StreamId)
    requires AllInRange(stream)
    ensures AllInRange(Filter(stream, start, end))
    decreases |stream|
  {
    hide AtMost, InRange;
    if stream != [] {
      FilterInRange(stream[1..], start, end);
    }
  }

  /** Without a stream XRANGE is refused. */
  lemma XrangeRefused(db: Db, command: Command, context: Context)
    requires IsNamed(command, "XRANGE") && ArgumentsValid(command, context) && |command| == 4
    requires var entry := Visible(db, command[1], context.now); entry.None? || !entry.value.value.Stream?
    ensures Leads(db, command, context, ERR, Visible(db, command[1], context.now))
  {
    OtherVerbs(command);
    hide VerbOf, Visible, Leads, ParseRangeStart, ParseRangeStop;
    HandlerLeads(db, command, context);
  }

  /** Bounds: `-` and `+` take in every entry. */
  lemma WholeRange(stream: seq<StreamEntry>)
    requires AllInRange(stream)
    ensures ParseRangeStart("-").Some? && ParseRangeStop("+").Some?
    ensures Filter(stream, ParseRangeStart("-").value, ParseRangeStop("+").value) == stream
  {
    AllBetween(stream);
  }

  lemma {:induction false} AllBetween(stream: seq<StreamEntry>)
    requires AllInRange(stream)
    ensures Filter(stream, ZERO_ID, MAX_ID) == stream
    decreases |stream|
  {
    if stream != [] {
      AllBetween(stream[1..]);
    }
  }

  /* ---------- The rest of the table ---------- */

  /** KEYS answers with exactly the visible keys, when the pass visits the whole table. */
  lemma KeysLaw(db: Db, command: Command, context: Context)
    requires IsNamed(command, "KEYS") && |command| == 2 && command[1] == "*"
    requires forall key :: key in db.entries ==> key in context.order
    ensures var outcome := Dispatch(db, command, context);
            && outcome.response.Array?
            && (forall key :: key in outcome.response.values <==> Visible(db, key, context.now).Some?)
            && Active(outcome.db, context.now) == Active(db, context.now)
  {
    OtherVerbs(command);
    hide VerbOf, Survivors, Sweep;
    SurvivorsAreActive(db, context.order, context.now);
    SweepActive(db, context.order, context.now);
  }

  /* ---------- Publishing ---------- */

  /** The clients that hold the channel in their subscriptions and take a message now. */
  function Takers(s: State, channel: Bytes, env: Env): set<ClientId> {
    set client | client in s.hub.subscriptions && channel in s.hub.subscriptions[client]
                 && SessionThere(s, client, env) && env.session(client).Accepting?
  }

  lemma TakersReached(s: State, channel: Bytes, env: Env)
    requires Mirror(s.hub)
    ensures var subscribers := SubscribersOf(s.hub, channel);
            var dead := set client | client in subscribers && !SessionThere(s, client, env);
            Takers(s, channel, env) == set client | client in subscribers - dead && env.session(client).Accepting?
  {
    hide SubscribersOf, SessionThere, Mirror;
    BothWays(s.hub, channel);
    var subscribers := SubscribersOf(s.hub, channel);
    var dead := set client | client in subscribers && !SessionThere(s, client, env);
    var reached := set client | client in subscribers - dead && env.session(client).Accepting?;
    forall client ensures client in Takers(s, channel, env) <==> client in reached {
      assert client in subscribers <==> channel in ChannelsOf(s.hub, client);
    }
  }

  /**
   PUBLISH reports how many of the clients that hold the channel in their subscriptions take the message; clients
   whose session is gone lose this channel, and nobody loses another.
   */
  lemma PublishLaw(s: State, client: ClientId, command: Command, source: Source, env: Env)
    requires IsNamed(command, "PUBLISH") && |command| == 3 && Mirror(s.hub)
    ensures var p := ProcessCommand(s, client, command, source, env);
            && p.response == Integer(|Takers(s, command[1], env)|)
            && p.state == s.(hub := p.state.hub, clients := p.state.clients)
            && forall other :: ChannelsOf(p.state.hub, other) ==
                 if SessionThere(s, other, env) then ChannelsOf(s.hub, other) else ChannelsOf(s.hub, other) - {command[1]}
  {
    hide ProcessCommand, Mirror, DropFrom, SessionThere, Takers, ChannelsOf;
    PublishRuns(s, client, command, source, env);
    var channel := command[1];
    BothWays(s.hub, channel);
    TakersReached(s, channel, env);
    if channel in s.hub.channels {
      var dead := set other | other in s.hub.channels[channel] && !SessionThere(s, other, env);
      DroppedFromChannel(s.hub, channel, dead);
    } else {
      assert Takers(s, channel, env) == {};
    }
  }

  lemma PublishRuns(s: State, client: ClientId, command: Command, source: Source, env: Env)
    requires IsNamed(command, "PUBLISH")
    ensures ProcessCommand(s, client, command, source, env) == DoPublish(s, command, env)
  {
    assert VerbOf(command).Publish?;
    hide VerbOf, DoPublish;
  }

  lemma BothWays(hub: Hub, channel: Bytes)
    requires Mirror(hub)
    ensures forall client :: client in SubscribersOf(hub, channel) <==> channel in ChannelsOf(hub, client)
  {
  }

  lemma DroppedFromChannel(hub: Hub, channel: Bytes, dead: set<ClientId>)
    requires channel in hub.channels && dead <= hub.channels[channel]
    ensures forall client :: ChannelsOf(DropFrom(hub, channel, dead), client) ==
              if client in dead then ChannelsOf(hub, client) - {channel} else ChannelsOf(hub, client)
  {
  }
}
