/** The command table: argument checks, the effect of each command on its key, and its response. */
module Commands {
  import opened Wrappers
  import opened Decimal
  import opened Resp
  import opened Responses
  import opened Streams
  import opened Keyspace

  datatype Verb =
    | Ping | Echo | Set | Get | Keys | Type | Incr
    | Rpush | Lpush | Lrange | Llen | Lpop | Blpop
    | Xadd | Xrange | Xread
    | Subscribe | Unsubscribe | Publish | Auth | Acl | Info | Config | Replconf | Psync
    | Watch | Unwatch | Multi | Exec | Discard | Wait
    | Unknown

  /** The command named by the first argument; names are upper case only. */
  function VerbNamed(name: Bytes): Verb {
    if name == "PING" then Ping
    else if name == "ECHO" then Echo
    else if name == "SET" then Set
    else if name == "GET" then Get
    else if name == "KEYS" then Keys
    else if name == "TYPE" then Type
    else if name == "INCR" then Incr
    else if name == "RPUSH" then Rpush
    else if name == "LPUSH" then Lpush
    else if name == "LRANGE" then Lrange
    else if name == "LLEN" then Llen
    else if name == "LPOP" then Lpop
    else if name == "BLPOP" then Blpop
    else if name == "XADD" then Xadd
    else if name == "XRANGE" then Xrange
    else if name == "XREAD" then Xread
    else if name == "SUBSCRIBE" then Subscribe
    else if name == "UNSUBSCRIBE" then Unsubscribe
    else if name == "PUBLISH" then Publish
    else if name == "AUTH" then Auth
    else if name == "ACL" then Acl
    else if name == "INFO" then Info
    else if name == "CONFIG" then Config
    else if name == "REPLCONF" then Replconf
    else if name == "PSYNC" then Psync
    else if name == "WATCH" then Watch
    else if name == "UNWATCH" then Unwatch
    else if name == "MULTI" then Multi
    else if name == "EXEC" then Exec
    else if name == "DISCARD" then Discard
    else if name == "WAIT" then Wait
    else Unknown
  }

  /** An empty command names nothing. */
  function VerbOf(command: Command): Verb {
    if command == [] then Unknown else VerbNamed(command[0])
  }

  predicate WriteVerb(verb: Verb) {
    verb.Set? || verb.Incr? || verb.Rpush? || verb.Lpush? || verb.Lpop? || verb.Blpop? || verb.Xadd?
  }

  /** Commands of the handler table that work on the entry of one key, their second argument. */
  predicate KeyVerb(verb: Verb) {
    WriteVerb(verb) || verb.Get? || verb.Type? || verb.Lrange? || verb.Llen? || verb.Xrange?
  }

  /** Commands of the handler table. */
  predicate TableVerb(verb: Verb) {
    KeyVerb(verb) || verb.Ping? || verb.Echo? || verb.Keys? || verb.Xread?
  }

  /**
   What a handler reads besides the database: the monotone clock, the wall clock in milliseconds,
   the reading of a blocking timeout (None is invalid), and the order
   in which the hash table is visited.
   */
  datatype Context = Context(now: nat, wall: nat, timeout: Bytes -> Option<Timeout>, order: seq<Bytes>)

  /** How long to block. A timeout below one millisecond is cut off to none at all. */
  datatype Timeout = Forever | Within(milliseconds: nat)

  const OK := SimpleString("OK")
  const ERR := SimpleError("ERR")
  const WRONGTYPE := SimpleError("WRONGTYPE")

  /* ---------- Argument checks ---------- */

  /** An expiry of SET in milliseconds. */
  function ParseExpiry(unit: Bytes, amount: Bytes): Option<nat> {
    match ParseSigned(amount, I64_LIMIT)
    case None => None
    case Some(count) =>
      if count <= 0 then None
      else if unit == "PX" then Some(count)
      else if unit == "EX" then Some(count * 1000)
      else None
  }

  /** The element count of LPOP: a positive 32-bit number. */
  function ParseCount(text: Bytes): (r: Option<nat>)
    ensures r.Some? ==> r.value > 0
  {
    match ParseSigned(text, 0x8000_0000)
    case None => None
    case Some(count) => if count <= 0 then None else Some(count)
  }

  function PairUp(values: seq<Bytes>): (pairs: seq<(Bytes, Bytes)>)
  {
    if |values| < 2 then [] else [(values[0], values[1])] + PairUp(values[2..])
  }

  function UpperChar(c: char): char {
    if 'a' <= c <= 'z' then c - 'a' + 'A' else c
  }

  predicate EqualsIgnoreCase(left: Bytes, right: Bytes) {
    |left| == |right| && forall i :: 0 <= i < |left| ==> UpperChar(left[i]) == UpperChar(right[i])
  }

  datatype ReadMode = Immediate | BlockForever | BlockFor(milliseconds: nat)

  datatype ReadCommand = ReadCommand(requests: seq<ReadRequest>, mode: ReadMode)

  function ParseReadRequests(keys: seq<Bytes>, ids: seq<Bytes>): (r: Option<seq<ReadRequest>>)
    requires |keys| == |ids|
    ensures r.Some? ==> |r.value| == |keys|
  {
    if keys == [] then Some([])
    else
      var start := if ids[0] == "$" then Some(Latest)
                   else match ParseReadId(ids[0]) case Some(id) => Some(AfterId(id)) case None => None;
      match (start, ParseReadRequests(keys[1..], ids[1..]))
      case (Some(s), Some(rest)) => Some([ReadRequest(keys[0], s)] + rest)
      case _ => None
  }

  /** The part of XREAD after its options. */
  function ParseStreamsPart(command: Command, position: nat, mode: ReadMode): Option<ReadCommand> {
    if position >= |command| || !EqualsIgnoreCase(command[position], "STREAMS") then None
    else
      var rest := command[position + 1..];
      if rest == [] || |rest| % 2 != 0 then None
      else
        match ParseReadRequests(rest[..|rest| / 2], rest[|rest| / 2..])
        case Some(requests) => Some(ReadCommand(requests, mode))
        case None => None
  }

  /** parse_xread; None is one of its errors. */
  function ParseXread(command: Command): Option<ReadCommand> {
    if |command| < 4 then None
    else if !EqualsIgnoreCase(command[1], "BLOCK") then ParseStreamsPart(command, 1, Immediate)
    else match ParseSigned(command[2], I64_LIMIT)
      case None => None
      case Some(count) =>
        if count < 0 then None
        else ParseStreamsPart(command, 3, if count == 0 then BlockForever else BlockFor(count))
  }

  predicate XaddArguments(command: Command) {
    && |command| >= 5
    && ParseIdRequest(command[2]).Some?
    && ParseIdRequest(command[2]).value != Explicit(0, 0)
    && (|command| - 3) % 2 == 0
  }

  /** Whether a handler gets past its argument checks. */
  predicate ArgumentsValid(command: Command, context: Context): (valid: bool)
    ensures valid ==> TableVerb(VerbOf(command))
    ensures valid && (KeyVerb(VerbOf(command)) || VerbOf(command).Echo?) ==> |command| >= 2
    ensures valid && VerbOf(command).Xread? ==> ParseXread(command).Some?
  {
    match VerbOf(command)
    case Ping => true
    case Echo => |command| == 2
    case Get => |command| == 2
    case Type => |command| == 2
    case Incr => |command| == 2
    case Llen => |command| == 2
    case Keys => |command| == 2 && command[1] == "*"
    case Set => |command| == 3 || (|command| == 5 && ParseExpiry(command[3], command[4]).Some?)
    case Rpush => |command| >= 3
    case Lpush => |command| >= 3
    case Lrange => |command| == 4 && ParseSigned(command[2], I64_LIMIT).Some? && ParseSigned(command[3], I64_LIMIT).Some?
    case Lpop => |command| == 2 || (|command| == 3 && ParseCount(command[2]).Some?)
    case Blpop => |command| == 3 && context.timeout(command[2]).Some?
    case Xadd => XaddArguments(command)
    case Xrange => |command| == 4 && ParseRangeStart(command[2]).Some? && ParseRangeStop(command[3]).Some?
    case Xread => ParseXread(command).Some?
    case _ => false
  }

  /* ---------- Effects on one key ---------- */

  datatype Verdict = Verdict(change: Change, response: Response)

  function DecideSet(command: Command, now: nat): Verdict
    requires |command| == 3 || (|command| == 5 && ParseExpiry(command[3], command[4]).Some?)
  {
    var expiry := if |command| == 3 then None else Some(now + ParseExpiry(command[3], command[4]).value);
    Verdict(Put(Entry(Text(command[2]), expiry)), OK)
  }

  function DecideGet(entry: Option<Entry>): Verdict {
    match entry
    case None => Verdict(Keep, NullBulkString)
    case Some(Entry(Text(text), _)) => Verdict(Keep, BulkString(text))
    case _ => Verdict(Keep, WRONGTYPE)
  }

  function DecideType(entry: Option<Entry>): Verdict {
    match entry
    case None => Verdict(Keep, SimpleString("none"))
    case Some(Entry(Text(_), _)) => Verdict(Keep, SimpleString("string"))
    case Some(Entry(List(_), _)) => Verdict(Keep, SimpleString("list"))
    case Some(Entry(Stream(_), _)) => Verdict(Keep, SimpleString("stream"))
  }

  /** `++` on a 64-bit signed number; C++ leaves the overflow undefined, the model wraps around. */
  function Increment(n: int): int {
    if n == I64_LIMIT - 1 then 0 - I64_LIMIT else n + 1
  }

  function DecideIncr(entry: Option<Entry>): Verdict {
    match entry
    case None => Verdict(Put(Entry(Text(PrintInt(1)), None)), Integer(1))
    case Some(Entry(Text(text), expiresAt)) =>
      (match ParseSigned(text, I64_LIMIT)
       case None => Verdict(Keep, ERR)
       case Some(n) => Verdict(Put(Entry(Text(PrintInt(Increment(n))), expiresAt)), Integer(Increment(n))))
    case _ => Verdict(Keep, WRONGTYPE)
  }

  function Reverse(values: seq<Bytes>): (r: seq<Bytes>)
    ensures |r| == |values|
  {
    if values == [] then [] else Reverse(values[1..]) + [values[0]]
  }

  /** RPUSH appends the values; LPUSH puts them in front one after the other. */
  function DecidePush(entry: Option<Entry>, values: seq<Bytes>, append: bool): Verdict {
    match entry
    case None =>
      var items := if append then values else Reverse(values);
      Verdict(Put(Entry(List(items), None)), Integer(|items|))
    case Some(Entry(List(present), expiresAt)) =>
      var items := if append then present + values else Reverse(values) + present;
      Verdict(Put(Entry(List(items), expiresAt)), Integer(|items|))
    case _ => Verdict(Keep, WRONGTYPE)
  }

  /** A list index counted from either end, then cut off at the ends. */
  function ListSlice(items: seq<Bytes>, start: int, stop: int): seq<Bytes> {
    var size := |items|;
    var a := if start < 0 then start + size else start;
    var b := if stop < 0 then stop + size else stop;
    var first := if a < 0 then 0 else a;
    var last := if b >= size then size - 1 else b;
    if last < 0 || first >= size || first > last then [] else items[first..last + 1]
  }

  function DecideLrange(entry: Option<Entry>, start: int, stop: int): Verdict {
    match entry
    case None => Verdict(Keep, EmptyArray)
    case Some(Entry(List(items), _)) =>
      var slice := ListSlice(items, start, stop);
      Verdict(Keep, if slice == [] then EmptyArray else Array(slice))
    case _ => Verdict(Keep, WRONGTYPE)
  }

  function DecideLlen(entry: Option<Entry>): Verdict {
    match entry
    case None => Verdict(Keep, Integer(0))
    case Some(Entry(List(items), _)) => Verdict(Keep, Integer(|items|))
    case _ => Verdict(Keep, WRONGTYPE)
  }

  /** The list without its first `count` elements; an emptied list is removed. */
  function DropFirst(items: seq<Bytes>, count: nat, expiresAt: Option<nat>): Change
    requires count <= |items|
  {
    if count == |items| then Remove else Put(Entry(List(items[count..]), expiresAt))
  }

  datatype Popped = Popped(change: Change, outcome: PopOutcome)

  datatype PopOutcome = Element(value: Bytes) | NothingThere | NotAList

  /** pop_list_element. */
  function PopOne(entry: Option<Entry>): Popped {
    match entry
    case Some(Entry(List(items), expiresAt)) =>
      if items == [] then Popped(Keep, NothingThere)
      else Popped(DropFirst(items, 1, expiresAt), Element(items[0]))
    case None => Popped(Keep, NothingThere)
    case _ => Popped(Keep, NotAList)
  }

  function DecideLpop(entry: Option<Entry>): Verdict {
    var popped := PopOne(entry);
    match popped.outcome
    case Element(value) => Verdict(popped.change, BulkString(value))
    case NothingThere => Verdict(popped.change, NullBulkString)
    case NotAList => Verdict(popped.change, WRONGTYPE)
  }

  function DecideLpopCount(entry: Option<Entry>, count: nat): Verdict {
    match entry
    case Some(Entry(List(items), expiresAt)) =>
      if items == [] then Verdict(Keep, NullBulkString)
      else
        var taken := if count < |items| then count else |items|;
        Verdict(DropFirst(items, taken, expiresAt), Array(items[..taken]))
    case None => Verdict(Keep, NullBulkString)
    case _ => Verdict(Keep, WRONGTYPE)
  }

  /** BLPOP inside a transaction never blocks. */
  function DecideBlpop(entry: Option<Entry>, key: Bytes): Verdict {
    var popped := PopOne(entry);
    match popped.outcome
    case Element(value) => Verdict(popped.change, Array([key, value]))
    case NothingThere => Verdict(popped.change, NullArray)
    case NotAList => Verdict(popped.change, WRONGTYPE)
  }

  function DecideXadd(entry: Option<Entry>, request: IdRequest, fields: seq<(Bytes, Bytes)>, wall: nat): Verdict {
    match entry
    case None =>
      var id := ChooseId([], request, wall);
      Verdict(Put(Entry(Stream([StreamEntry(id, fields)]), None)), BulkString(PrintId(id)))
    case Some(Entry(Stream(entries), expiresAt)) =>
      var id := ChooseId(entries, request, wall);
      if Accepts(entries, id) then
        Verdict(Put(Entry(Stream(entries + [StreamEntry(id, fields)]), expiresAt)), BulkString(PrintId(id)))
      else Verdict(Keep, ERR)
    case _ => Verdict(Keep, WRONGTYPE)
  }

  function FieldReplies(fields: seq<(Bytes, Bytes)>): seq<Response> {
    if fields == [] then []
    else [BulkString(fields[0].0), BulkString(fields[0].1)] + FieldReplies(fields[1..])
  }

  function EntryReplies(entries: seq<StreamEntry>): seq<Response> {
    if entries == [] then []
    else [ResponseArray([BulkString(PrintId(entries[0].id)), ResponseArray(FieldReplies(entries[0].fields))])]
         + EntryReplies(entries[1..])
  }

  function DecideXrange(entry: Option<Entry>, start: StreamId, end: StreamId): Verdict {
    match entry
    case Some(Entry(Stream(entries), _)) => Verdict(Keep, ResponseArray(EntryReplies(Range(entries, start, end))))
    case None => Verdict(Keep, ERR)
    case _ => Verdict(Keep, ERR)
  }

  /** What a command that works on one key does to its entry and answers. */
  function Decide(command: Command, context: Context, entry: Option<Entry>): Verdict
    requires KeyVerb(VerbOf(command)) && ArgumentsValid(command, context)
  {
    match VerbOf(command)
    case Set => DecideSet(command, context.now)
    case Get => DecideGet(entry)
    case Type => DecideType(entry)
    case Incr => DecideIncr(entry)
    case Rpush => DecidePush(entry, command[2..], true)
    case Lpush => DecidePush(entry, command[2..], false)
    case Lrange =>
      DecideLrange(entry, ParseSigned(command[2], I64_LIMIT).value, ParseSigned(command[3], I64_LIMIT).value)
    case Llen => DecideLlen(entry)
    case Lpop => if |command| == 2 then DecideLpop(entry) else DecideLpopCount(entry, ParseCount(command[2]).value)
    case Blpop => DecideBlpop(entry, command[1])
    case Xadd => DecideXadd(entry, ParseIdRequest(command[2]).value, PairUp(command[3..]), context.wall)
    case Xrange => DecideXrange(entry, ParseRangeStart(command[2]).value, ParseRangeStop(command[3]).value)
  }

  /* ---------- Dispatch ---------- */

  datatype Outcome = Outcome(db: Db, response: Response)

  function ReadReplies(results: seq<ReadResult>): seq<Response> {
    if results == [] then []
    else [ResponseArray([BulkString(results[0].key), ResponseArray(EntryReplies(results[0].entries))])]
         + ReadReplies(results[1..])
  }

  /** make_xread_response. */
  function XreadResponse(results: seq<ReadResult>): Response {
    if results == [] then NullArray else ResponseArray(ReadReplies(results))
  }

  function DispatchXread(db: Db, requests: seq<ReadRequest>, now: nat): Outcome {
    var reading := ReadStreams(db, requests, now);
    match reading.results
    case None => Outcome(reading.db, WRONGTYPE)
    case Some(results) => Outcome(reading.db, XreadResponse(results))
  }

  /** SET overwrites without looking; every other command settles its key first. */
  function SettleFor(db: Db, command: Command, now: nat): Db
    requires |command| >= 2
  {
    if VerbOf(command).Set? then db else Settle(db, command[1], now)
  }

  function DispatchKey(db: Db, command: Command, context: Context): Outcome
    requires KeyVerb(VerbOf(command)) && ArgumentsValid(command, context)
  {
    var key := command[1];
    var settled := SettleFor(db, command, context.now);
    var verdict := Decide(command, context, Look(settled, key));
    Outcome(Apply(settled, key, verdict.change), verdict.response)
  }

  /** Looks the command up in the handler table and runs it. */
  function Dispatch(db: Db, command: Command, context: Context): Outcome {
    if command == [] then Outcome(db, NullBulkString)
    else if !ArgumentsValid(command, context) then Outcome(db, ERR)
    else if KeyVerb(VerbOf(command)) then DispatchKey(db, command, context)
    else if VerbOf(command).Keys? then
      Outcome(Sweep(db, context.order, context.now), Array(Survivors(db, context.order, context.now)))
    else if VerbOf(command).Xread? then DispatchXread(db, ParseXread(command).value.requests, context.now)
    else if VerbOf(command).Echo? then Outcome(db, BulkString(command[1]))
    else Outcome(db, SimpleString("PONG"))
  }

  /* ---------- What the log records ---------- */

  predicate IsWrite(command: Command) {
    WriteVerb(VerbOf(command))
  }

  /** write_modified_database: what the response of a write says about the database. */
  predicate Modified(command: Command, response: Response) {
    if response.SimpleError? then false
    else match VerbOf(command)
      case Blpop => response.Array? && response.values != []
      case Lpop => !response.NullBulkString? && (response.Array? ==> response.values != [])
      case _ => true
  }

  /** normalize_replication_command: generated identifiers become explicit, blocking pops plain. */
  function Normalize(command: Command, response: Response): Command {
    match VerbOf(command)
    case Xadd => if response.BulkString? && |command| > 2 then command[2 := response.value] else command
    case Blpop => if |command| > 1 then ["LPOP", command[1]] else command
    case _ => command
  }
}
