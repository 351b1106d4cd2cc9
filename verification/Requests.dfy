/** Writing requests as a client does: the server reads what was meant, each key of XREAD with its own start. */
module Requests {
  import opened Wrappers
  import opened Decimal
  import opened Resp
  import opened Streams
  import opened Keyspace
  import opened Commands
  import opened Processor

  /* ---------- Identifiers ---------- */

  function WriteIdRequest(request: IdRequest): Bytes {
    match request
    case Automatic => "*"
    case AutomaticSequence(milliseconds) => Print(milliseconds) + "-*"
    case Explicit(milliseconds, sequence) => PrintId(StreamId(milliseconds, sequence))
  }

  /** The three ways of asking for an identifier are told apart. */
  lemma IdRequestRoundTrip(request: IdRequest)
    requires request.AutomaticSequence? ==> request.milliseconds < U64_LIMIT
    requires request.Explicit? ==> InRange(StreamId(request.milliseconds, request.sequence))
    ensures ParseIdRequest(WriteIdRequest(request)) == Some(request)
  {
    match request {
      case Automatic =>
      case AutomaticSequence(milliseconds) =>
        var left, text := Print(milliseconds), WriteIdRequest(request);
        forall i | 0 <= i < |left| ensures text[i] != '-' {
          assert IsDigit(left[i]) && text[i] == left[i];
        }
        FindDashSkips(text, 0, |left|);
        PrintParse(milliseconds, U64_LIMIT);
        assert text[..|left|] == left && text[|left| + 1..] == "*" && |text| > 1;
      case Explicit(milliseconds, sequence) => PrintedIdIsExplicit(StreamId(milliseconds, sequence));
    }
  }

  /** A bound without a sequence: the first identifier of that time, or the last one as the end of a range. */
  lemma TimeAsBound(milliseconds: nat)
    requires milliseconds < U64_LIMIT
    ensures var text := Print(milliseconds);
            && ParseReadId(text) == ParseRangeStart(text) == Some(StreamId(milliseconds, 0))
            && ParseRangeStop(text) == Some(StreamId(milliseconds, U64_LIMIT - 1))
  {
    var text := Print(milliseconds);
    assert IsDigit(text[0]);
    NoDash(text, 0);
    PrintParse(milliseconds, U64_LIMIT);
  }

  lemma {:induction false} NoDash(text: Bytes, from: nat)
    requires AllDigits(text)
    ensures FindDash(text, from).None?
    decreases |text| - from
  {
    if from < |text| {
      NoDash(text, from + 1);
    }
  }

  /* ---------- XREAD ---------- */

  function WriteStart(start: ReadStart): Bytes {
    match start
    case AfterId(id) => PrintId(id)
    case Latest => "$"
  }

  function KeysOf(requests: seq<ReadRequest>): seq<Bytes> {
    seq(|requests|, i requires 0 <= i < |requests| => requests[i].key)
  }

  function StartsOf(requests: seq<ReadRequest>): seq<Bytes> {
    seq(|requests|, i requires 0 <= i < |requests| => WriteStart(requests[i].start))
  }

  function WriteMode(mode: ReadMode): Command {
    match mode
    case Immediate => []
    case BlockForever => ["BLOCK", "0"]
    case BlockFor(milliseconds) => ["BLOCK", Print(milliseconds)]
  }

  /** All keys, then all starts. */
  function WriteXread(read: ReadCommand): Command {
    ["XREAD"] + WriteMode(read.mode) + ["STREAMS"] + KeysOf(read.requests) + StartsOf(read.requests)
  }

  /** Starts are pairs of 64-bit numbers, and a time to block for is a positive 63-bit number. */
  predicate Writable(read: ReadCommand) {
    && read.requests != []
    && (forall i :: 0 <= i < |read.requests| ==> read.requests[i].start.AfterId? ==> InRange(read.requests[i].start.id))
    && (read.mode.BlockFor? ==> 0 < read.mode.milliseconds < I64_LIMIT)
  }

  lemma {:induction false} RequestsReadBack(requests: seq<ReadRequest>)
    requires forall i :: 0 <= i < |requests| ==> requests[i].start.AfterId? ==> InRange(requests[i].start.id)
    ensures ParseReadRequests(KeysOf(requests), StartsOf(requests)) == Some(requests)
    decreases |requests|
  {
    hide PrintId, ParseReadId, InRange;
    if requests == [] {
      assert KeysOf(requests) == [];
    } else {
      assert KeysOf(requests)[1..] == KeysOf(requests[1..]) && StartsOf(requests)[1..] == StartsOf(requests[1..]);
      RequestsReadBack(requests[1..]);
      if requests[0].start.AfterId? {
        PrintedIdIsBound(requests[0].start.id);
        PrintedIdIsNoMark(requests[0].start.id);
      }
      assert [ReadRequest(requests[0].key, requests[0].start)] + requests[1..] == requests;
    }
  }

  lemma PrintedIdIsNoMark(id: StreamId)
    ensures PrintId(id) != "$"
  {
    assert IsDigit(Print(id.milliseconds)[0]);
    assert PrintId(id)[0] == Print(id.milliseconds)[0];
  }

  lemma StreamsPartReadsBack(command: Command, position: nat, mode: ReadMode, requests: seq<ReadRequest>)
    requires position < |command| && command[position] == "STREAMS" && requests != []
    requires command[position + 1..] == KeysOf(requests) + StartsOf(requests)
    requires ParseReadRequests(KeysOf(requests), StartsOf(requests)) == Some(requests)
    ensures ParseStreamsPart(command, position, mode) == Some(ReadCommand(requests, mode))
  {
    hide ParseReadRequests;
    var keys, starts, rest := KeysOf(requests), StartsOf(requests), command[position + 1..];
    assert |rest| == 2 * |requests|;
    assert rest[..|rest| / 2] == keys && rest[|rest| / 2..] == starts;
  }

  lemma BlockReadsBack(mode: ReadMode)
    requires !mode.Immediate? && (mode.BlockFor? ==> 0 < mode.milliseconds < I64_LIMIT)
    ensures var count := ParseSigned(WriteMode(mode)[1], I64_LIMIT);
            && count.Some? && count.value >= 0
            && mode == if count.value == 0 then BlockForever else BlockFor(count.value)
  {
    PrintParseSigned(if mode.BlockFor? then mode.milliseconds else 0, I64_LIMIT);
    assert Print(0) == "0";
  }

  /** What a client asks for is what the server reads: the i-th start belongs to the i-th key. */
  lemma XreadRoundTrip(read: ReadCommand)
    requires Writable(read)
    ensures ParseXread(WriteXread(read)) == Some(read)
  {
    hide ParseReadRequests, ParseStreamsPart, ParseSigned, Print;
    var command, requests := WriteXread(read), read.requests;
    RequestsReadBack(requests);
    if read.mode.Immediate? {
      assert !EqualsIgnoreCase(command[1], "BLOCK");
      assert command[2..] == KeysOf(requests) + StartsOf(requests);
      StreamsPartReadsBack(command, 1, read.mode, requests);
    } else {
      BlockReadsBack(read.mode);
      assert command[4..] == KeysOf(requests) + StartsOf(requests);
      StreamsPartReadsBack(command, 3, read.mode, requests);
    }
  }

  /* ---------- WAIT ---------- */

  function WriteWait(request: WaitRequest): Command {
    ["WAIT", Print(request.required), Print(if request.timeout.Forever? then 0 else request.timeout.milliseconds)]
  }

  lemma WaitRoundTrip(request: WaitRequest)
    requires request.required < U64_LIMIT && (request.timeout.Within? ==> 0 < request.timeout.milliseconds < I64_LIMIT)
    ensures ParseWait(WriteWait(request)) == Some(request)
  {
    hide Print;
    PrintParse(request.required, U64_LIMIT);
    PrintParse(if request.timeout.Forever? then 0 else request.timeout.milliseconds, U64_LIMIT);
  }
}
