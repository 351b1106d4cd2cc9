/**
 The RESP command codec: arrays of bulk strings, parsed from a buffer that may hold
 less or more than one command, and printed by the serializer that the append-only
 file and the replication stream share.
 */
module Resp {
  import opened Wrappers
  import opened Decimal

  type Command = seq<Bytes>

  datatype ParseErrorCode = InvalidFormat | InvalidLength

  datatype ParseOutcome =
    | Complete(command: Command, consumed: nat)
    | Incomplete
    | Invalid(code: ParseErrorCode)

  const CRLF: Bytes := "\r\n"

  /* ---------- Parsing ---------- */

  /** Position of the first CRLF at or after `from`. */
  function FindCrlf(input: Bytes, from: nat): (r: Option<nat>)
    ensures r.Some? ==> from <= r.value && r.value + 2 <= |input|
    decreases |input| - from
  {
    if from + 1 >= |input| then None
    else if input[from] == '\r' && input[from + 1] == '\n' then Some(from)
    else FindCrlf(input, from + 1)
  }

  /** One header line: its text and the position after its CRLF. */
  datatype Line = Line(text: Bytes, next: nat)

  function ReadLine(input: Bytes, position: nat): (r: Option<Line>)
    ensures r.Some? ==> position + 2 <= r.value.next <= |input|
  {
    match FindCrlf(input, position)
    case None => None
    case Some(end) => Some(Line(input[position..end], end + 2))
  }

  /** A length header: a size_t, so digits only and below 2^64. */
  function ParseLength(text: Bytes): (r: Option<nat>)
    ensures r.Some? ==> r.value < U64_LIMIT
  {
    ParseU64(text)
  }

  datatype ArgumentOutcome =
    | Argument(value: Bytes, next: nat)
    | Short
    | Bad(code: ParseErrorCode)

  /** One bulk string that starts at `position`. */
  function ParseArgument(input: Bytes, position: nat): (r: ArgumentOutcome)
    ensures r.Argument? ==> position < r.next <= |input|
  {
    if position >= |input| then Short
    else if input[position] != '$' then Bad(InvalidFormat)
    else match ReadLine(input, position + 1)
      case None => Short
      case Some(line) =>
        match ParseLength(line.text)
        case None => Bad(InvalidLength)
        case Some(length) =>
          if length > |input| - line.next then Short
          else
            var end := line.next + length;
            if |input| - end < 2 then Short
            else if input[end] != '\r' || input[end + 1] != '\n' then Bad(InvalidFormat)
            else Argument(input[line.next..end], end + 2)
  }

  function ParseArguments(input: Bytes, position: nat, count: nat, command: Command): (r: ParseOutcome)
    requires position <= |input|
    ensures r.Complete? ==> position <= r.consumed <= |input|
    decreases count
  {
    if count == 0 then Complete(command, position)
    else match ParseArgument(input, position)
      case Short => Incomplete
      case Bad(code) => Invalid(code)
      case Argument(value, next) => ParseArguments(input, next, count - 1, command + [value])
  }

  function ParseCommand(input: Bytes): (r: ParseOutcome)
    ensures r.Complete? ==> 0 < r.consumed <= |input|
  {
    if input == [] then Incomplete
    else if input[0] != '*' then Invalid(InvalidFormat)
    else match ReadLine(input, 1)
      case None => Incomplete
      case Some(line) =>
        match ParseLength(line.text)
        case None => Invalid(InvalidLength)
        case Some(count) => ParseArguments(input, line.next, count, [])
  }

  /** read_line: the search for the next CRLF, moving `position` behind it. */
  method ReadLineAt(input: Bytes, position: nat) returns (line: Option<Line>)
    ensures line == ReadLine(input, position)
  {
    var end := position;
    while end + 1 < |input| && !(input[end] == '\r' && input[end + 1] == '\n')
      invariant position <= end
      invariant FindCrlf(input, position) == FindCrlf(input, end)
    {
      end := end + 1;
    }
    if end + 1 >= |input| {
      return None;
    }
    return Some(Line(input[position..end], end + 2));
  }

  /** parse_command: one pass over the buffer with a moving position. */
  method ParseCommandLoop(input: Bytes) returns (outcome: ParseOutcome)
    ensures outcome == ParseCommand(input)
  {
    hide ReadLine, ParseLength;
    if input == [] {
      return Incomplete;
    }
    if input[0] != '*' {
      return Invalid(InvalidFormat);
    }
    var header := ReadLineAt(input, 1);
    if header == None {
      return Incomplete;
    }
    var count := ParseLength(header.value.text);
    if count == None {
      return Invalid(InvalidLength);
    }
    var position: nat := header.value.next;
    var command: Command := [];
    var i := 0;
    while i < count.value
      invariant i <= count.value
      invariant position <= |input|
      invariant ParseCommand(input) == ParseArguments(input, position, count.value - i, command)
    {
      if position >= |input| {
        return Incomplete;
      }
      if input[position] != '$' {
        return Invalid(InvalidFormat);
      }
      var line := ReadLineAt(input, position + 1);
      if line == None {
        return Incomplete;
      }
      var length := ParseLength(line.value.text);
      if length == None {
        return Invalid(InvalidLength);
      }
      if length.value > |input| - line.value.next {
        return Incomplete;
      }
      var argument := input[line.value.next..line.value.next + length.value];
      position := line.value.next + length.value;
      if |input| - position < 2 {
        return Incomplete;
      }
      if input[position] != '\r' || input[position + 1] != '\n' {
        return Invalid(InvalidFormat);
      }
      position := position + 2;
      command := command + [argument];
      i := i + 1;
    }
    return Complete(command, position);
  }

  /* ---------- Printing ---------- */

  function Bulk(header: Bytes, value: Bytes): Bytes {
    "$" + header + CRLF + value + CRLF
  }

  function SerializeBulk(value: Bytes): Bytes {
    Bulk(Print(|value|), value)
  }

  function SerializeArguments(arguments: Command): Bytes {
    if arguments == [] then [] else SerializeBulk(arguments[0]) + SerializeArguments(arguments[1..])
  }

  function ArrayHeader(header: Bytes): Bytes {
    "*" + header + CRLF
  }

  function SerializeCommand(command: Command): Bytes {
    ArrayHeader(Print(|command|)) + SerializeArguments(command)
  }

  /** serialize_command: appends to one output buffer. */
  method SerializeCommandLoop(command: Command) returns (result: Bytes)
    ensures result == SerializeCommand(command)
  {
    result := ArrayHeader(Print(|command|));
    var i := 0;
    while i < |command|
      invariant i <= |command|
      invariant result + SerializeArguments(command[i..]) == SerializeCommand(command)
    {
      assert command[i..][0] == command[i] && command[i..][1..] == command[i + 1..];
      ghost var before := result;
      result := result + SerializeBulk(command[i]);
      assert before + SerializeArguments(command[i..]) == result + SerializeArguments(command[i + 1..]);
      i := i + 1;
    }
    assert command[|command|..] == [];
    assert result + [] == result;
  }

  /** Every size in the command fits a size_t, as every container in memory does. */
  predicate Representable(command: Command) {
    |command| < U64_LIMIT && forall i :: 0 <= i < |command| ==> |command[i]| < U64_LIMIT
  }

  /* ---------- The grammar the parser accepts ---------- */

  /** The length headers, which may carry leading zeros, announce these bulk strings. */
  predicate Announces(headers: seq<Bytes>, arguments: Command) {
    && |headers| == |arguments|
    && forall i :: 0 <= i < |headers| ==> ParseLength(headers[i]) == Some(|arguments[i]|)
  }

  /** The bulk strings written under the given length headers. */
  function SpellArguments(headers: seq<Bytes>, arguments: Command): Bytes
    requires |headers| == |arguments|
  {
    if arguments == [] then []
    else Bulk(headers[0], arguments[0]) + SpellArguments(headers[1..], arguments[1..])
  }

  /** The command written under the given headers. */
  function Spell(header: Bytes, headers: seq<Bytes>, command: Command): Bytes
    requires |headers| == |command|
  {
    ArrayHeader(header) + SpellArguments(headers, command)
  }

  /** `bytes` is one of the spellings of this command. */
  ghost predicate Encodes(bytes: Bytes, command: Command) {
    exists header: Bytes, headers: seq<Bytes> ::
      && Announces(headers, command)
      && ParseLength(header) == Some(|command|)
      && bytes == Spell(header, headers, command)
  }

  lemma {:induction false} FindCrlfSkips(input: Bytes, from: nat, end: nat)
    requires from <= end && end + 2 <= |input|
    requires input[end] == '\r' && input[end + 1] == '\n'
    requires forall i :: from <= i < end ==> input[i] != '\r'
    ensures FindCrlf(input, from) == Some(end)
    decreases end - from
  {
    if from < end {
      FindCrlfSkips(input, from + 1, end);
    }
  }

  /** A line of digits is read back whole, whatever follows it. */
  lemma ReadDigitLine(input: Bytes, position: nat, header: Bytes)
    requires header != [] && AllDigits(header)
    requires position + |header| + 2 <= |input|
    requires input[position..position + |header| + 2] == header + CRLF
    ensures ReadLine(input, position) == Some(Line(header, position + |header| + 2))
  {
    var window := input[position..position + |header| + 2];
    forall i | position <= i < position + |header|
      ensures input[i] == header[i - position]
    {
      assert input[i] == window[i - position];
    }
    assert input[position + |header|] == window[|header|] == '\r';
    assert input[position + |header| + 1] == window[|header| + 1] == '\n';
    FindCrlfSkips(input, position, position + |header|);
    assert input[position..position + |header|] == header;
  }

  lemma ParseArgumentAccepts(input: Bytes, position: nat, header: Bytes, value: Bytes)
    requires ParseLength(header) == Some(|value|)
    requires position + |Bulk(header, value)| <= |input|
    requires input[position..position + |Bulk(header, value)|] == Bulk(header, value)
    ensures ParseArgument(input, position) == Argument(value, position + |Bulk(header, value)|)
  {
    var bulk := Bulk(header, value);
    var window := input[position..position + |bulk|];
    assert forall i {:trigger bulk[i]} :: 0 <= i < |bulk| ==> input[position + i] == window[i] == bulk[i];
    assert bulk[0] == '$';
    var h := |header|;
    assert bulk[1..h + 3] == header + CRLF;
    assert input[position + 1..position + 1 + h + 2] == bulk[1..h + 3];
    ReadDigitLine(input, position + 1, header);
    var start := position + h + 3;
    assert bulk[h + 3..h + 3 + |value|] == value;
    assert input[start..start + |value|] == bulk[h + 3..h + 3 + |value|];
    assert bulk[h + 3 + |value|] == '\r' && bulk[h + 4 + |value|] == '\n';
  }

  lemma {:induction false} ParseArgumentsAccepts(
    input: Bytes, position: nat, headers: seq<Bytes>, arguments: Command, command: Command)
    requires Announces(headers, arguments)
    requires position + |SpellArguments(headers, arguments)| <= |input|
    requires input[position..position + |SpellArguments(headers, arguments)|] == SpellArguments(headers, arguments)
    ensures ParseArguments(input, position, |arguments|, command)
         == Complete(command + arguments, position + |SpellArguments(headers, arguments)|)
    decreases |arguments|
  {
    hide ParseArgument, ParseLength, Bulk;
    if arguments == [] {
      assert command + arguments == command;
    } else {
      var bulk := Bulk(headers[0], arguments[0]);
      var rest := SpellArguments(headers[1..], arguments[1..]);
      var next := position + |bulk|;
      SplitWindow(input, position, bulk, rest);
      ParseArgumentAccepts(input, position, headers[0], arguments[0]);
      ParseArgumentsAccepts(input, next, headers[1..], arguments[1..], command + [arguments[0]]);
      assert command + [arguments[0]] + arguments[1..] == command + arguments;
    }
  }

  lemma SplitWindow(input: Bytes, position: nat, first: Bytes, second: Bytes)
    requires position + |first + second| <= |input|
    requires input[position..position + |first + second|] == first + second
    ensures input[position..position + |first|] == first
    ensures input[position + |first|..position + |first| + |second|] == second
  {
    var window := input[position..position + |first + second|];
    assert input[position..position + |first|] == window[..|first|];
    assert input[position + |first|..position + |first| + |second|] == window[|first|..];
  }

  /** Completeness: whatever follows a spelling of a command, the parser returns that command. */
  lemma ParseAccepts(header: Bytes, headers: seq<Bytes>, command: Command, tail: Bytes)
    requires Announces(headers, command) && ParseLength(header) == Some(|command|)
    ensures ParseCommand(Spell(header, headers, command) + tail)
         == Complete(command, |Spell(header, headers, command)|)
  {
    var rest := SpellArguments(headers, command);
    var input := Spell(header, headers, command) + tail;
    assert input[0] == '*';
    assert input[1..1 + |header| + 2] == header + CRLF;
    ReadDigitLine(input, 1, header);
    var next := |header| + 3;
    assert input[next..next + |rest|] == rest;
    ParseArgumentsAccepts(input, next, headers, command, []);
    assert [] + command == command;
  }

  lemma ReadLineSound(input: Bytes, position: nat)
    requires ReadLine(input, position).Some?
    ensures var line := ReadLine(input, position).value;
            input[position..line.next] == line.text + CRLF
  {
    CrlfFound(input, position);
  }

  lemma {:induction false} CrlfFound(input: Bytes, from: nat)
    requires FindCrlf(input, from).Some?
    ensures var end := FindCrlf(input, from).value; input[end..end + 2] == CRLF
    decreases |input| - from
  {
    if !(input[from] == '\r' && input[from + 1] == '\n') {
      CrlfFound(input, from + 1);
    }
  }

  lemma ParseArgumentSound(input: Bytes, position: nat) returns (header: Bytes)
    requires ParseArgument(input, position).Argument?
    ensures var r := ParseArgument(input, position);
            && input[position..r.next] == Bulk(header, r.value)
            && ParseLength(header) == Some(|r.value|)
  {
    var r := ParseArgument(input, position);
    var line := ReadLine(input, position + 1).value;
    ReadLineSound(input, position + 1);
    header := line.text;
    var end := line.next + |r.value|;
    assert input[position..r.next]
        == input[position..position + 1] + input[position + 1..line.next]
           + input[line.next..end] + input[end..r.next];
    assert input[position..position + 1] == "$";
    assert input[end..r.next] == CRLF;
  }

  lemma {:induction false} ParseArgumentsSound(input: Bytes, position: nat, count: nat, command: Command)
    returns (headers: seq<Bytes>)
    requires position <= |input|
    requires ParseArguments(input, position, count, command).Complete?
    ensures var r := ParseArguments(input, position, count, command);
            && |r.command| == |command| + count
            && command <= r.command
            && Announces(headers, r.command[|command|..])
            && input[position..r.consumed] == SpellArguments(headers, r.command[|command|..])
    decreases count
  {
    hide ParseArgument, ParseLength, Bulk;
    headers := [];
    if count > 0 {
      var r := ParseArguments(input, position, count, command);
      var argument := ParseArgument(input, position);
      var header := ParseArgumentSound(input, position);
      var extended := command + [argument.value];
      var others := ParseArgumentsSound(input, argument.next, count - 1, extended);
      headers := [header] + others;
      var arguments := r.command[|command|..];
      assert r.command[..|extended|] == extended;
      assert arguments[0] == extended[|command|] == argument.value;
      assert arguments[1..] == r.command[|extended|..];
      assert headers[1..] == others;
      assert input[position..r.consumed] == input[position..argument.next] + input[argument.next..r.consumed];
    }
  }

  /** Soundness: what the parser accepts is a spelling of what it returns. */
  lemma ParseSound(input: Bytes)
    requires ParseCommand(input).Complete?
    ensures var r := ParseCommand(input); Encodes(input[..r.consumed], r.command)
  {
    hide ParseArguments, ReadLine, SpellArguments, ParseLength;
    var r := ParseCommand(input);
    var line := ReadLine(input, 1).value;
    ReadLineSound(input, 1);
    var headers := ParseArgumentsSound(input, line.next, ParseLength(line.text).value, []);
    assert r.command[0..] == r.command;
    assert input[..r.consumed] == input[..1] + input[1..line.next] + input[line.next..r.consumed];
    assert input[..1] == "*";
    assert input[..r.consumed] == Spell(line.text, headers, r.command);
  }

  function PlainHeaders(arguments: Command): (headers: seq<Bytes>)
    ensures |headers| == |arguments|
  {
    seq(|arguments|, i requires 0 <= i < |arguments| => Print(|arguments[i]|))
  }

  lemma {:induction false} SerializedArgumentsSpell(arguments: Command)
    ensures SerializeArguments(arguments) == SpellArguments(PlainHeaders(arguments), arguments)
  {
    if arguments != [] {
      SerializedArgumentsSpell(arguments[1..]);
      assert PlainHeaders(arguments)[1..] == PlainHeaders(arguments[1..]);
    }
  }

  lemma SerializedCommandSpells(command: Command)
    requires Representable(command)
    ensures Announces(PlainHeaders(command), command)
    ensures ParseLength(Print(|command|)) == Some(|command|)
    ensures SerializeCommand(command) == Spell(Print(|command|), PlainHeaders(command), command)
  {
    PrintParse(|command|, U64_LIMIT);
    forall i | 0 <= i < |command| ensures ParseLength(PlainHeaders(command)[i]) == Some(|command[i]|) {
      PrintParse(|command[i]|, U64_LIMIT);
    }
    SerializedArgumentsSpell(command);
  }

  /** Round trip: any bytes may stand in the arguments and any bytes may follow. */
  lemma RoundTrip(command: Command, tail: Bytes)
    requires Representable(command)
    ensures ParseCommand(SerializeCommand(command) + tail)
         == Complete(command, |SerializeCommand(command)|)
  {
    SerializedCommandSpells(command);
    ParseAccepts(Print(|command|), PlainHeaders(command), command, tail);
  }

  /* ---------- More bytes never change a verdict ---------- */

  lemma {:induction false} FindCrlfStable(input: Bytes, more: Bytes, from: nat)
    requires FindCrlf(input, from).Some?
    ensures FindCrlf(input + more, from) == FindCrlf(input, from)
    decreases |input| - from
  {
    if !(input[from] == '\r' && input[from + 1] == '\n') {
      FindCrlfStable(input, more, from + 1);
    }
  }

  lemma ReadLineStable(input: Bytes, more: Bytes, position: nat)
    requires ReadLine(input, position).Some?
    ensures ReadLine(input + more, position) == ReadLine(input, position)
  {
    FindCrlfStable(input, more, position);
    var end := FindCrlf(input, position).value;
    assert (input + more)[position..end] == input[position..end];
  }

  lemma ParseArgumentStable(input: Bytes, more: Bytes, position: nat)
    requires !ParseArgument(input, position).Short?
    ensures ParseArgument(input + more, position) == ParseArgument(input, position)
  {
    if input[position] == '$' {
      ReadLineStable(input, more, position + 1);
      var line := ReadLine(input, position + 1).value;
      var length := ParseLength(line.text);
      if length.Some? {
        var end := line.next + length.value;
        assert (input + more)[line.next..end] == input[line.next..end];
      }
    }
  }

  lemma {:induction false} ParseArgumentsStable(
    input: Bytes, more: Bytes, position: nat, count: nat, command: Command)
    requires position <= |input|
    requires !ParseArguments(input, position, count, command).Incomplete?
    ensures ParseArguments(input + more, position, count, command)
         == ParseArguments(input, position, count, command)
    decreases count
  {
    if count > 0 {
      ParseArgumentStable(input, more, position);
      var argument := ParseArgument(input, position);
      if argument.Argument? {
        ParseArgumentsStable(input, more, argument.next, count - 1, command + [argument.value]);
      }
    }
  }

  /** A finished or failed parse is not changed by bytes that arrive later. */
  lemma ParseStable(input: Bytes, more: Bytes)
    requires !ParseCommand(input).Incomplete?
    ensures ParseCommand(input + more) == ParseCommand(input)
  {
    if input[0] == '*' {
      ReadLineStable(input, more, 1);
      var line := ReadLine(input, 1).value;
      var count := ParseLength(line.text);
      if count.Some? {
        ParseArgumentsStable(input, more, line.next, count.value, []);
      }
    }
  }

  /** Every proper prefix of a serialised command asks for more bytes; none is an error. */
  lemma ProperPrefixIncomplete(command: Command, prefix: Bytes)
    requires Representable(command)
    requires prefix < SerializeCommand(command)
    ensures ParseCommand(prefix).Incomplete?
  {
    var whole := SerializeCommand(command);
    var more := whole[|prefix|..];
    assert whole == prefix + more;
    RoundTrip(command, []);
    assert whole + [] == whole;
    if !ParseCommand(prefix).Incomplete? {
      ParseStable(prefix, more);
    }
  }
}
