/** Typed responses, their RESP2 bytes, and a decoder for those bytes. */
module Responses {
  import opened Wrappers
  import opened Decimal
  import opened Resp

  datatype Response =
    | SimpleString(text: Bytes)
    | SimpleError(text: Bytes)
    | BulkString(value: Bytes)
    | Integer(number: int)
    | NullBulkString
    | NullArray
    | EmptyArray
    | NoResponse
    | Array(values: seq<Bytes>)
    | ResponseArray(responses: seq<Response>)

  /* ---------- Serialising ---------- */

  function Serialize(response: Response): Bytes
    decreases response, 1
  {
    match response
    case SimpleString(text) => "+" + text + CRLF
    case SimpleError(text) => "-" + text + CRLF
    case BulkString(value) => SerializeBulk(value)
    case Integer(number) => ":" + PrintInt(number) + CRLF
    case NullBulkString => "$-1\r\n"
    case NullArray => "*-1\r\n"
    case EmptyArray => "*0\r\n"
    case NoResponse => []
    case Array(values) => SerializeCommand(values)
    case ResponseArray(responses) => ArrayHeader(Print(|responses|)) + SerializeEach(responses)
  }

  function SerializeEach(responses: seq<Response>): Bytes
    decreases responses, 0
  {
    if responses == [] then [] else Serialize(responses[0]) + SerializeEach(responses[1..])
  }

  /** append_response: appends to one output buffer, recursing for nested arrays. */
  method AppendResponse(output: Bytes, response: Response) returns (result: Bytes)
    ensures result == output + Serialize(response)
    decreases response, 1
  {
    match response {
      case Array(values) =>
        var items := SerializeCommandLoop(values);
        result := output + items;
      case ResponseArray(responses) =>
        hide SerializeEach, ArrayHeader;
        result := AppendEach(output + ArrayHeader(Print(|responses|)), responses);
      case _ =>
        hide SerializeBulk;
        result := output + Serialize(response);
    }
  }

  method AppendEach(output: Bytes, responses: seq<Response>) returns (result: Bytes)
    ensures result == output + SerializeEach(responses)
    decreases responses, 0
  {
    hide Serialize;
    result := output;
    var i := 0;
    assert responses[0..] == responses;
    while i < |responses|
      invariant i <= |responses|
      invariant result + SerializeEach(responses[i..]) == output + SerializeEach(responses)
    {
      assert responses[i..][0] == responses[i] && responses[i..][1..] == responses[i + 1..];
      ghost var before := result;
      result := AppendResponse(result, responses[i]);
      assert before + (Serialize(responses[i]) + SerializeEach(responses[i + 1..]))
          == result + SerializeEach(responses[i + 1..]);
      i := i + 1;
    }
    assert responses[|responses|..] == [];
    assert result + [] == result;
  }

  /* ---------- Decoding ---------- */

  datatype Decoded = Decoded(response: Response, next: nat) | Undecodable

  datatype DecodedMany = DecodedMany(responses: seq<Response>, next: nat) | UndecodableMany

  /** A RESP2 reader for one response that starts at `position`. */
  function Decode(input: Bytes, position: nat): (r: Decoded)
    ensures r.Decoded? ==> position < r.next <= |input|
    decreases |input| - position, 0
  {
    if position >= |input| then Undecodable
    else match ReadLine(input, position + 1)
      case None => Undecodable
      case Some(line) =>
        match input[position]
        case '+' => Decoded(SimpleString(line.text), line.next)
        case '-' => Decoded(SimpleError(line.text), line.next)
        case ':' =>
          (match ParseSigned(line.text, I64_LIMIT)
           case Some(number) => Decoded(Integer(number), line.next)
           case None => Undecodable)
        case '$' => DecodeBulk(input, line)
        case '*' =>
          if line.text == "-1" then Decoded(NullArray, line.next)
          else (match ParseLength(line.text)
            case None => Undecodable
            case Some(count) =>
              match DecodeMany(input, line.next, count)
              case DecodedMany(responses, next) => Decoded(ResponseArray(responses), next)
              case UndecodableMany => Undecodable)
        case _ => Undecodable
  }

  function DecodeBulk(input: Bytes, line: Line): (r: Decoded)
    requires line.next <= |input|
    ensures r.Decoded? ==> line.next <= r.next <= |input|
  {
    if line.text == "-1" then Decoded(NullBulkString, line.next)
    else match ParseLength(line.text)
      case None => Undecodable
      case Some(length) =>
        if length + 2 > |input| - line.next then Undecodable
        else
          var end := line.next + length;
          if input[end..end + 2] == CRLF then Decoded(BulkString(input[line.next..end]), end + 2)
          else Undecodable
  }

  function DecodeMany(input: Bytes, position: nat, count: nat): (r: DecodedMany)
    requires position <= |input|
    ensures r.DecodedMany? ==> position <= r.next <= |input|
    decreases |input| - position, 1
  {
    if count == 0 then DecodedMany([], position)
    else match Decode(input, position)
      case Undecodable => UndecodableMany
      case Decoded(response, next) =>
        match DecodeMany(input, next, count - 1)
        case UndecodableMany => UndecodableMany
        case DecodedMany(responses, end) => DecodedMany([response] + responses, end)
  }

  /* ---------- Unique decodability ---------- */

  /** One spelling per wire form: the three empty arrays agree, and so do the two kinds of arrays. */
  function Canonical(response: Response): Response
    decreases response, 1
  {
    match response
    case EmptyArray => ResponseArray([])
    case Array(values) => ResponseArray(CanonicalBulks(values))
    case ResponseArray(responses) => ResponseArray(CanonicalEach(responses))
    case _ => response
  }

  function CanonicalBulks(values: seq<Bytes>): seq<Response> {
    if values == [] then [] else [BulkString(values[0])] + CanonicalBulks(values[1..])
  }

  function CanonicalEach(responses: seq<Response>): seq<Response>
    decreases responses, 0
  {
    if responses == [] then [] else [Canonical(responses[0])] + CanonicalEach(responses[1..])
  }

  /** Simple texts hold no CRLF, numbers and sizes fit their C++ types, and nothing inside is NoResponse. */
  predicate WellFormed(response: Response)
    decreases response, 1
  {
    match response
    case SimpleString(text) => FindCrlf(text, 0) == None
    case SimpleError(text) => FindCrlf(text, 0) == None
    case BulkString(value) => |value| < U64_LIMIT
    case Integer(number) => 0 <= number + I64_LIMIT && number < I64_LIMIT
    case NoResponse => false
    case Array(values) => Representable(values)
    case ResponseArray(responses) => |responses| < U64_LIMIT && WellFormedEach(responses)
    case _ => true
  }

  predicate WellFormedEach(responses: seq<Response>)
    decreases responses, 0
  {
    responses == [] || (WellFormed(responses[0]) && WellFormedEach(responses[1..]))
  }

  /** `bytes` stands in `input` at `position`. */
  predicate At(input: Bytes, position: nat, bytes: Bytes) {
    position + |bytes| <= |input| && input[position..position + |bytes|] == bytes
  }

  lemma AtSplit(input: Bytes, position: nat, first: Bytes, second: Bytes)
    requires At(input, position, first + second)
    ensures At(input, position, first) && At(input, position + |first|, second)
  {
    SplitWindow(input, position, first, second);
  }

  lemma AtSlice(input: Bytes, position: nat, text: Bytes, more: Bytes)
    requires At(input, position, text + more)
    ensures position + |text| <= |input| && input[position..position + |text|] == text
  {
    AtSplit(input, position, text, more);
  }

  lemma AtFirst(input: Bytes, position: nat, tag: char)
    requires At(input, position, [tag])
    ensures position < |input| && input[position] == tag
  {
    assert input[position] == input[position..position + 1][0];
  }

  lemma {:induction false} FirstCrlf(input: Bytes, from: nat, text: Bytes, k: nat)
    requires At(input, from, text + CRLF) && k <= |text|
    requires FindCrlf(text, k) == None
    ensures FindCrlf(input, from + k) == Some(from + |text|)
    decreases |text| - k
  {
    var window := input[from..from + |text| + 2];
    assert window == text + CRLF;
    assert input[from + k] == window[k] && input[from + k + 1] == window[k + 1];
    if k < |text| {
      FirstCrlf(input, from, text, k + 1);
    }
  }

  /** A text without CRLF, followed by one, is read back as a line. */
  lemma ReadTextLine(input: Bytes, position: nat, text: Bytes)
    requires At(input, position, text + CRLF)
    requires FindCrlf(text, 0) == None
    ensures ReadLine(input, position) == Some(Line(text, position + |text| + 2))
  {
    hide FindCrlf, At;
    FirstCrlf(input, position, text, 0);
    AtSlice(input, position, text, CRLF);
  }

  lemma {:induction false} NoCarriageReturn(text: Bytes, k: nat)
    requires forall i :: 0 <= i < |text| ==> text[i] != '\r'
    ensures FindCrlf(text, k) == None
    decreases |text| - k
  {
    if k + 1 < |text| {
      NoCarriageReturn(text, k + 1);
    }
  }

  /** A one-character tag, a short text and CRLF: the shape of every header line. */
  lemma ReadTagged(input: Bytes, position: nat, tag: char, text: Bytes)
    requires At(input, position, [tag] + text + CRLF)
    requires FindCrlf(text, 0) == None
    ensures position < |input| && input[position] == tag
    ensures ReadLine(input, position + 1) == Some(Line(text, position + |text| + 3))
  {
    hide FindCrlf, At, ReadLine;
    assert [tag] + text + CRLF == [tag] + (text + CRLF);
    AtSplit(input, position, [tag], text + CRLF);
    AtFirst(input, position, tag);
    ReadTextLine(input, position + 1, text);
  }

  lemma DigitsHaveNoCrlf(n: nat)
    ensures FindCrlf(Print(n), 0) == None && Print(n) != "-1"
  {
    var text := Print(n);
    assert forall i :: 0 <= i < |text| ==> IsDigit(text[i]);
    assert "-1"[0] == '-';
    NoCarriageReturn(text, 0);
  }

  lemma DecodeBulkString(input: Bytes, position: nat, value: Bytes)
    requires |value| < U64_LIMIT
    requires At(input, position, SerializeBulk(value))
    ensures Decode(input, position) == Decoded(BulkString(value), position + |SerializeBulk(value)|)
  {
    hide FindCrlf, ReadLine;
    var header := Print(|value|);
    assert SerializeBulk(value) == (['$'] + header + CRLF) + (value + CRLF);
    AtSplit(input, position, ['$'] + header + CRLF, value + CRLF);
    DigitsHaveNoCrlf(|value|);
    ReadTagged(input, position, '$', header);
    PrintParse(|value|, U64_LIMIT);
    AtSplit(input, position + |header| + 3, value, CRLF);
  }

  lemma {:induction false} DecodeBulks(input: Bytes, position: nat, values: seq<Bytes>)
    requires forall i :: 0 <= i < |values| ==> |values[i]| < U64_LIMIT
    requires At(input, position, SerializeArguments(values))
    ensures DecodeMany(input, position, |values|)
         == DecodedMany(CanonicalBulks(values), position + |SerializeArguments(values)|)
    decreases |values|
  {
    hide Decode, SerializeBulk;
    if values != [] {
      AtSplit(input, position, SerializeBulk(values[0]), SerializeArguments(values[1..]));
      DecodeBulkString(input, position, values[0]);
      DecodeBulks(input, position + |SerializeBulk(values[0])|, values[1..]);
    }
  }

  lemma DecodeArrayHeader(input: Bytes, position: nat, count: nat)
    requires count < U64_LIMIT
    requires At(input, position, ArrayHeader(Print(count)))
    ensures position < |input| && input[position] == '*'
    ensures ReadLine(input, position + 1) == Some(Line(Print(count), position + |ArrayHeader(Print(count))|))
    ensures Print(count) != "-1" && ParseLength(Print(count)) == Some(count)
  {
    assert ArrayHeader(Print(count)) == ['*'] + Print(count) + CRLF;
    DigitsHaveNoCrlf(count);
    ReadTagged(input, position, '*', Print(count));
    PrintParse(count, U64_LIMIT);
  }

  lemma DecodeInteger(input: Bytes, position: nat, number: int)
    requires 0 <= number + I64_LIMIT && number < I64_LIMIT
    requires At(input, position, Serialize(Integer(number)))
    ensures Decode(input, position) == Decoded(Integer(number), position + |Serialize(Integer(number))|)
  {
    var text := PrintInt(number);
    if number < 0 {
      assert text[0] == '-' && forall i :: 1 <= i < |text| ==> text[i] == Print(-number)[i - 1];
      assert AllDigits(Print(-number));
    } else {
      assert AllDigits(Print(number));
    }
    NoCarriageReturn(text, 0);
    assert Serialize(Integer(number)) == [':'] + text + CRLF;
    ReadTagged(input, position, ':', text);
    PrintParseSigned(number, I64_LIMIT);
  }

  /** A reply without nested replies is recovered from its bytes, whatever surrounds them. */
  lemma DecodeFlat(input: Bytes, position: nat, response: Response)
    requires WellFormed(response) && !response.ResponseArray? && !response.Array?
    requires At(input, position, Serialize(response))
    ensures Decode(input, position) == Decoded(Canonical(response), position + |Serialize(response)|)
  {
    match response {
      case SimpleString(text) =>
        assert Serialize(response) == ['+'] + text + CRLF;
        ReadTagged(input, position, '+', text);
      case SimpleError(text) =>
        assert Serialize(response) == ['-'] + text + CRLF;
        ReadTagged(input, position, '-', text);
      case BulkString(value) => DecodeBulkString(input, position, value);
      case Integer(number) => DecodeInteger(input, position, number);
      case NullBulkString =>
        assert Serialize(response) == ['$'] + "-1" + CRLF;
        NoCarriageReturn("-1", 0);
        ReadTagged(input, position, '$', "-1");
      case NullArray =>
        assert Serialize(response) == ['*'] + "-1" + CRLF;
        NoCarriageReturn("-1", 0);
        ReadTagged(input, position, '*', "-1");
      case EmptyArray =>
        assert Print(0) == "0";
        assert Serialize(response) == ArrayHeader(Print(0));
        DecodeArrayHeader(input, position, 0);
    }
  }

  lemma DecodeArrayOf(input: Bytes, position: nat, count: nat, body: Bytes, responses: seq<Response>)
    requires count < U64_LIMIT
    requires At(input, position, ArrayHeader(Print(count)) + body)
    requires var start := position + |ArrayHeader(Print(count))|;
             && start <= |input|
             && DecodeMany(input, start, count) == DecodedMany(responses, start + |body|)
    ensures Decode(input, position)
         == Decoded(ResponseArray(responses), position + |ArrayHeader(Print(count)) + body|)
  {
    hide DecodeBulk, ParseLength, ReadLine, ArrayHeader, At, DecodeMany, Print;
    AtSplit(input, position, ArrayHeader(Print(count)), body);
    DecodeArrayHeader(input, position, count);
  }

  /** Unique decodability: any nested reply is recovered from its bytes, whatever surrounds them. */
  lemma {:induction false} DecodeSerialized(input: Bytes, position: nat, response: Response)
    requires WellFormed(response)
    requires At(input, position, Serialize(response))
    ensures Decode(input, position) == Decoded(Canonical(response), position + |Serialize(response)|)
    decreases response, 1
  {
    hide Decode, DecodeMany, ArrayHeader, SerializeEach, SerializeArguments, At;
    match response {
      case Array(values) =>
        var start := position + |ArrayHeader(Print(|values|))|;
        AtSplit(input, position, ArrayHeader(Print(|values|)), SerializeArguments(values));
        AtFits(input, start, SerializeArguments(values));
        DecodeBulks(input, start, values);
        DecodeArrayOf(input, position, |values|, SerializeArguments(values), CanonicalBulks(values));
      case ResponseArray(responses) =>
        var start := position + |ArrayHeader(Print(|responses|))|;
        AtSplit(input, position, ArrayHeader(Print(|responses|)), SerializeEach(responses));
        AtFits(input, start, SerializeEach(responses));
        DecodeSerializedEach(input, start, responses);
        DecodeArrayOf(input, position, |responses|, SerializeEach(responses), CanonicalEach(responses));
      case _ => DecodeFlat(input, position, response);
    }
  }

  lemma AtFits(input: Bytes, position: nat, bytes: Bytes)
    requires At(input, position, bytes)
    ensures position + |bytes| <= |input|
  {
  }

  lemma {:induction false} DecodeSerializedEach(input: Bytes, position: nat, responses: seq<Response>)
    requires WellFormedEach(responses)
    requires At(input, position, SerializeEach(responses))
    ensures DecodeMany(input, position, |responses|)
         == DecodedMany(CanonicalEach(responses), position + |SerializeEach(responses)|)
    decreases responses, 0
  {
    hide Decode, Serialize;
    if responses != [] {
      AtSplit(input, position, Serialize(responses[0]), SerializeEach(responses[1..]));
      DecodeSerialized(input, position, responses[0]);
      DecodeSerializedEach(input, position + |Serialize(responses[0])|, responses[1..]);
    }
  }

  /** Two replies whose byte streams agree are the same reply and are followed by the same bytes. */
  lemma SerializationInjective(a: Response, b: Response, afterA: Bytes, afterB: Bytes)
    requires WellFormed(a) && WellFormed(b)
    requires Serialize(a) + afterA == Serialize(b) + afterB
    ensures Canonical(a) == Canonical(b) && afterA == afterB
  {
    hide Decode, Canonical, WellFormed, Serialize;
    var input := Serialize(a) + afterA;
    DecodeSerialized(input, 0, a);
    DecodeSerialized(input, 0, b);
    assert afterA == input[|Serialize(a)|..] && afterB == input[|Serialize(b)|..];
  }

  /** A simple text that holds a CRLF is cut there by any reader. */
  lemma SimpleTextCut(text: Bytes)
    requires FindCrlf(text, 0).Some?
    ensures var cut := FindCrlf(text, 0).value;
            && Decode(Serialize(SimpleError(text)), 0) == Decoded(SimpleError(text[..cut]), cut + 3)
            && Decode(Serialize(SimpleString(text)), 0) == Decoded(SimpleString(text[..cut]), cut + 3)
  {
    hide FindCrlf;
    TaggedTextCut('-', text);
    TaggedTextCut('+', text);
  }

  lemma TaggedTextCut(tag: char, text: Bytes)
    requires FindCrlf(text, 0).Some?
    ensures var input := [tag] + text + CRLF;
            var cut := FindCrlf(text, 0).value;
            FindCrlf(input, 1) == Some(cut + 1) && cut + 1 <= |input| && input[1..cut + 1] == text[..cut]
  {
    hide FindCrlf;
    FindCrlfShift(tag, text, 0);
    FindCrlfStable([tag] + text, CRLF, 1);
  }

  /** A simple text is recovered exactly when it holds no CRLF; the serializer does not check this. */
  lemma SimpleTextDecodes(text: Bytes)
    ensures Decode(Serialize(SimpleError(text)), 0) == Decoded(SimpleError(text), |Serialize(SimpleError(text))|)
       <==> FindCrlf(text, 0) == None
    ensures Decode(Serialize(SimpleString(text)), 0) == Decoded(SimpleString(text), |Serialize(SimpleString(text))|)
       <==> FindCrlf(text, 0) == None
  {
    hide Decode, At;
    if FindCrlf(text, 0) == None {
      WholeAt(Serialize(SimpleError(text)));
      DecodeSerialized(Serialize(SimpleError(text)), 0, SimpleError(text));
      WholeAt(Serialize(SimpleString(text)));
      DecodeSerialized(Serialize(SimpleString(text)), 0, SimpleString(text));
    } else {
      SimpleTextCut(text);
    }
  }

  lemma WholeAt(input: Bytes)
    ensures At(input, 0, input)
  {
    assert input[0..|input|] == input;
  }

  lemma {:induction false} FindCrlfShift(tag: char, text: Bytes, k: nat)
    requires FindCrlf(text, k).Some?
    ensures FindCrlf([tag] + text, k + 1) == Some(FindCrlf(text, k).value + 1)
    decreases |text| - k
  {
    var shifted := [tag] + text;
    assert shifted[k + 1] == text[k] && shifted[k + 2] == text[k + 1];
    if !(text[k] == '\r' && text[k + 1] == '\n') {
      FindCrlfShift(tag, text, k + 1);
    }
  }
}
