/** The dump-file decoder: what it reads, and every way of writing it. */
module Rdb {
  import opened Wrappers
  import opened Decimal
  import opened Octets
  import opened Snapshot

  type Input = seq<Octet>

  /** A value and the input left behind it, or an error. */
  datatype Read<+T> = Got(value: T, rest: Input) | Bad

  datatype Length = Length(value: nat, encoded: bool)

  const END_OF_FILE: Octet := 255

  /* ---------- The decoder on values ---------- */

  function ReadBytes(input: Input, count: nat): Read<Input> {
    if count > |input| then Bad else Got(input[..count], input[count..])
  }

  function ReadBigEndian(input: Input, width: nat): Read<nat> {
    match ReadBytes(input, width)
    case Got(bytes, rest) => Got(BigEndian(bytes), rest)
    case Bad => Bad
  }

  function ReadLittleEndian(input: Input, width: nat): Read<nat> {
    match ReadBytes(input, width)
    case Got(bytes, rest) => Got(LittleEndian(bytes), rest)
    case Bad => Bad
  }

  function AsLength(read: Read<nat>): Read<Length> {
    match read
    case Got(value, rest) => Got(Length(value, false), rest)
    case Bad => Bad
  }

  function ReadLength(input: Input): (r: Read<Length>)
    ensures r.Got? ==> |r.rest| <= |input|
  {
    if input == [] then Bad
    else
      var first, rest := input[0] as nat, input[1..];
      if first / 64 == 0 then Got(Length(first % 64, false), rest)
      else if first / 64 == 1 then
        if rest == [] then Bad else Got(Length(first % 64 * 256 + rest[0] as nat, false), rest[1..])
      else if first / 64 == 3 then Got(Length(first % 64, true), rest)
      else if first == 0x80 then AsLength(ReadBigEndian(rest, 4))
      else if first == 0x81 then AsLength(ReadBigEndian(rest, 8))
      else Bad
  }

  function ReadPlainLength(input: Input): (r: Read<nat>)
    ensures r.Got? ==> |r.rest| <= |input|
  {
    match ReadLength(input)
    case Got(length, rest) => if length.encoded then Bad else Got(length.value, rest)
    case Bad => Bad
  }

  /** A two's complement number of the given width, printed. */
  function ReadInteger(input: Input, width: nat): Read<Bytes> {
    match ReadBytes(input, width)
    case Got(bytes, rest) =>
      LittleEndianSpells(bytes);
      Got(PrintInt(Signed(LittleEndian(bytes), width)), rest)
    case Bad => Bad
  }

  function ReadText(input: Input, count: nat): Read<Bytes> {
    match ReadBytes(input, count)
    case Got(bytes, rest) => Got(Text(bytes), rest)
    case Bad => Bad
  }

  function ReadString(input: Input): (r: Read<Bytes>)
    ensures r.Got? ==> |r.rest| <= |input|
  {
    match ReadLength(input)
    case Bad => Bad
    case Got(length, rest) =>
      if !length.encoded then ReadText(rest, length.value)
      else if length.value == 0 then ReadInteger(rest, 1)
      else if length.value == 1 then ReadInteger(rest, 2)
      else if length.value == 2 then ReadInteger(rest, 4)
      else Bad
  }

  /** What one record asks of the reader. */
  datatype Item = Ignored | Expires(at: nat) | Value(key: Bytes, value: Bytes)

  function ReadPair(input: Input): (r: Read<(Bytes, Bytes)>)
    ensures r.Got? ==> |r.rest| <= |input|
  {
    match ReadString(input)
    case Bad => Bad
    case Got(key, rest) =>
      match ReadString(rest)
      case Bad => Bad
      case Got(value, last) => Got((key, value), last)
  }

  /** The expected value, if any; the record itself means nothing. */
  function Skip(read: Read<nat>, allowed: nat -> bool): Read<Item> {
    match read
    case Got(value, rest) => if allowed(value) then Got(Ignored, rest) else Bad
    case Bad => Bad
  }

  function Timed(read: Read<nat>, unit: nat): Read<Item> {
    match read
    case Got(value, rest) => Got(Expires(value * unit), rest)
    case Bad => Bad
  }

  /** A record with the given marker. */
  function ReadItem(marker: Octet, input: Input): (r: Read<Item>)
    ensures r.Got? ==> |r.rest| <= |input|
  {
    if marker == 250 then
      match ReadPair(input)
      case Got(_, rest) => Got(Ignored, rest)
      case Bad => Bad
    else if marker == 254 then Skip(ReadPlainLength(input), database => database == 0)
    else if marker == 251 then
      match ReadPlainLength(input)
      case Got(_, rest) => Skip(ReadPlainLength(rest), _ => true)
      case Bad => Bad
    else if marker == 252 then Timed(ReadLittleEndian(input, 8), 1)
    else if marker == 253 then Timed(ReadLittleEndian(input, 4), 1000)
    else if marker == 248 then Skip(ReadPlainLength(input), _ => true)
    else if marker == 249 then Skip(ReadLittleEndian(input, 1), _ => true)
    else if marker != 0 then Bad
    else
      match ReadPair(input)
      case Got(pair, rest) => Got(Value(pair.0, pair.1), rest)
      case Bad => Bad
  }

  /** What an item adds to the entries, given the pending expiry. */
  function Added(item: Item, pending: Option<nat>): seq<StringEntry> {
    if item.Value? then [StringEntry(item.key, item.value, pending)] else []
  }

  /** The pending expiry behind an item. */
  function NextPending(item: Item, pending: Option<nat>): Option<nat> {
    match item
    case Ignored => pending
    case Expires(at) => Some(at)
    case Value(_, _) => None
  }

  /** The records up to the end marker. */
  function ReadRecords(input: Input, entries: seq<StringEntry>, pending: Option<nat>): Option<seq<StringEntry>>
    decreases |input|
  {
    if input == [] then None
    else if input[0] == END_OF_FILE then Some(entries)
    else
      match ReadItem(input[0], input[1..])
      case Bad => None
      case Got(item, rest) => ReadRecords(rest, entries + Added(item, pending), NextPending(item, pending))
  }

  /** "REDIS" */
  const MAGIC: Input := [82, 69, 68, 73, 83]

  predicate IsVersion(digits: Input) {
    |digits| == 4 && forall i :: 0 <= i < 4 ==> 48 <= digits[i] <= 57
  }

  function Parse(contents: Input): Option<seq<StringEntry>> {
    if |contents| < 10 || contents[..5] != MAGIC || !IsVersion(contents[5..9]) then None
    else ReadRecords(contents[9..], [], None)
  }

  /* ---------- Every way of writing a dump ---------- */

  datatype Form = Six | Fourteen | ThirtyTwo | SixtyFour

  predicate Fits(n: nat, form: Form) {
    match form
    case Six => n < 64
    case Fourteen => n < 64 * 256
    case ThirtyTwo => n < Power(4)
    case SixtyFour => n < Power(8)
  }

  function WriteLength(n: nat, form: Form): Input
    requires Fits(n, form)
  {
    match form
    case Six => [n as Octet]
    case Fourteen => [(64 + n / 256) as Octet, (n % 256) as Octet]
    case ThirtyTwo => [0x80] + ToBigEndian(n, 4)
    case SixtyFour => [0x81] + ToBigEndian(n, 8)
  }

  /** A string written out after its length, or as a small integer. */
  datatype Spelling = Raw(bytes: Input, form: Form) | Small(n: int, width: nat)

  /** The code that announces an integer of the given width. */
  function Code(width: nat): Octet {
    if width == 1 then 0xC0 else if width == 2 then 0xC1 else 0xC2
  }

  predicate ValidSpelling(s: Spelling) {
    match s
    case Raw(bytes, form) => Fits(|bytes|, form)
    case Small(n, width) => width in {1, 2, 4} && -(Power(width) as int) <= 2 * n < Power(width)
  }

  function Spelled(s: Spelling): Bytes {
    match s
    case Raw(bytes, _) => Text(bytes)
    case Small(n, _) => PrintInt(n)
  }

  function WriteString(s: Spelling): Input
    requires ValidSpelling(s)
  {
    match s
    case Raw(bytes, form) => WriteLength(|bytes|, form) + bytes
    case Small(n, width) => [Code(width)] + ToLittleEndian(Pattern(n, width), width)
  }

  datatype Record =
    | Auxiliary(key: Spelling, value: Spelling)
    | Select(form: Form)
    | Resize(keys: nat, keysForm: Form, expiring: nat, expiringForm: Form)
    | Idle(idle: nat, idleForm: Form)
    | Frequency(frequency: Octet)
    | Milliseconds(time: nat)
    | Seconds(time: nat)
    | Pair(key: Spelling, value: Spelling)

  predicate ValidRecord(r: Record) {
    match r
    case Auxiliary(key, value) => ValidSpelling(key) && ValidSpelling(value)
    case Select(_) => true
    case Resize(keys, keysForm, expiring, expiringForm) => Fits(keys, keysForm) && Fits(expiring, expiringForm)
    case Idle(idle, idleForm) => Fits(idle, idleForm)
    case Frequency(_) => true
    case Milliseconds(time) => time < Power(8)
    case Seconds(time) => time < Power(4)
    case Pair(key, value) => ValidSpelling(key) && ValidSpelling(value)
  }

  predicate AllValid(records: seq<Record>) {
    forall i :: 0 <= i < |records| ==> ValidRecord(records[i])
  }

  lemma ZeroFits(form: Form)
    ensures Fits(0, form)
  {
  }

  function Marker(r: Record): Octet {
    match r
    case Auxiliary(_, _) => 250
    case Select(_) => 254
    case Resize(_, _, _, _) => 251
    case Idle(_, _) => 248
    case Frequency(_) => 249
    case Milliseconds(_) => 252
    case Seconds(_) => 253
    case Pair(_, _) => 0
  }

  function WriteBody(r: Record): Input
    requires ValidRecord(r)
  {
    match r
    case Auxiliary(key, value) => WriteString(key) + WriteString(value)
    case Select(form) => ZeroFits(form); WriteLength(0, form)
    case Resize(keys, keysForm, expiring, expiringForm) => WriteLength(keys, keysForm) + WriteLength(expiring, expiringForm)
    case Idle(idle, idleForm) => WriteLength(idle, idleForm)
    case Frequency(frequency) => [frequency]
    case Milliseconds(time) => ToLittleEndian(time, 8)
    case Seconds(time) => ToLittleEndian(time, 4)
    case Pair(key, value) => WriteString(key) + WriteString(value)
  }

  function WriteRecords(records: seq<Record>): Input
    requires AllValid(records)
  {
    if records == [] then [] else [Marker(records[0])] + WriteBody(records[0]) + WriteRecords(records[1..])
  }

  function WriteFile(version: Input, records: seq<Record>, tail: Input): Input
    requires AllValid(records)
  {
    MAGIC + version + (WriteRecords(records) + ([END_OF_FILE] + tail))
  }

  /** The expiry in force behind the given records: that of the last one, if no value has used it. */
  function LastExpiry(records: seq<Record>): Option<nat> {
    if records == [] then None
    else match records[|records| - 1]
      case Milliseconds(time) => Some(time)
      case Seconds(time) => Some(1000 * time)
      case Pair(_, _) => None
      case _ => LastExpiry(records[..|records| - 1])
  }

  /** What the records mean: each value with the expiry in force where it stands. */
  function Entries(records: seq<Record>): seq<StringEntry> {
    if records == [] then []
    else
      var front, last := records[..|records| - 1], records[|records| - 1];
      if last.Pair? then Entries(front) + [StringEntry(Spelled(last.key), Spelled(last.value), LastExpiry(front))]
      else Entries(front)
  }

  /* ---------- Reading inverts writing ---------- */

  lemma BytesRead(bytes: Input, tail: Input)
    ensures ReadBytes(bytes + tail, |bytes|) == Got(bytes, tail)
  {
    assert (bytes + tail)[..|bytes|] == bytes && (bytes + tail)[|bytes|..] == tail;
  }

  lemma BigEndianReads(n: nat, width: nat, tail: Input)
    requires n < Power(width)
    ensures ReadBigEndian(ToBigEndian(n, width) + tail, width) == Got(n, tail)
  {
    hide ToBigEndian, BigEndian, ReadBytes;
    BytesRead(ToBigEndian(n, width), tail);
    BigEndianRoundTrip(n, width);
  }

  lemma LittleEndianReads(n: nat, width: nat, tail: Input)
    requires n < Power(width)
    ensures ReadLittleEndian(ToLittleEndian(n, width) + tail, width) == Got(n, tail)
  {
    hide ToLittleEndian, LittleEndian, ReadBytes;
    BytesRead(ToLittleEndian(n, width), tail);
    LittleEndianRoundTrip(n, width);
  }

  lemma LengthReads(n: nat, form: Form, tail: Input)
    requires Fits(n, form)
    ensures ReadLength(WriteLength(n, form) + tail) == Got(Length(n, false), tail)
  {
    hide ToBigEndian, ReadBigEndian, Power;
    var input := WriteLength(n, form) + tail;
    match form {
      case Six => assert input[1..] == tail;
      case Fourteen =>
        assert input[1..] == [(n % 256) as Octet] + tail;
        assert input[1..][1..] == tail;
      case ThirtyTwo =>
        assert input[1..] == ToBigEndian(n, 4) + tail;
        BigEndianReads(n, 4, tail);
      case SixtyFour =>
        assert input[1..] == ToBigEndian(n, 8) + tail;
        BigEndianReads(n, 8, tail);
    }
  }

  lemma PlainLengthReads(n: nat, form: Form, tail: Input)
    requires Fits(n, form)
    ensures ReadPlainLength(WriteLength(n, form) + tail) == Got(n, tail)
  {
    hide ReadLength, WriteLength, Fits;
    LengthReads(n, form, tail);
  }

  lemma IntegerReads(n: int, width: nat, tail: Input)
    requires width > 0 && -(Power(width) as int) <= 2 * n < Power(width)
    ensures ReadInteger(ToLittleEndian(Pattern(n, width), width) + tail, width) == Got(PrintInt(n), tail)
  {
    hide ToLittleEndian, LittleEndian, Power, ReadBytes, PrintInt;
    var pattern := Pattern(n, width);
    BytesRead(ToLittleEndian(pattern, width), tail);
    LittleEndianRoundTrip(pattern, width);
    SignedRoundTrip(n, pattern, width);
  }

  lemma CodeReads(width: nat, rest: Input)
    requires width in {1, 2, 4}
    ensures ReadString([Code(width)] + rest) == ReadInteger(rest, width)
  {
    hide ReadInteger, ReadBigEndian;
    assert ([Code(width)] + rest)[1..] == rest;
  }

  lemma StringReads(s: Spelling, tail: Input)
    requires ValidSpelling(s)
    ensures ReadString(WriteString(s) + tail) == Got(Spelled(s), tail)
  {
    match s {
      case Raw(bytes, form) =>
        hide ReadLength, WriteLength, Fits, ReadBytes, Text;
        assert WriteLength(|bytes|, form) + bytes + tail == WriteLength(|bytes|, form) + (bytes + tail);
        LengthReads(|bytes|, form, bytes + tail);
        BytesRead(bytes, tail);
      case Small(n, width) =>
        hide ReadString, ReadInteger, ToLittleEndian, Power, PrintInt;
        var digits := ToLittleEndian(Pattern(n, width), width);
        assert [Code(width)] + digits + tail == [Code(width)] + (digits + tail);
        CodeReads(width, digits + tail);
        IntegerReads(n, width, tail);
    }
  }

  lemma PairReads(key: Spelling, value: Spelling, tail: Input)
    requires ValidSpelling(key) && ValidSpelling(value)
    ensures ReadPair(WriteString(key) + WriteString(value) + tail) == Got((Spelled(key), Spelled(value)), tail)
  {
    hide ReadString, WriteString, ValidSpelling, Spelled;
    assert WriteString(key) + WriteString(value) + tail == WriteString(key) + (WriteString(value) + tail);
    StringReads(key, WriteString(value) + tail);
    StringReads(value, tail);
  }

  function ItemOf(r: Record): Item {
    match r
    case Milliseconds(time) => Expires(time)
    case Seconds(time) => Expires(time * 1000)
    case Pair(key, value) => Value(Spelled(key), Spelled(value))
    case _ => Ignored
  }

  lemma ByteReads(byte: Octet, tail: Input)
    ensures ReadLittleEndian([byte] + tail, 1) == Got(byte as nat, tail)
  {
    hide ReadBytes;
    BytesRead([byte], tail);
    assert [byte][1..] == [] && LittleEndian([]) == 0;
    assert LittleEndian([byte]) == byte as nat;
  }

  lemma RecordReads(r: Record, tail: Input)
    requires ValidRecord(r)
    ensures ReadItem(Marker(r), WriteBody(r) + tail) == Got(ItemOf(r), tail)
  {
    hide ReadPair, ReadPlainLength, ReadLittleEndian, WriteString, WriteLength, ValidSpelling, Fits, ToLittleEndian,
         Power, Spelled;
    match r {
      case Auxiliary(key, value) => PairReads(key, value, tail);
      case Select(form) =>
        ZeroFits(form);
        PlainLengthReads(0, form, tail);
      case Resize(keys, keysForm, expiring, expiringForm) =>
        var second := WriteLength(expiring, expiringForm);
        assert WriteLength(keys, keysForm) + second + tail == WriteLength(keys, keysForm) + (second + tail);
        PlainLengthReads(keys, keysForm, second + tail);
        PlainLengthReads(expiring, expiringForm, tail);
      case Idle(idle, idleForm) => PlainLengthReads(idle, idleForm, tail);
      case Frequency(frequency) => ByteReads(frequency, tail);
      case Milliseconds(time) => LittleEndianReads(time, 8, tail);
      case Seconds(time) => LittleEndianReads(time, 4, tail);
      case Pair(key, value) => PairReads(key, value, tail);
    }
  }

  /** One record more: the item it reads as does what its meaning says. */
  lemma ItemMeans(front: seq<Record>, r: Record)
    ensures Entries(front + [r]) == Entries(front) + Added(ItemOf(r), LastExpiry(front))
    ensures LastExpiry(front + [r]) == NextPending(ItemOf(r), LastExpiry(front))
  {
    hide Spelled;
    assert (front + [r])[..|front|] == front;
  }

  lemma RecordAhead(r: Record, more: seq<Record>, end: Input)
    requires ValidRecord(r) && AllValid(more) && AllValid([r] + more)
    ensures WriteRecords([r] + more) + end == [Marker(r)] + (WriteBody(r) + (WriteRecords(more) + end))
  {
    hide WriteBody, Marker, ValidRecord;
    assert ([r] + more)[1..] == more;
  }

  lemma {:induction false} RecordsRead(front: seq<Record>, records: seq<Record>, tail: Input)
    requires AllValid(records)
    ensures ReadRecords(WriteRecords(records) + ([END_OF_FILE] + tail), Entries(front), LastExpiry(front)) ==
            Some(Entries(front + records))
    decreases |records|
  {
    hide WriteBody, WriteRecords, ReadItem, ValidRecord, Entries, LastExpiry, Added, NextPending, ItemOf;
    var end := [END_OF_FILE] + tail;
    if records == [] {
      NothingWritten();
      assert [] + end == end && front + records == front;
    } else {
      var r, more := records[0], records[1..];
      assert ValidRecord(records[0]);
      assert records == [r] + more;
      RecordAhead(r, more, end);
      var rest := WriteRecords(more) + end;
      var input := WriteRecords(records) + end;
      assert input[1..] == WriteBody(r) + rest;
      RecordReads(r, rest);
      ItemMeans(front, r);
      RecordsRead(front + [r], more, tail);
      assert front + [r] + more == front + records;
    }
  }

  lemma NothingWritten()
    ensures AllValid([]) && WriteRecords([]) == []
    ensures Entries([]) == [] && LastExpiry([]) == None
  {
  }

  /** Decoding inverts every way of writing: any spelling of the strings, any records in between, anything behind. */
  lemma ParseInverts(version: Input, records: seq<Record>, tail: Input)
    requires IsVersion(version) && AllValid(records)
    ensures Parse(WriteFile(version, records, tail)) == Some(Entries(records))
  {
    hide WriteRecords, ReadRecords, ValidRecord, Entries, LastExpiry;
    var contents := WriteFile(version, records, tail);
    var body := WriteRecords(records) + ([END_OF_FILE] + tail);
    assert contents == MAGIC + (version + body);
    assert contents[..5] == MAGIC && contents[5..9] == version && contents[9..] == body;
    NothingWritten();
    RecordsRead([], records, tail);
    assert [] + records == records;
  }

  /* ---------- Nothing else is accepted ---------- */

  lemma BytesSound(input: Input, count: nat)
    requires ReadBytes(input, count).Got?
    ensures var read := ReadBytes(input, count); |read.value| == count && input == read.value + read.rest
  {
  }

  lemma BigEndianSound(input: Input, width: nat)
    requires ReadBigEndian(input, width).Got?
    ensures var read := ReadBigEndian(input, width);
            read.value < Power(width) && input == ToBigEndian(read.value, width) + read.rest
  {
    hide ToBigEndian, BigEndian, Power;
    BytesSound(input, width);
    BigEndianSpells(ReadBytes(input, width).value);
  }

  lemma LittleEndianSound(input: Input, width: nat)
    requires ReadLittleEndian(input, width).Got?
    ensures var read := ReadLittleEndian(input, width);
            read.value < Power(width) && input == ToLittleEndian(read.value, width) + read.rest
  {
    hide ToLittleEndian, LittleEndian, Power;
    BytesSound(input, width);
    LittleEndianSpells(ReadBytes(input, width).value);
  }

  lemma LengthSound(input: Input) returns (form: Form)
    requires ReadLength(input).Got? && !ReadLength(input).value.encoded
    ensures var read := ReadLength(input);
            Fits(read.value.value, form) && input == WriteLength(read.value.value, form) + read.rest
  {
    hide ToBigEndian, ReadBigEndian, Power;
    var first, rest := input[0] as nat, input[1..];
    assert input == [input[0]] + rest;
    if first / 64 == 0 {
      form := Six;
    } else if first / 64 == 1 {
      form := Fourteen;
      assert rest == [rest[0]] + rest[1..];
      assert (first % 64 * 256 + rest[0] as nat) / 256 == first % 64;
    } else if first == 0x80 {
      form := ThirtyTwo;
      BigEndianSound(rest, 4);
    } else {
      form := SixtyFour;
      BigEndianSound(rest, 8);
    }
  }

  lemma PlainLengthSound(input: Input) returns (form: Form)
    requires ReadPlainLength(input).Got?
    ensures var read := ReadPlainLength(input);
            Fits(read.value, form) && input == WriteLength(read.value, form) + read.rest
  {
    hide ReadLength, WriteLength, Fits;
    form := LengthSound(input);
  }

  lemma EncodedSound(input: Input)
    requires ReadLength(input).Got? && ReadLength(input).value.encoded
    ensures var read := ReadLength(input);
            && input == [(192 + read.value.value) as Octet] + read.rest && read.value.value < 64
  {
    hide ReadBigEndian;
    assert input == [input[0]] + input[1..];
  }

  lemma IntegerSound(input: Input, width: nat) returns (n: int)
    requires width > 0 && ReadInteger(input, width).Got?
    ensures -(Power(width) as int) <= 2 * n < Power(width)
    ensures var read := ReadInteger(input, width);
            read.value == PrintInt(n) && input == ToLittleEndian(Pattern(n, width), width) + read.rest
  {
    hide ToLittleEndian, LittleEndian, Power, PrintInt;
    BytesSound(input, width);
    var bytes := ReadBytes(input, width).value;
    LittleEndianSpells(bytes);
    n := Signed(LittleEndian(bytes), width);
    SignedRoundTrip(n, LittleEndian(bytes), width);
  }

  lemma SmallSound(input: Input, width: nat) returns (s: Spelling)
    requires width in {1, 2, 4} && input != [] && input[0] == Code(width) && ReadInteger(input[1..], width).Got?
    ensures ValidSpelling(s)
    ensures var read := ReadInteger(input[1..], width); read.value == Spelled(s) && input == WriteString(s) + read.rest
  {
    hide ToLittleEndian, LittleEndian, Power, PrintInt, ReadInteger, Code;
    var n := IntegerSound(input[1..], width);
    s := Small(n, width);
    assert input == [input[0]] + input[1..];
  }

  lemma RawSound(input: Input) returns (s: Spelling)
    requires ReadLength(input).Got? && !ReadLength(input).value.encoded
    requires ReadText(ReadLength(input).rest, ReadLength(input).value.value).Got?
    ensures ValidSpelling(s)
    ensures var read := ReadText(ReadLength(input).rest, ReadLength(input).value.value);
            read.value == Spelled(s) && input == WriteString(s) + read.rest
  {
    hide ReadLength, WriteLength, Fits, Text;
    var form := LengthSound(input);
    var read := ReadLength(input);
    BytesSound(read.rest, read.value.value);
    var bytes := ReadBytes(read.rest, read.value.value).value;
    s := Raw(bytes, form);
    assert WriteLength(|bytes|, form) + (bytes + read.rest[|bytes|..]) == WriteLength(|bytes|, form) + bytes + read.rest[|bytes|..];
  }

  lemma StringSound(input: Input) returns (s: Spelling)
    requires ReadString(input).Got?
    ensures ValidSpelling(s)
    ensures var read := ReadString(input); read.value == Spelled(s) && input == WriteString(s) + read.rest
  {
    hide ReadLength, ReadText, ReadInteger, WriteString, Spelled, ValidSpelling;
    var read := ReadLength(input);
    if !read.value.encoded {
      s := RawSound(input);
    } else {
      EncodedSound(input);
      assert input[1..] == read.rest;
      s := SmallSound(input, if read.value.value == 0 then 1 else if read.value.value == 1 then 2 else 4);
    }
  }

  lemma PairSound(input: Input) returns (key: Spelling, value: Spelling)
    requires ReadPair(input).Got?
    ensures ValidSpelling(key) && ValidSpelling(value)
    ensures var read := ReadPair(input);
            && read.value == (Spelled(key), Spelled(value))
            && input == WriteString(key) + WriteString(value) + read.rest
  {
    hide ReadString, WriteString, ValidSpelling, Spelled;
    key := StringSound(input);
    value := StringSound(ReadString(input).rest);
    var last := ReadPair(input).rest;
    assert WriteString(key) + (WriteString(value) + last) == WriteString(key) + WriteString(value) + last;
  }

  lemma ByteSound(input: Input) returns (byte: Octet)
    requires ReadLittleEndian(input, 1).Got?
    ensures input == [byte] + ReadLittleEndian(input, 1).rest
  {
    byte := input[0];
  }

  lemma ResizeSound(input: Input) returns (r: Record)
    requires ReadItem(251, input).Got?
    ensures ValidRecord(r) && Marker(r) == 251 && ItemOf(r) == ReadItem(251, input).value
    ensures input == WriteBody(r) + ReadItem(251, input).rest
  {
    hide ReadPlainLength, WriteLength, Fits;
    var first := ReadPlainLength(input);
    var keysForm := PlainLengthSound(input);
    var second := ReadPlainLength(first.rest);
    var expiringForm := PlainLengthSound(first.rest);
    r := Resize(first.value, keysForm, second.value, expiringForm);
    assert WriteLength(first.value, keysForm) + (WriteLength(second.value, expiringForm) + second.rest) ==
        WriteLength(first.value, keysForm) + WriteLength(second.value, expiringForm) + second.rest;
  }

  lemma RecordSound(marker: Octet, input: Input) returns (r: Record)
    requires ReadItem(marker, input).Got?
    ensures ValidRecord(r) && Marker(r) == marker && ItemOf(r) == ReadItem(marker, input).value
    ensures input == WriteBody(r) + ReadItem(marker, input).rest
  {
    hide ReadPair, ReadPlainLength, ReadLittleEndian, WriteString, WriteLength, ValidSpelling, Fits, ToLittleEndian,
         Power, Spelled;
    if marker == 251 {
      r := ResizeSound(input);
    } else if marker == 250 {
      var key, value := PairSound(input);
      r := Auxiliary(key, value);
    } else if marker == 254 {
      var form := PlainLengthSound(input);
      r := Select(form);
    } else if marker == 252 {
      LittleEndianSound(input, 8);
      r := Milliseconds(ReadLittleEndian(input, 8).value);
    } else if marker == 253 {
      LittleEndianSound(input, 4);
      r := Seconds(ReadLittleEndian(input, 4).value);
    } else if marker == 248 {
      var form := PlainLengthSound(input);
      r := Idle(ReadPlainLength(input).value, form);
    } else if marker == 249 {
      var byte := ByteSound(input);
      r := Frequency(byte);
    } else {
      var key, value := PairSound(input);
      r := Pair(key, value);
    }
  }

  lemma {:induction false} RecordsSound(front: seq<Record>, input: Input) returns (records: seq<Record>, tail: Input)
    requires ReadRecords(input, Entries(front), LastExpiry(front)).Some?
    ensures AllValid(records)
    ensures input == WriteRecords(records) + ([END_OF_FILE] + tail)
    decreases |input|
  {
    hide WriteBody, ReadItem, ValidRecord, Entries, LastExpiry, Added, NextPending, ItemOf, Marker, WriteRecords;
    var marker, body := input[0], input[1..];
    assert input == [marker] + body;
    if marker == END_OF_FILE {
      NothingWritten();
      records, tail := [], body;
      assert [] + ([END_OF_FILE] + tail) == [END_OF_FILE] + tail;
    } else {
      var r := RecordSound(marker, body);
      ItemMeans(front, r);
      var rest := ReadItem(marker, body).rest;
      var more, last := RecordsSound(front + [r], rest);
      records, tail := [r] + more, last;
      RecordAhead(r, more, [END_OF_FILE] + last);
    }
  }

  /** Whatever the decoder accepts is a dump written in one of the ways above, and it returns what that dump means. */
  lemma ParseSound(contents: Input) returns (version: Input, records: seq<Record>, tail: Input)
    requires Parse(contents).Some?
    ensures IsVersion(version) && AllValid(records)
    ensures contents == WriteFile(version, records, tail) && Parse(contents) == Some(Entries(records))
  {
    hide ReadRecords, WriteRecords, ValidRecord, Entries, LastExpiry;
    NothingWritten();
    version := contents[5..9];
    records, tail := RecordsSound([], contents[9..]);
    assert contents == contents[..5] + contents[5..9] + contents[9..];
    ParseInverts(version, records, tail);
  }

  /** An expiry goes to the next value only: behind a value the dump reads as if it began there. */
  lemma {:induction false} ExpiryUsedOnce(first: seq<Record>, second: seq<Record>)
    requires first != [] && first[|first| - 1].Pair?
    ensures Entries(first + second) == Entries(first) + Entries(second)
    ensures LastExpiry(first + second) == LastExpiry(second)
    decreases |second|
  {
    hide Spelled;
    if second == [] {
      assert first + second == first;
    } else {
      var n := |second| - 1;
      assert (first + second)[..|first| + n] == first + second[..n];
      ExpiryUsedOnce(first, second[..n]);
    }
  }
}
