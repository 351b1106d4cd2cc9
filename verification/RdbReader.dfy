/** The dump-file decoder as it runs: a position that moves through the contents. */
module RdbReader {
  import opened Wrappers
  import opened Decimal
  import opened Octets
  import opened Snapshot
  import opened Rdb

  /** A result and the input left agree with a reading on values. */
  predicate Agrees<T(==)>(read: Read<T>, result: Option<T>, rest: Input) {
    if read.Got? then result == Some(read.value) && rest == read.rest else result.None?
  }

  class Reader {
    const input: Input
    var position: nat

    ghost predicate Valid()
      reads this
    {
      position <= |input|
    }

    ghost function Rest(): Input
      requires Valid()
      reads this
    {
      input[position..]
    }

    constructor (contents: Input)
      ensures Valid() && input == contents && position == 0
    {
      input := contents;
      position := 0;
    }

    method Byte() returns (byte: Option<Octet>)
      requires Valid()
      modifies this
      ensures Valid()
      ensures old(Rest()) == [] ==> byte.None?
      ensures old(Rest()) != [] ==> byte == Some(old(Rest())[0]) && Rest() == old(Rest())[1..]
    {
      if position == |input| {
        return None;
      }
      byte := Some(input[position]);
      position := position + 1;
    }

    method Take(count: nat) returns (bytes: Option<Input>)
      requires Valid()
      modifies this
      ensures Valid()
      ensures Agrees(ReadBytes(old(Rest()), count), bytes, Rest())
    {
      if count > |input| - position {
        return None;
      }
      bytes := Some(input[position..position + count]);
      assert old(Rest())[..count] == bytes.value;
      assert old(Rest())[count..] == input[position + count..];
      position := position + count;
    }

    method Little(width: nat) returns (n: Option<nat>)
      requires Valid()
      modifies this
      ensures Valid()
      ensures Agrees(ReadLittleEndian(old(Rest()), width), n, Rest())
    {
      var bytes := Take(width);
      if bytes.None? {
        return None;
      }
      var sum := SumLittleEndian(bytes.value);
      return Some(sum);
    }

    method Big(width: nat) returns (n: Option<nat>)
      requires Valid()
      modifies this
      ensures Valid()
      ensures Agrees(ReadBigEndian(old(Rest()), width), n, Rest())
    {
      var bytes := Take(width);
      if bytes.None? {
        return None;
      }
      var sum := SumBigEndian(bytes.value);
      return Some(sum);
    }

    method TakeLength() returns (length: Option<Length>)
      requires Valid()
      modifies this
      ensures Valid()
      ensures Agrees(ReadLength(old(Rest())), length, Rest())
    {
      hide ReadBigEndian;
      var first := Byte();
      if first.None? {
        return None;
      }
      var n := first.value as nat;
      if n / 64 == 0 {
        return Some(Length(n % 64, false));
      }
      if n / 64 == 1 {
        var second := Byte();
        if second.None? {
          return None;
        }
        return Some(Length(n % 64 * 256 + second.value as nat, false));
      }
      if n / 64 == 3 {
        return Some(Length(n % 64, true));
      }
      if n == 0x80 || n == 0x81 {
        var value := Big(if n == 0x80 then 4 else 8);
        if value.None? {
          return None;
        }
        return Some(Length(value.value, false));
      }
      return None;
    }

    method TakePlainLength() returns (n: Option<nat>)
      requires Valid()
      modifies this
      ensures Valid()
      ensures Agrees(ReadPlainLength(old(Rest())), n, Rest())
    {
      hide ReadLength;
      var length := TakeLength();
      if length.None? || length.value.encoded {
        return None;
      }
      return Some(length.value.value);
    }

    method TakeInteger(width: nat) returns (text: Option<Bytes>)
      requires Valid()
      modifies this
      ensures Valid()
      ensures Agrees(ReadInteger(old(Rest()), width), text, Rest())
    {
      hide PrintInt, Power;
      var bytes := Take(width);
      if bytes.None? {
        return None;
      }
      var pattern := SumLittleEndian(bytes.value);
      LittleEndianSpells(bytes.value);
      return Some(PrintInt(Signed(pattern, width)));
    }

    method TakeString() returns (text: Option<Bytes>)
      requires Valid()
      modifies this
      ensures Valid()
      ensures Agrees(ReadString(old(Rest())), text, Rest())
    {
      hide ReadLength, ReadInteger, Text;
      var length := TakeLength();
      if length.None? {
        return None;
      }
      if !length.value.encoded {
        var bytes := Take(length.value.value);
        if bytes.None? {
          return None;
        }
        return Some(Text(bytes.value));
      }
      if length.value.value == 0 {
        text := TakeInteger(1);
      } else if length.value.value == 1 {
        text := TakeInteger(2);
      } else if length.value.value == 2 {
        text := TakeInteger(4);
      } else {
        return None;
      }
    }

    method TakePair() returns (pair: Option<(Bytes, Bytes)>)
      requires Valid()
      modifies this
      ensures Valid()
      ensures Agrees(ReadPair(old(Rest())), pair, Rest())
    {
      hide ReadString;
      var key := TakeString();
      if key.None? {
        return None;
      }
      var value := TakeString();
      if value.None? {
        return None;
      }
      return Some((key.value, value.value));
    }

    /** The records whose contents are read and dropped. */
    method Ignore(marker: Octet) returns (ok: bool)
      requires Valid() && marker in {250, 254, 251, 248, 249}
      modifies this
      ensures Valid()
      ensures Agrees(ReadItem(marker, old(Rest())), if ok then Some(Ignored) else None, Rest())
    {
      hide ReadPair, ReadPlainLength, ReadLittleEndian;
      if marker == 250 {
        var pair := TakePair();
        return pair.Some?;
      } else if marker == 249 {
        var frequency := Little(1);
        return frequency.Some?;
      }
      var n := TakePlainLength();
      if n.None? {
        return false;
      }
      if marker == 254 {
        return n.value == 0;
      } else if marker == 251 {
        var expiring := TakePlainLength();
        return expiring.Some?;
      }
      return true;
    }

    method TakeItem(marker: Octet) returns (item: Option<Item>)
      requires Valid()
      modifies this
      ensures Valid()
      ensures Agrees(ReadItem(marker, old(Rest())), item, Rest())
    {
      if marker in {250, 254, 251, 248, 249} {
        hide ReadItem;
        var ok := Ignore(marker);
        return if ok then Some(Ignored) else None;
      }
      hide ReadPair, ReadLittleEndian;
      if marker == 252 || marker == 253 {
        var time := Little(if marker == 252 then 8 else 4);
        if time.None? {
          return None;
        }
        return Some(Expires(time.value * if marker == 252 then 1 else 1000));
      }
      if marker != 0 {
        return None;
      }
      var pair := TakePair();
      if pair.None? {
        return None;
      }
      return Some(Value(pair.value.0, pair.value.1));
    }
  }

  /** parse: the loop over the records, with the entries so far and the pending expiry. */
  method ParseFile(contents: Input) returns (result: Option<seq<StringEntry>>)
    ensures result == Parse(contents)
  {
    hide ReadRecords, ReadItem;
    if |contents| < 10 || contents[..5] != MAGIC || !IsVersion(contents[5..9]) {
      return None;
    }
    var reader := new Reader(contents);
    var header := reader.Take(9);
    assert contents[0..] == contents;
    var entries: seq<StringEntry> := [];
    var pending: Option<nat> := None;
    while reader.position < |reader.input|
      invariant reader.Valid() && reader.input == contents && fresh(reader)
      invariant ReadRecords(contents[9..], [], None) == ReadRecords(reader.Rest(), entries, pending)
      decreases |contents| - reader.position
    {
      ghost var before := reader.Rest();
      assert before[0] == contents[reader.position];
      var marker := reader.Byte();
      if marker.value == END_OF_FILE {
        EndMarker(before, entries, pending);
        return Some(entries);
      }
      var item := reader.TakeItem(marker.value);
      NextRecord(before, entries, pending);
      if item.None? {
        return None;
      }
      entries := entries + Added(item.value, pending);
      pending := NextPending(item.value, pending);
    }
    assert reader.Rest() == [];
    NoRecords(entries, pending);
    return None;
  }

  lemma EndMarker(input: Input, entries: seq<StringEntry>, pending: Option<nat>)
    requires input != [] && input[0] == END_OF_FILE
    ensures ReadRecords(input, entries, pending) == Some(entries)
  {
  }

  lemma NoRecords(entries: seq<StringEntry>, pending: Option<nat>)
    ensures ReadRecords([], entries, pending) == None
  {
  }

  lemma NextRecord(input: Input, entries: seq<StringEntry>, pending: Option<nat>)
    requires input != [] && input[0] != END_OF_FILE
    ensures var read := ReadItem(input[0], input[1..]);
            ReadRecords(input, entries, pending) ==
              if read.Bad? then None
              else ReadRecords(read.rest, entries + Added(read.value, pending), NextPending(read.value, pending))
  {
    hide ReadItem;
  }
}
