/** The loops with which the stream handlers read their arguments and build their answers. */
module StreamReplies {
  import opened Wrappers
  import opened Decimal
  import opened Resp
  import opened Responses
  import opened Streams
  import opened Keyspace
  import opened Commands

  method BuildFields(fields: seq<(Bytes, Bytes)>) returns (replies: seq<Response>)
    ensures replies == FieldReplies(fields)
  {
    replies := [];
    assert fields[0..] == fields && [] + FieldReplies(fields) == FieldReplies(fields);
    for i := 0 to |fields|
      invariant replies + FieldReplies(fields[i..]) == FieldReplies(fields)
    {
      assert fields[i..][0] == fields[i] && fields[i..][1..] == fields[i + 1..];
      ghost var rest := FieldReplies(fields[i + 1..]);
      var field, value := BulkString(fields[i].0), BulkString(fields[i].1);
      assert replies + ([field, value] + rest) == replies + [field, value] + rest;
      replies := replies + [field, value];
    }
    assert replies + [] == replies;
  }

  /** The entries of a stream, each with its identifier and its fields and values in turn. */
  method BuildEntries(entries: seq<StreamEntry>) returns (replies: seq<Response>)
    ensures replies == EntryReplies(entries)
  {
    hide FieldReplies, PrintId;
    replies := [];
    assert entries[0..] == entries && [] + EntryReplies(entries) == EntryReplies(entries);
    for i := 0 to |entries|
      invariant replies + EntryReplies(entries[i..]) == EntryReplies(entries)
    {
      assert entries[i..][0] == entries[i] && entries[i..][1..] == entries[i + 1..];
      var fields := BuildFields(entries[i].fields);
      var reply := ResponseArray([BulkString(PrintId(entries[i].id)), ResponseArray(fields)]);
      ghost var rest := EntryReplies(entries[i + 1..]);
      assert replies + ([reply] + rest) == replies + [reply] + rest;
      replies := replies + [reply];
    }
    assert replies + [] == replies;
  }

  /** make_xread_response. */
  method BuildReadResponse(results: seq<ReadResult>) returns (response: Response)
    ensures response == XreadResponse(results)
  {
    hide EntryReplies;
    if results == [] {
      return NullArray;
    }
    var replies: seq<Response> := [];
    assert results[0..] == results && [] + ReadReplies(results) == ReadReplies(results);
    for i := 0 to |results|
      invariant replies + ReadReplies(results[i..]) == ReadReplies(results)
    {
      assert results[i..][0] == results[i] && results[i..][1..] == results[i + 1..];
      var entries := BuildEntries(results[i].entries);
      var reply := ResponseArray([BulkString(results[i].key), ResponseArray(entries)]);
      ghost var rest := ReadReplies(results[i + 1..]);
      assert replies + ([reply] + rest) == replies + [reply] + rest;
      replies := replies + [reply];
    }
    assert replies + [] == replies;
    return ResponseArray(replies);
  }

  /** The requests so far, put before the outcome for the rest. */
  function Joined(done: seq<ReadRequest>, rest: Option<seq<ReadRequest>>): Option<seq<ReadRequest>> {
    if rest.Some? then Some(done + rest.value) else None
  }

  lemma JoinedNothing(rest: Option<seq<ReadRequest>>)
    ensures Joined([], rest) == rest
  {
    if rest.Some? {
      assert [] + rest.value == rest.value;
    }
  }

  lemma JoinedMore(done: seq<ReadRequest>, request: ReadRequest, rest: Option<seq<ReadRequest>>)
    ensures Joined(done, Joined([request], rest)) == Joined(done + [request], rest)
  {
    if rest.Some? {
      assert done + ([request] + rest.value) == done + [request] + rest.value;
    }
  }

  /** The loop of parse_xread over keys and identifiers. */
  method ReadRequests(keys: seq<Bytes>, ids: seq<Bytes>) returns (requests: Option<seq<ReadRequest>>)
    requires |keys| == |ids|
    ensures requests == ParseReadRequests(keys, ids)
  {
    hide ParseReadId;
    var done: seq<ReadRequest> := [];
    assert keys[0..] == keys && ids[0..] == ids;
    JoinedNothing(ParseReadRequests(keys, ids));
    for i := 0 to |keys|
      invariant Joined(done, ParseReadRequests(keys[i..], ids[i..])) == ParseReadRequests(keys, ids)
    {
      assert keys[i..][0] == keys[i] && ids[i..][0] == ids[i];
      assert keys[i..][1..] == keys[i + 1..] && ids[i..][1..] == ids[i + 1..];
      var start := Latest;
      if ids[i] != "$" {
        var id := ParseReadId(ids[i]);
        if id.None? {
          return None;
        }
        start := AfterId(id.value);
      }
      var request := ReadRequest(keys[i], start);
      JoinedMore(done, request, ParseReadRequests(keys[i + 1..], ids[i + 1..]));
      done := done + [request];
    }
    assert done + [] == done;
    return Some(done);
  }

  /** parse_xread: a position that moves over the options. */
  method ReadXread(command: Command) returns (read: Option<ReadCommand>)
    ensures read == ParseXread(command)
  {
    hide ParseReadRequests, ParseSigned;
    if |command| < 4 {
      return None;
    }
    var mode := Immediate;
    var position := 1;
    if EqualsIgnoreCase(command[1], "BLOCK") {
      var timeout := ParseSigned(command[2], I64_LIMIT);
      if timeout.None? || timeout.value < 0 {
        return None;
      }
      mode := if timeout.value == 0 then BlockForever else BlockFor(timeout.value);
      position := 3;
    }
    if !EqualsIgnoreCase(command[position], "STREAMS") {
      return None;
    }
    var rest := command[position + 1..];
    if rest == [] || |rest| % 2 != 0 {
      return None;
    }
    var count := |rest| / 2;
    var requests := ReadRequests(rest[..count], rest[count..]);
    return if requests.Some? then Some(ReadCommand(requests.value, mode)) else None;
  }
}
