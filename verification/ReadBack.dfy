/** Reading the answers of XRANGE and XREAD as a client does: what was found comes back whole and in order. */
module ReadBack {
  import opened Wrappers
  import opened Decimal
  import opened Responses
  import opened Streams
  import opened Keyspace
  import opened Commands
  import opened ReadPositions

  /* ---------- A reader, defined apart from the builders ---------- */

  /** Names and values in turn: the j-th name at place 2j, its value behind it. */
  function ReadFields(replies: seq<Response>): Option<seq<(Bytes, Bytes)>> {
    if |replies| % 2 != 0 || exists i :: 0 <= i < |replies| && !replies[i].BulkString? then None
    else Some(seq(|replies| / 2, j requires 0 <= j < |replies| / 2 => (replies[2 * j].value, replies[2 * j + 1].value)))
  }

  /** A pair of an identifier and an array of fields. */
  function ReadEntry(reply: Response): Option<StreamEntry> {
    if !(reply.ResponseArray? && |reply.responses| == 2) then None
    else if !(reply.responses[0].BulkString? && reply.responses[1].ResponseArray?) then None
    else
      match (ParseReadId(reply.responses[0].value), ReadFields(reply.responses[1].responses))
      case (Some(id), Some(fields)) => Some(StreamEntry(id, fields))
      case _ => None
  }

  /** The k-th reply is the k-th entry. */
  ghost predicate ReadsEntries(replies: seq<Response>, entries: seq<StreamEntry>) {
    |replies| == |entries| && forall k :: 0 <= k < |entries| ==> ReadEntry(replies[k]) == Some(entries[k])
  }

  /** A pair of a key and an array of entries. */
  ghost predicate ReadsResult(reply: Response, result: ReadResult) {
    && reply.ResponseArray? && |reply.responses| == 2
    && reply.responses[0] == BulkString(result.key)
    && reply.responses[1].ResponseArray? && ReadsEntries(reply.responses[1].responses, result.entries)
  }

  /** The k-th reply is the k-th result. */
  ghost predicate ReadsResults(response: Response, results: seq<ReadResult>) {
    && response.ResponseArray? && |response.responses| == |results|
    && forall k :: 0 <= k < |results| ==> ReadsResult(response.responses[k], results[k])
  }

  /* ---------- The builders ---------- */

  lemma {:induction false} FieldsStand(fields: seq<(Bytes, Bytes)>)
    ensures |FieldReplies(fields)| == 2 * |fields|
    ensures forall j :: 0 <= j < |fields| ==>
              && FieldReplies(fields)[2 * j] == BulkString(fields[j].0)
              && FieldReplies(fields)[2 * j + 1] == BulkString(fields[j].1)
    decreases |fields|
  {
    if fields != [] {
      FieldsStand(fields[1..]);
      var replies, rest := FieldReplies(fields), FieldReplies(fields[1..]);
      forall j | 0 <= j < |fields|
        ensures replies[2 * j] == BulkString(fields[j].0) && replies[2 * j + 1] == BulkString(fields[j].1)
      {
        if j > 0 {
          assert fields[j] == fields[1..][j - 1];
          assert replies[2 * j] == rest[2 * (j - 1)] && replies[2 * j + 1] == rest[2 * (j - 1) + 1];
        }
      }
    }
  }

  lemma FieldsReadBack(fields: seq<(Bytes, Bytes)>)
    ensures ReadFields(FieldReplies(fields)) == Some(fields)
  {
    hide FieldReplies;
    FieldsStand(fields);
    var replies := FieldReplies(fields);
    forall i | 0 <= i < |replies| ensures replies[i].BulkString? {
      var j := i / 2;
      assert replies[2 * j] == BulkString(fields[j].0) && replies[2 * j + 1] == BulkString(fields[j].1);
      assert i == 2 * j || i == 2 * j + 1;
    }
    var pairs := ReadFields(replies).value;
    assert |pairs| == |fields|;
    forall j | 0 <= j < |fields| ensures pairs[j] == fields[j] {
      assert replies[2 * j] == BulkString(fields[j].0) && replies[2 * j + 1] == BulkString(fields[j].1);
    }
    assert pairs == fields;
  }

  /** The answer for one entry. */
  function EntryReply(entry: StreamEntry): Response {
    ResponseArray([BulkString(PrintId(entry.id)), ResponseArray(FieldReplies(entry.fields))])
  }

  lemma EntryReadsBack(entry: StreamEntry)
    requires InRange(entry.id)
    ensures ReadEntry(EntryReply(entry)) == Some(entry)
  {
    hide PrintId, ParseReadId, FieldReplies, ReadFields;
    PrintedIdIsBound(entry.id);
    FieldsReadBack(entry.fields);
  }

  lemma {:induction false} EntriesStand(entries: seq<StreamEntry>)
    ensures |EntryReplies(entries)| == |entries|
    ensures forall k :: 0 <= k < |entries| ==> EntryReplies(entries)[k] == EntryReply(entries[k])
    decreases |entries|
  {
    hide PrintId, FieldReplies;
    if entries != [] {
      EntriesStand(entries[1..]);
    }
  }

  predicate AllInRange(entries: seq<StreamEntry>) {
    forall k :: 0 <= k < |entries| ==> InRange(entries[k].id)
  }

  /** The entries of an answer come back in their order. */
  lemma EntriesReadBack(entries: seq<StreamEntry>)
    requires AllInRange(entries)
    ensures ReadsEntries(EntryReplies(entries), entries)
  {
    hide EntryReplies, EntryReply, ReadEntry, InRange;
    EntriesStand(entries);
    forall k | 0 <= k < |entries| ensures ReadEntry(EntryReplies(entries)[k]) == Some(entries[k]) {
      EntryReadsBack(entries[k]);
    }
  }

  lemma {:induction false} ResultsReadBack(results: seq<ReadResult>)
    requires forall k :: 0 <= k < |results| ==> AllInRange(results[k].entries)
    ensures |ReadReplies(results)| == |results|
    ensures forall k :: 0 <= k < |results| ==> ReadsResult(ReadReplies(results)[k], results[k])
    decreases |results|
  {
    hide EntryReplies, AllInRange, ReadsEntries;
    if results != [] {
      EntriesReadBack(results[0].entries);
      ResultsReadBack(results[1..]);
      forall k | 0 <= k < |results| ensures ReadsResult(ReadReplies(results)[k], results[k]) {
        if k > 0 {
          assert ReadReplies(results)[k] == ReadReplies(results[1..])[k - 1];
        }
      }
    }
  }

  /** What XREAD found is what a client reads from its answer: keys, identifiers, names and values, in order. */
  lemma XreadReadsBack(results: seq<ReadResult>)
    requires results != [] && forall k :: 0 <= k < |results| ==> AllInRange(results[k].entries)
    ensures ReadsResults(XreadResponse(results), results)
  {
    hide AllInRange, ReadsResult, ReadReplies;
    ResultsReadBack(results);
  }

  lemma {:induction false} AskedInRange(held: Db, request: ReadRequest, stream: seq<StreamEntry>)
    requires AllInRange(stream)
    ensures AllInRange(AskedOf(held, request, stream))
    decreases |stream|
  {
    hide Asked, InRange;
    if stream != [] {
      AskedInRange(held, request, stream[1..]);
    }
  }

  lemma {:induction false} DueInRange(held: Db, requests: seq<ReadRequest>, later: Db)
    requires DbOk(later)
    ensures forall k :: 0 <= k < |Due(held, requests, later)| ==> AllInRange(Due(held, requests, later)[k].entries)
    decreases |requests|
  {
    hide AskedOf, InRange, Ordered, RevisionsOk;
    if requests != [] {
      AskedInRange(held, requests[0], StreamAt(later, requests[0].key));
      DueInRange(held, requests[1..], later);
    }
  }

  /** What a client reads from an answer to XREAD is what was due, from each key in the order of the request. */
  lemma DueReadsBack(held: Db, requests: seq<ReadRequest>, later: Db)
    requires DbOk(later) && Due(held, requests, later) != []
    ensures ReadsResults(XreadResponse(Due(held, requests, later)), Due(held, requests, later))
  {
    hide Due, DbOk, AllInRange, XreadResponse, ReadsResults;
    DueInRange(held, requests, later);
    XreadReadsBack(Due(held, requests, later));
  }

  /** A client reads only one thing from an answer. */
  lemma ReadsOnlyOne(response: Response, results: seq<ReadResult>, others: seq<ReadResult>)
    requires ReadsResults(response, results) && ReadsResults(response, others)
    ensures results == others
  {
    forall k | 0 <= k < |results| ensures results[k] == others[k] {
      var replies := response.responses[k].responses[1].responses;
      assert ReadsResult(response.responses[k], results[k]) && ReadsResult(response.responses[k], others[k]);
      forall i | 0 <= i < |results[k].entries| ensures results[k].entries[i] == others[k].entries[i] {
        assert ReadEntry(replies[i]) == Some(results[k].entries[i]) && ReadEntry(replies[i]) == Some(others[k].entries[i]);
      }
    }
  }
}
