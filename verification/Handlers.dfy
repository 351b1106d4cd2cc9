/** The handlers of the command table, running on the database object. */
module Handlers {
  import opened Wrappers
  import opened Decimal
  import opened Resp
  import opened Responses
  import opened Streams
  import opened Keyspace
  import opened Commands
  import opened Store
  import opened StreamReplies

  /** SET, GET, TYPE and INCR. */
  method ExecuteText(db: Database, command: Command, context: Context) returns (response: Response)
    requires db.Valid()
    requires VerbOf(command).Set? || VerbOf(command).Get? || VerbOf(command).Type? || VerbOf(command).Incr?
    requires ArgumentsValid(command, context)
    modifies db
    ensures db.Valid()
    ensures Outcome(db.View(), response) == DispatchKey(old(db.View()), command, context)
  {
    hide VerbOf, Settle, Look, Apply, DecideGet, DecideType, DecideIncr, TextReply, NumberReply, KindReply,
         StreamsOrdered, ParseExpiry;
    var verb := VerbOf(command);
    var key, now := command[1], context.now;
    if verb.Set? {
      db.Set(key, command[2], if |command| == 3 then None else ParseExpiry(command[3], command[4]), now);
      response := OK;
    } else if verb.Get? {
      var text := db.Get(key, now);
      response := TextReply(text);
      KeepNothing(db.View(), key);
    } else if verb.Type? {
      var kind := db.GetType(key, now);
      response := KindReply(kind);
      KeepNothing(db.View(), key);
    } else {
      var n := db.IncrementKey(key, now);
      response := NumberReply(n);
    }
  }

  lemma KeepNothing(db: Db, key: Bytes)
    ensures Apply(db, key, Keep) == db
  {
  }

  /** RPUSH, LPUSH, LRANGE and LLEN. */
  method ExecuteList(db: Database, command: Command, context: Context) returns (response: Response)
    requires db.Valid()
    requires VerbOf(command).Rpush? || VerbOf(command).Lpush? || VerbOf(command).Lrange? || VerbOf(command).Llen?
    requires ArgumentsValid(command, context)
    modifies db
    ensures db.Valid()
    ensures Outcome(db.View(), response) == DispatchKey(old(db.View()), command, context)
  {
    hide VerbOf, Settle, Look, Apply, DecidePush, DecideLrange, DecideLlen, NumberReply, SliceReply, StreamsOrdered,
         ParseSigned;
    var verb := VerbOf(command);
    var key, now := command[1], context.now;
    KeepNothing(Settle(db.View(), key, now), key);
    if verb.Rpush? || verb.Lpush? {
      var length := db.AddListElements(key, command[2..], verb.Rpush?, now);
      response := NumberReply(length);
    } else if verb.Lrange? {
      var start, stop := ParseSigned(command[2], I64_LIMIT).value, ParseSigned(command[3], I64_LIMIT).value;
      var items := db.ListElements(key, start, stop, now);
      response := SliceReply(items);
    } else {
      var length := db.ListLength(key, now);
      response := NumberReply(length);
    }
  }

  /** LPOP, and BLPOP inside a transaction. */
  method ExecutePop(db: Database, command: Command, context: Context) returns (response: Response)
    requires db.Valid()
    requires VerbOf(command).Lpop? || VerbOf(command).Blpop?
    requires ArgumentsValid(command, context)
    modifies db
    ensures db.Valid()
    ensures Outcome(db.View(), response) == DispatchKey(old(db.View()), command, context)
  {
    hide VerbOf, Settle, Look, Apply, PopOne, DecideLpopCount, PoppedReply, StreamsOrdered, ParseCount;
    var verb := VerbOf(command);
    var key, now := command[1], context.now;
    if verb.Lpop? && |command| == 3 {
      var items := db.PopListElements(key, ParseCount(command[2]).value, now);
      response := PoppedReply(items);
    } else {
      var item := db.PopListElement(key, now);
      response := if verb.Lpop? then TextReply(item) else BlockingReply(key, item);
    }
  }

  /** XADD and XRANGE. */
  method ExecuteStream(db: Database, command: Command, context: Context) returns (response: Response)
    requires db.Valid()
    requires VerbOf(command).Xadd? || VerbOf(command).Xrange?
    requires ArgumentsValid(command, context)
    modifies db
    ensures db.Valid()
    ensures Outcome(db.View(), response) == DispatchKey(old(db.View()), command, context)
  {
    hide VerbOf, Settle, Look, Apply, DecideXadd, DecideXrange, IdReply, EntryReplies, StreamsOrdered, ParseIdRequest,
         ParseRangeStart, ParseRangeStop;
    var key, now := command[1], context.now;
    KeepNothing(Settle(db.View(), key, now), key);
    if VerbOf(command).Xadd? {
      var fields := PairLoop(command[3..]);
      var id := db.AddStream(key, ParseIdRequest(command[2]).value, fields, now, context.wall);
      response := IdReply(id);
    } else {
      var entries := db.StreamRange(key, ParseRangeStart(command[2]).value, ParseRangeStop(command[3]).value, now);
      if entries.Failure? {
        return ERR;
      }
      var replies := BuildEntries(entries.value);
      response := ResponseArray(replies);
    }
  }

  /** parse_value_list: fields and values in turn. */
  method PairLoop(values: seq<Bytes>) returns (pairs: seq<(Bytes, Bytes)>)
    ensures pairs == PairUp(values)
  {
    pairs := [];
    var i := 0;
    assert values[0..] == values && [] + PairUp(values) == PairUp(values);
    while i + 1 < |values|
      invariant i <= |values|
      invariant pairs + PairUp(values[i..]) == PairUp(values)
    {
      assert values[i..][2..] == values[i + 2..];
      assert pairs + ([(values[i], values[i + 1])] + PairUp(values[i + 2..])) ==
          pairs + [(values[i], values[i + 1])] + PairUp(values[i + 2..]);
      pairs := pairs + [(values[i], values[i + 1])];
      i := i + 2;
    }
    assert pairs + [] == pairs;
  }

  method ExecuteKey(db: Database, command: Command, context: Context) returns (response: Response)
    requires db.Valid() && KeyVerb(VerbOf(command)) && ArgumentsValid(command, context)
    modifies db
    ensures db.Valid()
    ensures Outcome(db.View(), response) == DispatchKey(old(db.View()), command, context)
  {
    hide VerbOf, ArgumentsValid, DispatchKey, StreamsOrdered;
    var verb := VerbOf(command);
    if verb.Set? || verb.Get? || verb.Type? || verb.Incr? {
      response := ExecuteText(db, command, context);
    } else if verb.Rpush? || verb.Lpush? || verb.Lrange? || verb.Llen? {
      response := ExecuteList(db, command, context);
    } else if verb.Lpop? || verb.Blpop? {
      response := ExecutePop(db, command, context);
    } else {
      response := ExecuteStream(db, command, context);
    }
  }

  /** Looks a command up in the handler table and runs it on the object. */
  method Execute(db: Database, command: Command, context: Context) returns (response: Response)
    requires db.Valid()
    modifies db
    ensures db.Valid()
    ensures Outcome(db.View(), response) == Dispatch(old(db.View()), command, context)
  {
    hide VerbOf, ArgumentsValid, DispatchKey, StreamsOrdered, Sweep, Survivors, ReadStreams, XreadResponse,
         ParseXread;
    if command == [] {
      return NullBulkString;
    }
    if !ArgumentsValid(command, context) {
      return ERR;
    }
    var verb := VerbOf(command);
    if KeyVerb(verb) {
      response := ExecuteKey(db, command, context);
    } else if verb.Keys? {
      var keys := db.Keys(context.order, context.now);
      response := Array(keys);
    } else if verb.Xread? {
      var read := ReadXread(command);
      var resolved, results := db.ReadFrom(read.value.requests, context.now);
      if results.Failure? {
        return WRONGTYPE;
      }
      response := BuildReadResponse(results.value);
    } else if verb.Echo? {
      response := BulkString(command[1]);
    } else {
      response := SimpleString("PONG");
    }
  }
}
