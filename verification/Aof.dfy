/** The append-only file as a byte sequence: appending payloads and decoding the whole file at startup. */
module Aof {
  import opened Wrappers
  import opened Decimal
  import opened Resp

  /** The commands of a prefix put before the outcome for the rest. */
  function Extend(prefix: seq<Command>, rest: Option<seq<Command>>): Option<seq<Command>> {
    match rest
    case Some(commands) => Some(prefix + commands)
    case None => None
  }

  /** All commands of a file, or None when some command in it is cut short or malformed. */
  function DecodeLog(contents: Bytes): Option<seq<Command>>
    decreases |contents|
  {
    if contents == [] then Some([])
    else match ParseCommand(contents)
      case Complete(command, consumed) =>
        Extend([command], DecodeLog(contents[consumed..]))
      case Incomplete => None
      case Invalid(_) => None
  }

  function SerializeAll(commands: seq<Command>): Bytes {
    if commands == [] then [] else SerializeCommand(commands[0]) + SerializeAll(commands[1..])
  }

  predicate AllRepresentable(commands: seq<Command>) {
    forall i :: 0 <= i < |commands| ==> Representable(commands[i])
  }

  /** read_commands: a position that moves through the file. */
  method ReadCommands(contents: Bytes) returns (result: Option<seq<Command>>)
    ensures result == DecodeLog(contents)
  {
    hide ParseCommand;
    var commands: seq<Command> := [];
    var position := 0;
    assert contents[0..] == contents;
    ExtendNothing(DecodeLog(contents));
    while position < |contents|
      invariant position <= |contents|
      invariant DecodeLog(contents) == Extend(commands, DecodeLog(contents[position..]))
    {
      ghost var rest := contents[position..];
      var outcome := ParseCommandLoop(contents[position..]);
      if !outcome.Complete? {
        return None;
      }
      assert rest[outcome.consumed..] == contents[position + outcome.consumed..];
      ExtendExtend(commands, [outcome.command], DecodeLog(rest[outcome.consumed..]));
      commands := commands + [outcome.command];
      position := position + outcome.consumed;
    }
    assert contents[position..] == [] && commands + [] == commands;
    return Some(commands);
  }

  lemma ExtendNothing(rest: Option<seq<Command>>)
    ensures Extend([], rest) == rest
  {
    if rest.Some? {
      assert [] + rest.value == rest.value;
    }
  }

  lemma ExtendExtend(first: seq<Command>, second: seq<Command>, rest: Option<seq<Command>>)
    ensures Extend(first, Extend(second, rest)) == Extend(first + second, rest)
  {
    if rest.Some? {
      assert first + (second + rest.value) == first + second + rest.value;
    }
  }

  /** Decoding goes piece by piece once the first piece decodes. */
  lemma {:induction false} DecodeLogAppend(first: Bytes, second: Bytes)
    requires DecodeLog(first).Some?
    ensures DecodeLog(first + second) == Extend(DecodeLog(first).value, DecodeLog(second))
    decreases |first|
  {
    hide ParseCommand;
    if first == [] {
      assert first + second == second;
      ExtendNothing(DecodeLog(second));
    } else {
      ParseStable(first, second);
      var outcome := ParseCommand(first);
      var n := outcome.consumed;
      assert (first + second)[n..] == first[n..] + second;
      DecodeLogAppend(first[n..], second);
      ExtendExtend([outcome.command], DecodeLog(first[n..]).value, DecodeLog(second));
    }
  }

  /** Round trip of whole logs: a concatenation of serialised commands decodes to the list. */
  lemma {:induction false} DecodeLogSerialized(commands: seq<Command>)
    requires AllRepresentable(commands)
    ensures DecodeLog(SerializeAll(commands)) == Some(commands)
    decreases |commands|
  {
    hide ParseCommand, SerializeCommand, Representable;
    if commands != [] {
      var first := SerializeCommand(commands[0]);
      var rest := SerializeAll(commands[1..]);
      RoundTrip(commands[0], rest);
      assert (first + rest)[|first|..] == rest;
      DecodeLogSerialized(commands[1..]);
      assert [commands[0]] + commands[1..] == commands;
    }
  }

  /** A log that decodes, extended by serialised commands, decodes to the longer list. */
  lemma DecodeLogExtended(contents: Bytes, commands: seq<Command>)
    requires DecodeLog(contents).Some? && AllRepresentable(commands)
    ensures DecodeLog(contents + SerializeAll(commands)) == Some(DecodeLog(contents).value + commands)
  {
    DecodeLogSerialized(commands);
    DecodeLogAppend(contents, SerializeAll(commands));
  }

  /** What one call of write(2) reports. */
  datatype WriteResult = Wrote(count: nat) | Interrupted | Failed

  /** How many of `size` bytes a series of calls puts into the file; it ends at a failure or at a call that writes nothing. */
  function Progress(size: nat, writes: seq<WriteResult>): (count: nat)
    ensures count <= size
    decreases |writes|
  {
    if size == 0 || writes == [] then 0
    else match writes[0]
      case Interrupted => Progress(size, writes[1..])
      case Failed => 0
      case Wrote(n) => if n == 0 then 0 else if n >= size then size else n + Progress(size - n, writes[1..])
  }

  class AppendOnlyFile {
    var contents: Bytes

    /**
     append: writes until the payload is out, retrying interrupted calls. `writes` are the reports
     of the operating system in order; a report that is missing stands for a failure.
     */
    method Append(payload: Bytes, writes: seq<WriteResult>, syncSucceeds: bool) returns (ok: bool)
      modifies this
      ensures contents == old(contents) + payload[..Progress(|payload|, writes)]
      ensures ok <==> Progress(|payload|, writes) == |payload| && syncSucceeds
    {
      var written := 0;
      var call := 0;
      assert payload[..0] == [] && writes[0..] == writes;
      while written < |payload|
        invariant 0 <= written <= |payload| && call <= |writes|
        invariant contents == old(contents) + payload[..written]
        invariant written + Progress(|payload| - written, writes[call..]) == Progress(|payload|, writes)
        decreases |writes| - call
      {
        if call == |writes| || writes[call] == Failed {
          return false;
        }
        var report := writes[call];
        assert writes[call..][0] == report && writes[call..][1..] == writes[call + 1..];
        call := call + 1;
        if report == Interrupted {
          continue;
        }
        var count := if report.count > |payload| - written then |payload| - written else report.count;
        if count == 0 {
          return false;
        }
        assert payload[..written] + payload[written..written + count] == payload[..written + count];
        contents := contents + payload[written..written + count];
        written := written + count;
      }
      assert payload[..written] == payload;
      return syncSucceeds;
    }
  }
}
