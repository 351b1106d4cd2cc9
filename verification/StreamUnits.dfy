/** The commands of the stream, frame by frame. */
module StreamUnits {
  import opened Wrappers
  import opened Decimal
  import opened Resp
  import opened Aof
  import opened Commands
  import opened Replayable
  import opened ReplicationStream
  import opened Processor
  import opened LogMeaning
  import opened Replay

  function UnitOf(frame: Frame): seq<Command> {
    if DecodeLog(frame.payload).Some? then DecodeLog(frame.payload).value else []
  }

  function CommandsOf(frames: seq<Frame>): seq<Command> {
    if frames == [] then [] else CommandsOf(frames[..|frames| - 1]) + UnitOf(frames[|frames| - 1])
  }

  lemma {:induction false} CommandsAppend(first: seq<Frame>, second: seq<Frame>)
    ensures CommandsOf(first + second) == CommandsOf(first) + CommandsOf(second)
    decreases |second|
  {
    hide UnitOf;
    if second == [] {
      assert first + second == first;
    } else {
      var n := |second| - 1;
      assert (first + second)[..|first + second| - 1] == first + second[..n];
      CommandsAppend(first, second[..n]);
    }
  }

  lemma {:induction false} SerializeAppend(first: seq<Command>, second: seq<Command>)
    ensures SerializeAll(first + second) == SerializeAll(first) + SerializeAll(second)
    decreases |first|
  {
    hide SerializeCommand;
    if first == [] {
      assert first + second == second;
    } else {
      assert (first + second)[1..] == first[1..] + second;
      SerializeAppend(first[1..], second);
    }
  }

  lemma UnitSerialized(frame: Frame)
    requires FrameAtomic(frame)
    ensures AtomicUnit(UnitOf(frame)) && SerializeAll(UnitOf(frame)) == frame.payload && UnitOf(frame) != []
    ensures AllRepresentable(UnitOf(frame))
  {
    hide DecodeLog, SerializeAll, Logged;
  }

  /** The bytes of the stream are its commands, serialised. */
  lemma {:induction false} StreamSerialized(frames: seq<Frame>)
    requires FramesAtomic(frames)
    ensures SerializeAll(CommandsOf(frames)) == StreamBytes(frames)
    ensures AllRepresentable(CommandsOf(frames))
    decreases |frames|
  {
    hide UnitOf, FrameAtomic, AtomicUnit, SerializeCommand, Representable;
    if frames != [] {
      var n := |frames| - 1;
      StreamSerialized(frames[..n]);
      UnitSerialized(frames[n]);
      SerializeAppend(CommandsOf(frames[..n]), UnitOf(frames[n]));
    }
  }

  lemma {:induction false} SizeIsLength(frames: seq<Frame>)
    ensures Size(frames) == |StreamBytes(frames)|
    decreases |frames|
  {
    if frames != [] {
      SizeIsLength(frames[..|frames| - 1]);
    }
  }

  /** The meaning of bytes is the meaning of their commands. */
  lemma StreamMeans(frames: seq<Frame>, from: Values)
    requires FramesAtomic(frames)
    ensures Denotes(StreamBytes(frames), from) == InterpretAll(Machine(from, None), CommandsOf(frames))
  {
    hide FramesAtomic, CommandsOf, StreamBytes, SerializeAll, InterpretAll, DecodeLog;
    StreamSerialized(frames);
    DecodeLogSerialized(CommandsOf(frames));
  }

  lemma {:induction false} InterpretPrefix(m: Machine, first: seq<Command>, second: seq<Command>)
    requires InterpretAll(m, first + second).Some?
    ensures InterpretAll(m, first).Some?
    decreases |first|
  {
    hide Interpret;
    if first != [] {
      assert (first + second)[1..] == first[1..] + second;
      InterpretPrefix(Interpret(m, first[0]).value, first[1..], second);
    }
  }

  lemma InterpretNothing(m: Machine)
    ensures InterpretAll(m, []) == Some(m)
  {
  }

  lemma InterpretOne(m: Machine, command: Command)
    ensures InterpretAll(m, [command]) == Interpret(m, command)
  {
    hide Interpret;
    assert [command][1..] == [];
    if Interpret(m, command).Some? {
      InterpretNothing(Interpret(m, command).value);
    }
  }

  lemma InterpretLast(m: Machine, commands: seq<Command>)
    requires commands != [] && InterpretAll(m, commands).Some?
    ensures var n := |commands| - 1;
            && InterpretAll(m, commands[..n]).Some?
            && InterpretAll(m, commands) == Interpret(InterpretAll(m, commands[..n]).value, commands[n])
  {
    hide InterpretAll, Interpret;
    var n := |commands| - 1;
    assert commands == commands[..n] + [commands[n]];
    InterpretPrefix(m, commands[..n], [commands[n]]);
    InterpretAppend(m, commands[..n], [commands[n]]);
    InterpretOne(InterpretAll(m, commands[..n]).value, commands[n]);
  }

  /* ---------- Nothing of a unit shows before its last command ---------- */

  /** A unit that is not finished leaves the values alone: nothing of it is there, or its transaction is open. */
  lemma UnitSilent(values: Values, unit: seq<Command>, p: nat)
    requires AtomicUnit(unit) && p < |unit|
    ensures InterpretAll(Machine(values, None), unit[..p]) ==
            Some(Machine(values, if p == 0 then None else Some(unit[1..p])))
  {
    NamedCommands();
    hide VerbOf, Logged, AllRepresentable;
    var start := Machine(values, None);
    if p > 0 {
      assert unit[..p] == [MULTI_COMMAND] + unit[1..p];
      InterpretOne(start, MULTI_COMMAND);
      assert Interpret(start, MULTI_COMMAND) == Some(Machine(values, Some([])));
      forall i | 0 <= i < p - 1 ensures Logged(unit[1..p][i]) {
        assert unit[1..p][i] == unit[i + 1];
      }
      QueueWrites(values, [], unit[1..p]);
      assert [] + unit[1..p] == unit[1..p];
      hide InterpretAll, Interpret;
      InterpretAppend(start, [MULTI_COMMAND], unit[1..p]);
    } else {
      assert unit[..p] == [];
    }
  }

  /** A finished unit leaves no transaction open. */
  lemma UnitCloses(values: Values, unit: seq<Command>)
    requires AtomicUnit(unit)
    ensures var m := InterpretAll(Machine(values, None), unit); m.Some? ==> m.value.open == None
  {
    NamedCommands();
    hide VerbOf, InterpretAll, AllRepresentable, ApplyWrite, RunWrites;
    var start := Machine(values, None);
    if InterpretAll(start, unit).Some? {
      InterpretLast(start, unit);
      if |unit| == 1 {
        assert unit[..0] == [];
        InterpretNothing(start);
        if Logged(unit[0]) {
          LoggedShape(unit[0]);
        }
      }
    }
  }

  /** What the first `n` frames mean, read from given values on. */
  function Meaning(values: Values, frames: seq<Frame>): Option<Machine> {
    InterpretAll(Machine(values, None), CommandsOf(frames))
  }

  lemma MeaningExtended(values: Values, frames: seq<Frame>, n: nat)
    requires n <= |CommandsOf(frames)|
    requires Meaning(values, frames).Some?
    ensures InterpretAll(Machine(values, None), CommandsOf(frames)[..n]).Some?
  {
    hide InterpretAll, CommandsOf;
    var commands := CommandsOf(frames);
    assert commands == commands[..n] + commands[n..];
    InterpretPrefix(Machine(values, None), commands[..n], commands[n..]);
  }

  /** Between frames no transaction is open. */
  lemma {:induction false} MeaningCloses(values: Values, frames: seq<Frame>)
    requires FramesAtomic(frames) && Meaning(values, frames).Some?
    ensures Meaning(values, frames).value.open == None
    decreases |frames|
  {
    hide UnitOf, FrameAtomic, AtomicUnit, InterpretAll;
    if frames == [] {
      InterpretNothing(Machine(values, None));
    } else {
      var n := |frames| - 1;
      var front := CommandsOf(frames[..n]);
      InterpretPrefix(Machine(values, None), front, UnitOf(frames[n]));
      InterpretAppend(Machine(values, None), front, UnitOf(frames[n]));
      MeaningCloses(values, frames[..n]);
      UnitSerialized(frames[n]);
      UnitCloses(Meaning(values, frames[..n]).value.values, UnitOf(frames[n]));
    }
  }

  /** Position `n` of the commands lies in frame `j`, or at the end of the last one. */
  predicate Within(frames: seq<Frame>, n: nat, j: nat) {
    && j <= |frames| && |CommandsOf(frames[..j])| <= n <= |CommandsOf(frames)|
    && (j < |frames| ==> n < |CommandsOf(frames[..j + 1])|)
  }

  /** After any number of commands the values are those of a frame boundary. */
  lemma {:induction false} FrameBoundary(values: Values, frames: seq<Frame>, n: nat) returns (j: nat)
    requires FramesAtomic(frames) && Meaning(values, frames).Some? && n <= |CommandsOf(frames)|
    ensures Within(frames, n, j)
    ensures InterpretAll(Machine(values, None), CommandsOf(frames)[..n]).Some?
    ensures Meaning(values, frames[..j]).Some?
    ensures InterpretAll(Machine(values, None), CommandsOf(frames)[..n]).value.values == Meaning(values, frames[..j]).value.values
    decreases |frames|
  {
    hide UnitOf, FrameAtomic, AtomicUnit, InterpretAll, CommandsOf;
    MeaningExtended(values, frames, n);
    if n == |CommandsOf(frames)| {
      assert CommandsOf(frames)[..n] == CommandsOf(frames) && frames[..|frames|] == frames;
      return |frames|;
    }
    LastFrame(frames);
    var last := |frames| - 1;
    var front := CommandsOf(frames[..last]);
    var unit := UnitOf(frames[last]);
    InterpretPrefix(Machine(values, None), front, unit);
    if n < |front| {
      assert CommandsOf(frames)[..n] == front[..n];
      j := FrameBoundary(values, frames[..last], n);
      assert frames[..last][..j] == frames[..j];
      assert j < last ==> frames[..last][..j + 1] == frames[..j + 1];
      assert frames[..last][..last] == frames[..last];
    } else {
      var p := n - |front|;
      assert CommandsOf(frames)[..n] == front + unit[..p];
      MeaningCloses(values, frames[..last]);
      InterpretAppend(Machine(values, None), front, unit[..p]);
      UnitSerialized(frames[last]);
      UnitSilent(Meaning(values, frames[..last]).value.values, unit, p);
      assert frames[..last + 1] == frames;
      return last;
    }
  }

  lemma LastFrame(frames: seq<Frame>)
    requires CommandsOf(frames) != []
    ensures frames != [] && CommandsOf(frames) == CommandsOf(frames[..|frames| - 1]) + UnitOf(frames[|frames| - 1])
  {
    hide UnitOf;
  }

  lemma {:induction false} CommandsMonotone(frames: seq<Frame>, i: nat, j: nat)
    requires i <= j <= |frames|
    ensures |CommandsOf(frames[..i])| <= |CommandsOf(frames[..j])|
  {
    hide CommandsOf;
    assert frames[..j] == frames[..i] + frames[i..j];
    CommandsAppend(frames[..i], frames[i..j]);
  }

  lemma SerializedNonempty(command: Command)
    ensures SerializeCommand(command) != []
  {
  }

  lemma EmptyIncomplete()
    ensures ParseCommand([]).Incomplete?
  {
  }

  /** Bytes that begin a serialised list of commands parse, if at all, to its first command. */
  lemma FirstOfMany(buffer: Bytes, tail: Bytes, commands: seq<Command>)
    requires buffer + tail == SerializeAll(commands) && AllRepresentable(commands)
    requires !ParseCommand(buffer).Incomplete?
    ensures commands != []
    ensures ParseCommand(buffer) == Complete(commands[0], |SerializeCommand(commands[0])|)
    ensures |SerializeCommand(commands[0])| <= |buffer|
    ensures buffer[..|SerializeCommand(commands[0])|] == SerializeCommand(commands[0])
  {
    hide ParseCommand, SerializeCommand, Representable;
    EmptyIncomplete();
    assert buffer != [];
    ParseStable(buffer, tail);
    var first := SerializeCommand(commands[0]);
    RoundTrip(commands[0], SerializeAll(commands[1..]));
    assert buffer[..|first|] == (buffer + tail)[..|first|];
  }

  /** And they do parse once the first command is there in full. */
  lemma FirstParses(buffer: Bytes, commands: seq<Command>)
    requires buffer == SerializeAll(commands) && AllRepresentable(commands) && commands != []
    ensures ParseCommand(buffer) == Complete(commands[0], |SerializeCommand(commands[0])|)
  {
    hide ParseCommand, SerializeCommand, Representable;
    RoundTrip(commands[0], SerializeAll(commands[1..]));
  }
}
