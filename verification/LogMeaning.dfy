/** What a log means, said without the processor: writes, one after the other, some grouped into transactions. */
module LogMeaning {
  import opened Wrappers
  import opened Decimal
  import opened Resp
  import opened Aof
  import opened Responses
  import opened Keyspace
  import opened Commands
  import opened Replayable
  import opened ReplicationStream
  import opened Processor

  /** Values, and the queue of a transaction that has begun. */
  datatype Machine = Machine(values: Values, open: Option<seq<Command>>)

  function RunWrites(values: Values, commands: seq<Command>): Option<Values>
    decreases |commands|
  {
    if commands == [] then Some(values)
    else match ApplyWrite(values, commands[0])
      case None => None
      case Some(next) => RunWrites(next, commands[1..])
  }

  /** One command of a log or of a replication stream; None where a reader would fail. */
  function Interpret(m: Machine, command: Command): Option<Machine> {
    if VerbOf(command).Multi? then
      if m.open.None? then Some(m.(open := Some([]))) else None
    else if VerbOf(command).Exec? then
      if m.open.None? then None
      else match RunWrites(m.values, m.open.value)
        case None => None
        case Some(values) => Some(Machine(values, None))
    else if VerbOf(command).Replconf? then
      if |command| == 3 then Some(m) else None
    else if !Logged(command) then None
    else if m.open.Some? then Some(m.(open := Some(m.open.value + [command])))
    else match ApplyWrite(m.values, command)
      case None => None
      case Some(values) => Some(Machine(values, None))
  }

  function InterpretAll(m: Machine, commands: seq<Command>): Option<Machine>
    decreases |commands|
  {
    if commands == [] then Some(m)
    else match Interpret(m, commands[0])
      case None => None
      case Some(next) => InterpretAll(next, commands[1..])
  }

  /** The meaning of bytes read from given values on. */
  function Denotes(bytes: Bytes, from: Values): Option<Machine> {
    match DecodeLog(bytes)
    case None => None
    case Some(commands) => InterpretAll(Machine(from, None), commands)
  }

  lemma {:induction false} InterpretAppend(m: Machine, first: seq<Command>, second: seq<Command>)
    requires InterpretAll(m, first).Some?
    ensures InterpretAll(m, first + second) == InterpretAll(InterpretAll(m, first).value, second)
    decreases |first|
  {
    hide Interpret;
    if first == [] {
      assert first + second == second;
    } else {
      assert (first + second)[1..] == first[1..] + second;
      InterpretAppend(Interpret(m, first[0]).value, first[1..], second);
    }
  }

  /** Appending serialised commands to a log extends its meaning by theirs. */
  lemma DenotesExtended(bytes: Bytes, from: Values, values: Values, commands: seq<Command>, after: Machine)
    requires Denotes(bytes, from) == Some(Machine(values, None))
    requires AllRepresentable(commands)
    requires InterpretAll(Machine(values, None), commands) == Some(after)
    ensures Denotes(bytes + SerializeAll(commands), from) == Some(after)
  {
    hide DecodeLog, InterpretAll;
    DecodeLogExtended(bytes, commands);
    InterpretAppend(Machine(from, None), DecodeLog(bytes).value, commands);
  }

  lemma MultiNamed()
    ensures VerbNamed("MULTI") == Multi
  {
  }

  lemma ExecNamed()
    ensures VerbNamed("EXEC") == Exec
  {
  }

  lemma ReplconfNamed()
    ensures VerbNamed("REPLCONF") == Replconf
  {
  }

  lemma NamedCommands()
    ensures VerbOf(MULTI_COMMAND) == Multi && VerbOf(EXEC_COMMAND) == Exec && VerbOf(GETACK_COMMAND) == Replconf
    ensures Representable(MULTI_COMMAND) && Representable(EXEC_COMMAND) && Representable(GETACK_COMMAND)
  {
    hide VerbNamed;
    MultiNamed();
    ExecNamed();
    ReplconfNamed();
  }

  lemma {:induction false} QueueWrites(values: Values, queue: seq<Command>, commands: seq<Command>)
    requires forall i :: 0 <= i < |commands| ==> Logged(commands[i])
    ensures InterpretAll(Machine(values, Some(queue)), commands) == Some(Machine(values, Some(queue + commands)))
    decreases |commands|
  {
    hide VerbOf, Plain, ExplicitId;
    if commands == [] {
      assert queue + commands == queue;
    } else {
      QueueWrites(values, queue + [commands[0]], commands[1..]);
      assert queue + [commands[0]] + commands[1..] == queue + commands;
    }
  }

  /** A bracketed transaction means its writes in one go. */
  lemma BracketedMeans(values: Values, logged: seq<Command>, after: Values)
    requires forall i :: 0 <= i < |logged| ==> Logged(logged[i])
    requires RunWrites(values, logged) == Some(after)
    ensures InterpretAll(Machine(values, None), Bracketed(logged)) == Some(Machine(after, None))
    ensures AllRepresentable(Bracketed(logged))
  {
    NamedCommands();
    hide VerbOf, RunWrites, Representable, ExplicitId;
    var start := Machine(values, None);
    assert Interpret(start, MULTI_COMMAND) == Some(Machine(values, Some([])));
    assert [MULTI_COMMAND][1..] == [];
    assert InterpretAll(start, [MULTI_COMMAND]) == Some(Machine(values, Some([])));
    QueueWrites(values, [], logged);
    assert [] + logged == logged;
    var queued := Machine(values, Some(logged));
    hide InterpretAll, Interpret, Logged;
    InterpretAppend(start, [MULTI_COMMAND], logged);
    InterpretAppend(start, [MULTI_COMMAND] + logged, [EXEC_COMMAND]);
    ExecMeans(values, logged, after);
    BracketedRepresentable(logged);
  }

  lemma ExecMeans(values: Values, logged: seq<Command>, after: Values)
    requires RunWrites(values, logged) == Some(after)
    ensures InterpretAll(Machine(values, Some(logged)), [EXEC_COMMAND]) == Some(Machine(after, None))
  {
    NamedCommands();
    hide VerbOf, RunWrites;
    assert [EXEC_COMMAND][1..] == [];
  }

  lemma BracketedRepresentable(logged: seq<Command>)
    requires forall i :: 0 <= i < |logged| ==> Logged(logged[i])
    ensures AllRepresentable(Bracketed(logged))
  {
    NamedCommands();
    hide VerbOf, Representable, ExplicitId;
    var commands := Bracketed(logged);
    forall i | 0 <= i < |commands| ensures Representable(commands[i]) {
      if 0 < i <= |logged| {
        assert commands[i] == logged[i - 1];
        assert Logged(logged[i - 1]);
      }
    }
  }

  /** A single logged write means itself. */
  lemma WriteMeans(values: Values, command: Command, after: Values)
    requires Logged(command) && ApplyWrite(values, command) == Some(after)
    ensures InterpretAll(Machine(values, None), [command]) == Some(Machine(after, None))
    ensures AllRepresentable([command]) && SerializeAll([command]) == SerializeCommand(command)
  {
    hide VerbOf, ApplyWrite, ExplicitId;
    assert [command][1..] == [];
    assert SerializeCommand(command) + [] == SerializeCommand(command);
  }

  lemma GetAckMeans(values: Values)
    ensures InterpretAll(Machine(values, None), [GETACK_COMMAND]) == Some(Machine(values, None))
    ensures AllRepresentable([GETACK_COMMAND]) && SerializeAll([GETACK_COMMAND]) == SerializeCommand(GETACK_COMMAND)
  {
    NamedCommands();
    hide VerbOf, Representable;
    assert [GETACK_COMMAND][1..] == [];
    assert SerializeCommand(GETACK_COMMAND) + [] == SerializeCommand(GETACK_COMMAND);
  }

  /* ---------- Logged writes against the handlers ---------- */

  /** Running a logged write on a database without expiries does what the log says, whatever the clocks read. */
  lemma DispatchApplies(db: Db, command: Command, context: Context)
    requires NoExpiry(db) && Logged(command) && ApplyWrite(ValuesOf(db), command).Some?
    ensures var outcome := Dispatch(db, command, context);
            && NoExpiry(outcome.db)
            && ApplyWrite(ValuesOf(db), command) == Some(ValuesOf(outcome.db))
            && !outcome.response.SimpleError?
  {
    LoggedShape(command);
    hide VerbOf, ArgumentsValid, Decide, Apply, Settle, Look, NoExpiry, ValuesOf, Logged;
    var key := command[1];
    var entry := Look(db, key);
    SettleNothing(db, key, context.now);
    LookValue(db, key);
    EntryUnexpiring(db, key);
    LoggedIgnoresContext(command, context, entry);
    DecideShape(command, context, entry);
    ApplyValues(db, key, Decide(command, context, entry).change);
  }

  lemma LoggedShape(command: Command)
    requires Logged(command)
    ensures IsWrite(command) && KeyVerb(VerbOf(command)) && command != [] && !ExpiringSet(command)
    ensures TableVerb(VerbOf(command)) && !VerbOf(command).Xread? && !VerbOf(command).Blpop?
    ensures Representable(command)
  {
    hide VerbNamed;
  }

  lemma EntryUnexpiring(db: Db, key: Bytes)
    requires NoExpiry(db)
    ensures Look(db, key).Some? ==> Look(db, key).value.expiresAt == None
  {
  }

  /** A transaction of logged writes has no failing command. */
  lemma {:induction false} RunQueueApplies(db: Db, commands: seq<Command>, i: nat, env: Env)
    requires NoExpiry(db) && RunWrites(ValuesOf(db), commands).Some?
    requires forall j :: 0 <= j < |commands| ==> Logged(commands[j])
    ensures var ran := RunQueue(db, commands, i, env);
            && NoExpiry(ran.db)
            && RunWrites(ValuesOf(db), commands) == Some(ValuesOf(ran.db))
    decreases |commands|
  {
    hide NoExpiry, ValuesOf, ApplyWrite, Dispatch, Logged, IsWrite, Modified, Normalize;
    if commands != [] {
      DispatchApplies(db, commands[0], env.context(i));
      RunQueueApplies(Dispatch(db, commands[0], env.context(i)).db, commands[1..], i + 1, env);
    }
  }

  /* ---------- Units of the stream ---------- */

  /** What one frame carries: a single command, or a whole transaction. */
  predicate AtomicUnit(commands: seq<Command>) {
    && commands != [] && AllRepresentable(commands)
    && if |commands| == 1 then Logged(commands[0]) || commands[0] == GETACK_COMMAND
       else
         && commands[0] == MULTI_COMMAND && commands[|commands| - 1] == EXEC_COMMAND
         && forall i :: 0 < i < |commands| - 1 ==> Logged(commands[i])
  }

  predicate FrameAtomic(frame: Frame) {
    && DecodeLog(frame.payload).Some?
    && AtomicUnit(DecodeLog(frame.payload).value)
    && frame.payload == SerializeAll(DecodeLog(frame.payload).value)
  }

  predicate FramesAtomic(frames: seq<Frame>) {
    forall i :: 0 <= i < |frames| ==> FrameAtomic(frames[i])
  }

  lemma UnitFrame(commands: seq<Command>, endingOffset: nat)
    requires AtomicUnit(commands)
    ensures FrameAtomic(Frame(SerializeAll(commands), endingOffset))
  {
    hide DecodeLog, SerializeAll, Logged;
    DecodeLogSerialized(commands);
  }

  lemma BracketedUnit(logged: seq<Command>)
    requires forall i :: 0 <= i < |logged| ==> Logged(logged[i])
    ensures AtomicUnit(Bracketed(logged))
  {
    hide Logged, AllRepresentable;
    BracketedRepresentable(logged);
    var commands := Bracketed(logged);
    forall i | 0 < i < |commands| - 1 ensures Logged(commands[i]) {
      assert commands[i] == logged[i - 1];
    }
  }

  lemma SingleUnit(command: Command)
    requires Logged(command) || command == GETACK_COMMAND
    ensures AtomicUnit([command])
  {
    NamedCommands();
    if Logged(command) {
      LoggedShape(command);
    }
    hide Logged, Representable;
  }
}
