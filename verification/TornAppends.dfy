/** Appends that fail: what a file means that was cut inside the last thing written to it. */
module TornAppends {
  import opened Wrappers
  import opened Decimal
  import opened Resp
  import opened Aof
  import opened Responses
  import opened Commands
  import opened Replayable
  import opened Channels
  import opened ReplicationStream
  import opened Processor
  import opened Invariants
  import opened LogMeaning
  import opened Replay
  import opened Recovery
  import opened StreamUnits

  /** The number of whole commands within the first `cut` bytes. */
  function Completed(commands: seq<Command>, cut: nat): (k: nat)
    ensures k <= |commands|
    decreases |commands|
  {
    if commands == [] || cut < |SerializeCommand(commands[0])| then 0
    else 1 + Completed(commands[1..], cut - |SerializeCommand(commands[0])|)
  }

  /** The cut falls between two commands, not inside one. */
  predicate Clean(commands: seq<Command>, cut: nat) {
    cut == |SerializeAll(commands[..Completed(commands, cut)])|
  }

  /** The bytes up to a cut: whole commands, and the beginning of the next one if the cut is not clean. */
  lemma {:induction false} CutParts(commands: seq<Command>, cut: nat) returns (part: Bytes)
    requires cut <= |SerializeAll(commands)|
    ensures var k := Completed(commands, cut);
            && SerializeAll(commands)[..cut] == SerializeAll(commands[..k]) + part
            && (part == [] <==> Clean(commands, cut))
            && (part != [] ==> k < |commands| && part < SerializeCommand(commands[k]))
            && (cut == |SerializeAll(commands)| ==> k == |commands| && part == [])
    decreases |commands|
  {
    hide SerializeCommand;
    var k := Completed(commands, cut);
    if commands == [] {
      assert commands[..0] == [];
      return [];
    }
    var first := SerializeCommand(commands[0]);
    if cut < |first| {
      part := SerializeAll(commands)[..cut];
      assert commands[..0] == [] && SerializeAll([]) == [];
      assert part == first[..cut];
      assert [] + part == part;
    } else {
      part := CutParts(commands[1..], cut - |first|);
      var rest := SerializeAll(commands[1..]);
      assert (first + rest)[..cut] == first + rest[..cut - |first|];
      assert commands[..k][1..] == commands[1..][..k - 1] && commands[..k][0] == commands[0];
      assert first + (SerializeAll(commands[1..][..k - 1]) + part) == first + SerializeAll(commands[1..][..k - 1]) + part;
    }
  }

  /** A file that ends inside a command cannot be read. */
  lemma CutInside(contents: Bytes, commands: seq<Command>, command: Command, part: Bytes)
    requires DecodeLog(contents).Some? && AllRepresentable(commands)
    requires Representable(command) && part < SerializeCommand(command) && part != []
    ensures DecodeLog(contents + (SerializeAll(commands) + part)) == None
  {
    hide ParseCommand, SerializeCommand, SerializeAll, Representable;
    DecodeLogExtended(contents, commands);
    ProperPrefixIncomplete(command, part);
    DecodeLogAppend(contents + SerializeAll(commands), part);
    assert contents + (SerializeAll(commands) + part) == contents + SerializeAll(commands) + part;
  }

  /** What the first `k` commands of a unit leave behind. */
  function Torn(before: Values, commands: seq<Command>, after: Values, k: nat): Machine
    requires k <= |commands|
  {
    if k == |commands| then Machine(after, None)
    else Machine(before, if k == 0 then None else Some(commands[1..k]))
  }

  /**
   An append that fails after `cut` bytes of a unit, a single write or a whole transaction, leaves a file that
   cannot be read if the cut falls inside a command. Otherwise the file means the old values if nothing was written,
   the new values if everything was (only the sync failed), and the old values under an open transaction in between.
   */
  lemma TornAppend(contents: Bytes, from: Values, before: Values, commands: seq<Command>, after: Values, cut: nat)
    requires Denotes(contents, from) == Some(Machine(before, None)) && AtomicUnit(commands)
    requires InterpretAll(Machine(before, None), commands) == Some(Machine(after, None))
    requires cut <= |SerializeAll(commands)|
    ensures Denotes(contents + SerializeAll(commands)[..cut], from) ==
            if Clean(commands, cut) then Some(Torn(before, commands, after, Completed(commands, cut))) else None
  {
    UnitRepresentable(commands);
    hide InterpretAll, SerializeCommand, SerializeAll, AtomicUnit, Completed, Representable, Clean;
    var k := Completed(commands, cut);
    var part := CutParts(commands, cut);
    var whole := commands[..k];
    if !Clean(commands, cut) {
      CutInside(contents, whole, commands[k], part);
    } else {
      assert SerializeAll(whole) + part == SerializeAll(whole);
      if k < |commands| {
        UnitSilent(before, commands, k);
      } else {
        assert whole == commands;
      }
      DenotesExtended(contents, from, before, whole, Torn(before, commands, after, k));
    }
  }

  /** A start from a file whose last transaction is open: its values are the old ones, and the file is not taken. */
  lemma OpenTransactionRefused(role: Role, openAccess: bool, contents: Bytes, env: Env, m: Machine)
    requires Denotes(contents, map[]) == Some(m) && m.open.Some?
    ensures DecodeLog(contents).Some?
    ensures var t := Startup(role, openAccess, contents, env); ValuesOf(t.db) == m.values && t.file == None
  {
    hide DecodeLog, InterpretAll, ReplayCommands, RetryAll, ExpireAll, ValuesOf, NoExpiry, Logged, ProcessTask,
         ProcessUnregister, LoadEntries;
    var commands := DecodeLog(contents).value;
    var initial := InitialState(role, openAccess);
    FreshMatches(role, openAccess);
    ReplayMatches(initial, commands, env, Machine(map[], None));
    ReplayFile(initial, commands, env);
    InitializeQueues(role, openAccess, contents, commands, env);
    NothingToRetry(ProcessAof(initial, contents, commands, env), env);
  }

  /** Replaying a file opens none. */
  lemma {:induction false} ReplayFile(s: State, commands: seq<Command>, env: Env)
    ensures ReplayCommands(s, commands, env).state.file == s.file
    decreases |commands|
  {
    hide ProcessCommand;
    if commands != [] {
      var processed := ProcessCommand(s, AOF_CLIENT, commands[0], FromAof, env);
      CommandFile(s, AOF_CLIENT, commands[0], env);
      if !processed.response.SimpleError? {
        ReplayFile(processed.state, commands[1..], env);
      }
    }
  }

  lemma CommandFile(s: State, client: ClientId, command: Command, env: Env)
    ensures ProcessCommand(s, client, command, FromAof, env).state.file == s.file
  {
    hide VerbOf, ExecuteTransaction, Dispatch, JoinAll, LeaveAll, Forget, DropFrom, WatchKeys;
    ExecuteFile(s, client, env);
  }

  lemma ExecuteFile(s: State, client: ClientId, env: Env)
    ensures ExecuteTransaction(s, client, FromAof, env).state.file == s.file
  {
    hide RunQueue, CheckWatched, SerializeAll, Bracketed, AppendClientFrame;
  }

  /**
   No cut ever restores half a transaction: a start from a file that a failed append left behind is impossible, or
   has all of the old or all of the new values; and it goes on with the file only if the file has all or nothing
   of the unit.
   */
  lemma TornRestart(
    role: Role, openAccess: bool, contents: Bytes, before: Values, commands: seq<Command>, after: Values, cut: nat, env: Env)
    requires Denotes(contents, map[]) == Some(Machine(before, None)) && AtomicUnit(commands)
    requires InterpretAll(Machine(before, None), commands) == Some(Machine(after, None))
    requires cut <= |SerializeAll(commands)| && ClocksRun(env)
    ensures var file := contents + SerializeAll(commands)[..cut];
            && (DecodeLog(file).Some? <==> Clean(commands, cut))
            && (DecodeLog(file).Some? ==>
                  var t := Startup(role, openAccess, file, env);
                  && ValuesOf(t.db) == (if cut == |SerializeAll(commands)| then after else before)
                  && t.file == if cut == 0 || cut == |SerializeAll(commands)| then Some(file) else None)
  {
    assert commands != [];
    hide InterpretAll, SerializeAll, SerializeCommand, AtomicUnit, DecodeLog, Clean, Completed, ValuesOf, ClocksRun, Startup,
         Faithful;
    var file := contents + SerializeAll(commands)[..cut];
    TornAppend(contents, map[], before, commands, after, cut);
    CleanDecodes(contents, before, commands, cut);
    if Clean(commands, cut) {
      var k := Completed(commands, cut);
      CompletedEnds(commands, cut);
      if 0 < k < |commands| {
        OpenTransactionRefused(role, openAccess, file, env, Torn(before, commands, after, k));
      } else {
        StartupRestores(role, openAccess, file, env, Torn(before, commands, after, k).values);
      }
    }
  }

  lemma CompletedEnds(commands: seq<Command>, cut: nat)
    requires cut <= |SerializeAll(commands)| && Clean(commands, cut) && commands != []
    ensures Completed(commands, cut) == |commands| <==> cut == |SerializeAll(commands)|
    ensures Completed(commands, cut) == 0 <==> cut == 0
  {
    hide SerializeCommand, Completed;
    var k := Completed(commands, cut);
    var part := CutParts(commands, cut);
    if k == |commands| {
      assert commands[..k] == commands;
    } else {
      assert commands[..0] == [];
      if cut == 0 && k > 0 {
        assert commands[..k][0] == commands[0];
        SerializedNonempty(commands[0]);
      }
    }
    SerializedNonempty(commands[0]);
  }

  lemma CleanDecodes(contents: Bytes, before: Values, commands: seq<Command>, cut: nat)
    requires Denotes(contents, map[]) == Some(Machine(before, None)) && AtomicUnit(commands)
    requires cut <= |SerializeAll(commands)|
    ensures DecodeLog(contents + SerializeAll(commands)[..cut]).Some? <==> Clean(commands, cut)
  {
    UnitRepresentable(commands);
    hide InterpretAll, SerializeAll, SerializeCommand, AtomicUnit, DecodeLog, Clean, Completed, Representable;
    var k := Completed(commands, cut);
    var part := CutParts(commands, cut);
    if !Clean(commands, cut) {
      CutInside(contents, commands[..k], commands[k], part);
    } else {
      assert SerializeAll(commands[..k]) + part == SerializeAll(commands[..k]);
      DecodeLogExtended(contents, commands[..k]);
    }
  }

  /** The same of the server: whatever unit fails to be recorded, a restart has the values from before it or after it. */
  lemma FailedRecord(s: State, client: ClientId, source: Source, commands: seq<Command>, env: Env, base: Basis,
                     before: Values, after: Values, role: Role, openAccess: bool, nextEnv: Env)
    requires Tracks(s, base, before) && AtomicUnit(commands) && ClocksRun(nextEnv)
    requires InterpretAll(Machine(before, None), commands) == Some(Machine(after, None))
    requires !Record(s, client, source, SerializeAll(commands), env).ok
    ensures var file := Record(s, client, source, SerializeAll(commands), env).state.file;
            && file.Some?
            && (DecodeLog(file.value).Some? ==> ValuesOf(Startup(role, openAccess, file.value, nextEnv).db) in {before, after})
  {
    hide InterpretAll, SerializeAll, AtomicUnit, DecodeLog, ValuesOf, ClocksRun, Startup, Denotes, FramesAtomic, StreamBytes,
         AppendClientFrame, Clean;
    var payload := SerializeAll(commands);
    var count := env.append(|s.file.value|).count;
    TornRestart(role, openAccess, s.file.value, before, commands, after, if count < |payload| then count else |payload|, nextEnv);
  }
}
