/** Why the log is only exact without expiries: a relative expiry starts anew when it is replayed. */
module ExpiryReplay {
  import opened Wrappers
  import opened Decimal
  import opened Resp
  import opened Aof
  import opened Responses
  import opened Keyspace
  import opened Commands
  import opened Replayable
  import opened ReplicationStream
  import opened Processor
  import opened LogMeaning
  import opened Recovery

  /** A SET with an expiry and arguments that are in order. */
  predicate ValidExpiringSet(command: Command) {
    && VerbOf(command).Set? && |command| == 5 && ParseExpiry(command[3], command[4]).Some?
    && Representable(command)
  }

  /** The entry that such a command stores when the clock reads `now`. */
  function StoredAt(command: Command, now: nat): Entry
    requires ValidExpiringSet(command)
  {
    Entry(Text(command[2]), Some(now + ParseExpiry(command[3], command[4]).value))
  }

  lemma SetStores(db: Db, command: Command, context: Context)
    requires ValidExpiringSet(command)
    ensures var outcome := Dispatch(db, command, context);
            && command[1] in outcome.db.entries && outcome.db.entries[command[1]] == StoredAt(command, context.now)
            && outcome.response == OK
  {
    hide VerbOf, ParseExpiry;
  }

  lemma SetRuns(s: State, command: Command, env: Env)
    requires ValidExpiringSet(command) && AOF_CLIENT !in s.transactions
    ensures var processed := ProcessCommand(s, AOF_CLIENT, command, FromAof, env);
            && processed.state == s.(db := Dispatch(s.db, command, env.context(0)).db)
            && processed.response == Dispatch(s.db, command, env.context(0)).response
  {
    hide VerbOf, Dispatch, ProcessImmediate, ParseExpiry;
  }

  lemma {:induction false} ReplayAppend(s: State, first: seq<Command>, last: Command, env: Env)
    requires ReplayCommands(s, first, env).ok
    ensures ReplayCommands(s, first + [last], env) ==
            var processed := ProcessCommand(ReplayCommands(s, first, env).state, AOF_CLIENT, last, FromAof, env);
            Replayed(processed.state, !processed.response.SimpleError?)
    decreases |first|
  {
    hide ProcessCommand;
    if first == [] {
      assert first + [last] == [last] && [last][1..] == [];
    } else {
      assert (first + [last])[1..] == first[1..] + [last] && (first + [last])[0] == first[0];
      ReplayAppend(ProcessCommand(s, AOF_CLIENT, first[0], FromAof, env).state, first[1..], last, env);
    }
  }

  lemma DecodesWithSet(contents: Bytes, command: Command)
    requires DecodeLog(contents).Some? && ValidExpiringSet(command)
    ensures DecodeLog(contents + SerializeCommand(command)) == Some(DecodeLog(contents).value + [command])
  {
    hide VerbOf, ParseExpiry, DecodeLog, SerializeCommand, Representable;
    assert [command][1..] == [] && SerializeAll([]) == [];
    assert SerializeCommand(command) + [] == SerializeCommand(command);
    assert SerializeAll([command]) == SerializeCommand(command);
    DecodeLogExtended(contents, [command]);
  }

  /**
   A file that ends with a SET with an expiry, replayed at startup: the key expires that much later than the time of
   the replay. It expires when the live key does if and only if the file is replayed at the time of the original.
   */
  lemma ExpiringSetReplayed(
    role: Role, openAccess: bool, contents: Bytes, values: Values, command: Command, env: Env, live: Db, context: Context)
    requires Denotes(contents, map[]) == Some(Machine(values, None)) && ValidExpiringSet(command)
    ensures var file := contents + SerializeCommand(command);
            && DecodeLog(file).Some?
            && var restarted := Startup(role, openAccess, file, env);
               var written := Dispatch(live, command, context).db;
               && restarted.file == Some(file)
               && command[1] in restarted.db.entries && command[1] in written.entries
               && restarted.db.entries[command[1]] == StoredAt(command, env.context(0).now)
               && (restarted.db.entries[command[1]] == written.entries[command[1]] <==> env.context(0).now == context.now)
  {
    hide VerbOf, ParseExpiry, DecodeLog, SerializeCommand, Representable, InterpretAll, ReplayCommands, ProcessCommand, RetryAll,
         ExpireAll, ProcessTask, ProcessUnregister, LoadEntries, ValuesOf, NoExpiry, Logged, Dispatch, ValidExpiringSet;
    var initial := InitialState(role, openAccess);
    var commands := DecodeLog(contents).value;
    var file := contents + SerializeCommand(command);
    DecodesWithSet(contents, command);
    FreshMatches(role, openAccess);
    ReplayMatches(initial, commands, env, Machine(map[], None));
    ReplayAppend(initial, commands, command, env);
    var before := ReplayCommands(initial, commands, env).state;
    SetRuns(before, command, env);
    SetStores(before.db, command, env.context(0));
    SetStores(live, command, context);
    InitializeQueues(role, openAccess, file, commands + [command], env);
    NothingToRetry(ProcessAof(initial, file, commands + [command], env), env);
  }
}
