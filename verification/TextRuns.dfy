/** SET and GET over whole runs. */
module TextRuns {
  import opened Wrappers
  import opened Decimal
  import opened Resp
  import opened Responses
  import opened Keyspace
  import opened Commands
  import opened Channels
  import opened ReplicationStream
  import opened Processor
  import opened Ledger
  import opened Blocking
  import opened Writes
  import opened Aborts
  import opened Outcomes
  import opened PopOutcomes
  import opened CommandLaws

  /* ---------- A command that runs at once ---------- */

  /** Commands of the table that neither block nor depend on a subscription. */
  predicate RunsAtOnce(verb: Verb) {
    TableVerb(verb) && !verb.Blpop? && !verb.Xread? && !verb.Ping?
  }

  lemma AtOnceProcessed(s: State, task: Task, env: Env)
    requires Admitted(s, task) && task.command != [] && RunsAtOnce(VerbOf(task.command))
    ensures var outcome := Dispatch(s.db, task.command, env.context(0));
            ProcessCommand(s, task.client, task.command, task.source, env) == Processed(s.(db := outcome.db), outcome.response)
  {
    hide VerbOf, Dispatch, ProcessImmediate;
  }

  lemma AtOnceDirect(s: State, task: Task, env: Env)
    requires Admitted(s, task) && task.command != [] && RunsAtOnce(VerbOf(task.command))
    ensures ProcessTask(s, task, env) == ProcessDirect(s, task, env)
  {
    hide VerbOf, IsWrite, ProcessDirect, Refuse, RefuseWrite, ProcessBlpop, ProcessXread, ProcessWait;
  }

  lemma Concluded(s: State, task: Task, succeeded: bool, response: Response, env: Env)
    requires task.source.FromClient? ==> task.client !in s.hub.subscriptions
    ensures var t := Conclude(s, task, succeeded, response, env);
            t.replies == s.replies + [Reply(task.id, response)] && t.db == s.db
  {
    hide Deflect;
  }

  /** An admitted command is answered with its response, or with MISCONF if it is a write that could not be recorded. */
  lemma AtOnceAnswered(s: State, task: Task, env: Env) returns (response: Response)
    requires Admitted(s, task) && task.command != [] && RunsAtOnce(VerbOf(task.command))
    ensures var t := ProcessTask(s, task, env);
            var outcome := Dispatch(s.db, task.command, env.context(0));
            && t.db == outcome.db && t.replies == s.replies + [Reply(task.id, response)]
            && (response == outcome.response || (response == MISCONF && IsWrite(task.command) && AppendFails(env)))
  {
    hide VerbOf, Dispatch, IsWrite, Modified, Normalize, SerializeCommand, ProcessCommand, Record, Conclude, RunsAtOnce,
         AppendFails;
    AtOnceDirect(s, task, env);
    AtOnceProcessed(s, task, env);
    var outcome := Dispatch(s.db, task.command, env.context(0));
    var after := s.(db := outcome.db);
    var payload := SerializeCommand(Normalize(task.command, outcome.response));
    var recorded := Record(after, task.client, task.source, payload, env);
    var succeeded := !outcome.response.SimpleError?;
    RecordQueues(after, task.client, task.source, payload, env);
    RecordDb(after, task.client, task.source, payload, env);
    if IsWrite(task.command) && Modified(task.command, outcome.response) {
      if !recorded.ok {
        RecordFails(after, task.client, task.source, payload, env);
      }
      response := if recorded.ok then outcome.response else MISCONF;
      Concluded(recorded.state, task, succeeded, response, env);
    } else {
      response := outcome.response;
      Concluded(after, task, succeeded, response, env);
    }
  }

  /* ---------- What is no list is not popped ---------- */

  predicate NotAListAt(db: Db, key: Bytes) {
    key in db.entries ==> !db.entries[key].value.List?
  }

  lemma PopNotAList(db: Db, popped: Bytes, now: nat, key: Bytes)
    requires NotAListAt(db, key)
    ensures key !in PopWrites(db, popped, now) && NotAListAt(PopDb(db, popped, now), key)
  {
  }

  lemma {:induction false} RetryNotAList(s: State, queue: seq<PendingPop>, env: Env, key: Bytes)
    requires NotAListAt(s.db, key)
    ensures key !in RetryWrites(s, queue, env)
    decreases |queue|
  {
    hide AttemptPop, PopDb, PopFinds, PopWrites, NotAListAt;
    if queue != [] {
      PopNotAList(s.db, queue[0].key, env.now, key);
      AttemptShape(s, queue[0].task, queue[0].key, env);
      RetryNotAList(AttemptPop(s, queue[0].task, queue[0].key, env).state, queue[1..], env, key);
    }
  }

  /* ---------- SET ... GET ---------- */

  /** The turn of SET and the run behind it, seen from the key. */
  lemma SetTraced(s: State, task: Task, env: Env, events: seq<Event>, key: Bytes, now: nat)
    requires NotAListAt(ProcessTask(s, task, env).db, key) && env.now <= now && AllReadBy(events, now)
    requires !WrittenIn(Step(s, CommandTask(task), env), events, key)
    ensures Traced(ProcessTask(s, task, env).db, Run(Step(s, CommandTask(task), env), events).db, key, false, now)
  {
    hide Traced, NotAListAt, WrittenIn, AllReadBy, Run, ProcessTask, RetryAll, ExpireAll, RetryWrites;
    var processed := ProcessTask(s, task, env);
    var t := Step(s, CommandTask(task), env);
    RetryNotAList(processed, processed.pendingPops, env, key);
    TurnTraced(processed, env, key, now);
    RunTraced(t, events, key, now);
    TracedTrans(processed.db, t.db, Run(t, events).db, key, false, false, now);
  }

  lemma TracedVisible(a: Db, b: Db, key: Bytes, entry: Entry, now: nat)
    requires Traced(a, b, key, false, now) && Look(a, key) == Some(entry)
    ensures Visible(b, key, now) == if Expired(entry, now) then None else Some(entry)
  {
  }

  /**
   GET returns what SET stored: through any run in which no event writes the key, the text comes back until the time
   of the SET has passed, and then no more.
   */
  lemma GetReturnsWhatWasSet(s: State, task: Task, env: Env, time: Option<nat>, events: seq<Event>, get: Task, getEnv: Env)
    requires IsNamed(task.command, "SET") && |task.command| >= 3 && LastsFor(task.command, time) && Admitted(s, task)
    requires IsNamed(get.command, "GET") && |get.command| == 2 && get.command[1] == task.command[1]
    requires var t := Step(s, CommandTask(task), env);
             !WrittenIn(t, events, task.command[1]) && Admitted(Run(t, events), get)
    requires env.now <= getEnv.context(0).now && AllReadBy(events, getEnv.context(0).now)
    ensures var later := Run(Step(s, CommandTask(task), env), events);
            var passed := time.Some? && getEnv.context(0).now >= env.context(0).now + time.value;
            ProcessTask(later, get, getEnv).replies ==
            later.replies + [Reply(get.id, if passed then NullBulkString else BulkString(task.command[2]))]
  {
    TextVerbs(task.command);
    TextVerbs(get.command);
    hide VerbOf, Admitted, WrittenIn, AllReadBy, Run, ProcessTask, Step, Dispatch, Visible, LastsFor, Traced;
    var key, now := task.command[1], getEnv.context(0).now;
    var later := Run(Step(s, CommandTask(task), env), events);
    var stored := AtOnceAnswered(s, task, env);
    var entry := StoredBySet(s.db, task.command, env.context(0), time);
    SetTraced(s, task, env, events, key, now);
    TracedVisible(ProcessTask(s, task, env).db, later.db, key, entry, now);
    GetLaw(later.db, get.command, getEnv.context(0));
    var response := AtOnceAnswered(later, get, getEnv);
  }

  lemma StoredBySet(db: Db, command: Command, context: Context, time: Option<nat>) returns (entry: Entry)
    requires IsNamed(command, "SET") && |command| >= 3 && LastsFor(command, time)
    ensures entry == Entry(Text(command[2]), if time.Some? then Some(context.now + time.value) else None)
    ensures Look(Dispatch(db, command, context).db, command[1]) == Some(entry)
  {
    hide Dispatch;
    entry := Entry(Text(command[2]), if time.Some? then Some(context.now + time.value) else None);
    SetLaw(db, command, context, time, context.now);
  }
}
