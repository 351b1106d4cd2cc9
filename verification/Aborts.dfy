/** Exactly when EXEC is aborted: a watched key was written since WATCH, or its entry has expired. */
module Aborts {
  import opened Wrappers
  import opened Decimal
  import opened Resp
  import opened Responses
  import opened Keyspace
  import opened Commands
  import opened Channels
  import opened ReplicationStream
  import opened Processor
  import opened Blocking
  import opened Watch
  import opened WatchRuns
  import opened Ledger
  import opened Growth
  import opened Writes

  /* ---------- A run and one key ---------- */

  /** Some event of the run writes the key. */
  predicate WrittenIn(s: State, events: seq<Event>, key: Bytes)
    decreases |events|
  {
    events != [] && (key in EventWrites(s, events[0]) || WrittenIn(Next(s, events[0]), events[1..], key))
  }

  ghost predicate AllReadBy(events: seq<Event>, now: nat) {
    forall i :: 0 <= i < |events| ==> EventReadBy(events[i], now)
  }

  lemma {:induction false} RunTraced(s: State, events: seq<Event>, key: Bytes, now: nat)
    requires AllReadBy(events, now)
    ensures Traced(s.db, Run(s, events).db, key, WrittenIn(s, events, key), now)
    decreases |events|
  {
    hide Traced, EventReadBy, Next, EventWrites;
    if events == [] {
      TracedSelf(s.db, key, now);
    } else {
      var event := events[0];
      assert EventReadBy(event, now);
      NextTraced(s, event, key, now);
      RunTraced(Next(s, event), events[1..], key, now);
      TracedTrans(s.db, Next(s, event).db, Run(s, events).db, key, key in EventWrites(s, event),
                  WrittenIn(Next(s, event), events[1..], key), now);
    }
  }

  /** The event that wrote the key. */
  lemma {:induction false} WrittenAt(s: State, events: seq<Event>, key: Bytes) returns (k: nat)
    requires WrittenIn(s, events, key)
    ensures k < |events| && key in EventWrites(Run(s, events[..k]), events[k])
    decreases |events|
  {
    hide Next, EventWrites;
    if key in EventWrites(s, events[0]) {
      k := 0;
      assert events[..0] == [];
    } else {
      var rest := events[1..];
      k := WrittenAt(Next(s, events[0]), rest, key);
      assert events[..k + 1][0] == events[0] && events[..k + 1][1..] == rest[..k];
      k := k + 1;
    }
  }

  /* ---------- The check of the watched keys ---------- */

  /** The key still has its recorded revision, and an entry that has not expired, or none. */
  predicate Intact(db: Db, key: Bytes, revision: nat, now: nat) {
    Revision(db, key) == revision && Lasting(db, key, now)
  }

  /** Recorded revisions have been given out. */
  predicate GivenOut(watched: map<Bytes, nat>, db: Db) {
    forall key :: key in watched ==> watched[key] < db.nextRevision
  }

  lemma SettleIntact(db: Db, key: Bytes, revision: nat, now: nat)
    requires revision < db.nextRevision
    ensures Revision(Settle(db, key, now), key) == revision <==> Intact(db, key, revision, now)
    ensures Intact(db, key, revision, now) ==> Settle(db, key, now) == db
  {
  }

  /** The check fails exactly when a visited key is not intact. */
  lemma {:induction false} CheckExact(db: Db, watched: map<Bytes, nat>, order: seq<Bytes>, now: nat)
    requires GivenOut(watched, db)
    ensures CheckWatched(db, watched, order, now).changed
       <==> exists key :: key in order && key in watched && !Intact(db, key, watched[key], now)
    decreases |order|
  {
    hide Settle, Revision, Intact;
    if order != [] {
      if order[0] in watched {
        SettleIntact(db, order[0], watched[order[0]], now);
      }
      CheckExact(db, watched, order[1..], now);
      assert forall key :: key in order <==> key == order[0] || key in order[1..];
    }
  }

  lemma IntactTraced(a: Db, b: Db, key: Bytes, written: bool, revision: nat, now: nat)
    requires Traced(a, b, key, written, now) && revision < a.nextRevision
    ensures Intact(b, key, revision, now) <==> Intact(a, key, revision, now) && !written
  {
  }

  /** A key is intact at the end of a run exactly when it was at its beginning and the run does not write it. */
  lemma IntactAcross(s: State, events: seq<Event>, key: Bytes, revision: nat, now: nat)
    requires AllReadBy(events, now) && revision < s.db.nextRevision
    ensures Intact(Run(s, events).db, key, revision, now) <==> Intact(s.db, key, revision, now) && !WrittenIn(s, events, key)
  {
    hide AllReadBy, Run, WrittenIn, Traced, Intact;
    RunTraced(s, events, key, now);
    IntactTraced(s.db, Run(s, events).db, key, WrittenIn(s, events, key), revision, now);
  }

  /* ---------- A client that leaves its watches as they are ---------- */

  predicate SameWatches(s: State, t: State, client: ClientId) {
    WatchedBy(t, client) == WatchedBy(s, client)
  }

  lemma CommandSameWatches(s: State, actor: ClientId, command: Command, source: Source, env: Env, client: ClientId)
    requires actor != client || (!EndsWatch(VerbOf(command)) && !VerbOf(command).Watch?)
    ensures SameWatches(s, ProcessCommand(s, actor, command, source, env).state, client)
  {
    hide VerbOf, ProcessCommand, WatchKeys;
    if VerbOf(command).Watch? {
      WatchCommand(s, actor, command, source, env);
    } else if EndsWatch(VerbOf(command)) {
      EndingWatched(s, actor, command, source, env);
    } else {
      CommandWatched(s, actor, command, source, env);
    }
  }

  lemma DirectSameWatches(s: State, task: Task, env: Env, client: ClientId)
    requires task.client != client || (!EndsWatch(VerbOf(task.command)) && !VerbOf(task.command).Watch?)
    ensures SameWatches(s, ProcessDirect(s, task, env), client)
  {
    hide VerbOf, ProcessCommand, Record, Conclude, IsWrite, Modified, Normalize, SerializeCommand;
    var processed := ProcessCommand(s, task.client, task.command, task.source, env);
    CommandSameWatches(s, task.client, task.command, task.source, env, client);
    var payload := SerializeCommand(Normalize(task.command, processed.response));
    var recorded := Record(processed.state, task.client, task.source, payload, env);
    RecordWatched(processed.state, task.client, task.source, payload, env);
    var succeeded := !processed.response.SimpleError?;
    ConcludeWatched(recorded.state, task, succeeded, if recorded.ok then processed.response else MISCONF, env);
    ConcludeWatched(processed.state, task, succeeded, processed.response, env);
  }

  lemma TaskSameWatches(s: State, task: Task, env: Env, client: ClientId)
    requires task.client != client || (!EndsWatch(VerbOf(task.command)) && !VerbOf(task.command).Watch?)
    ensures SameWatches(s, ProcessTask(s, task, env), client)
  {
    hide VerbOf, IsWrite, Refuse, RefuseWrite, ProcessDirect, ProcessBlpop, ProcessXread, ProcessWait;
    DirectSameWatches(s, task, env, client);
    BlockingWatched(s, task, env);
    RefusedWatched(s, task, NOAUTH, env);
    RefusedWatched(s, task, ERR, env);
  }

  /** An event in which the client neither ends its watches nor adds one. */
  predicate KeepsWatch(event: Event, client: ClientId) {
    && LeavesWatch(event, client)
    && (event.Work? && event.t.CommandTask? && event.t.task.client == client ==> !VerbOf(event.t.task.command).Watch?)
  }

  lemma ProcessSameWatches(s: State, t: ProcessorTask, env: Env, client: ClientId)
    requires KeepsWatch(Work(t, env), client)
    ensures SameWatches(s, Process(s, t, env), client)
  {
    hide VerbOf, ProcessTask, LoadEntries, ProcessAof, ProcessUnregister;
    match t {
      case CommandTask(task) => TaskSameWatches(s, task, env, client);
      case UnregisterClient(other) => UnregisterSameWatches(s, other, client);
      case RegisterReplica(_) =>
      case InstallReplicationState(_) =>
      case GetReplicationOffset =>
      case AcknowledgeReplica(_, _) =>
      case LoadRdb(_, _) =>
      case RegisterClient(_) =>
    }
  }

  lemma UnregisterSameWatches(s: State, other: ClientId, client: ClientId)
    requires other != client
    ensures SameWatches(s, ProcessUnregister(s, other), client)
  {
    hide CancelPops, CancelReads, CancelWaits, Forget;
    var a := CancelPops(s, s.pendingPops, [], other);
    var b := CancelReads(a, s.pendingReads, [], other);
    CancelPopsWatched(s, s.pendingPops, [], other);
    CancelReadsWatched(a, s.pendingReads, [], other);
    CancelWaitsWatched(b, s.pendingWaits, [], other);
  }

  lemma NextSameWatches(s: State, event: Event, client: ClientId)
    requires KeepsWatch(event, client)
    ensures SameWatches(s, Next(s, event), client)
  {
    hide Process, RetryAll, ExpireAll, StepSessions, VerbOf;
    match event {
      case Work(t, env) =>
        ProcessSameWatches(s, t, env, client);
        TurnEndWatched(Process(s, t, env), env);
      case Tick(now) => ExpireAllWatched(s, now);
      case Connection(_, _) =>
    }
  }

  /** WATCH is refused, or fails its own checks: the watches stay. */
  lemma RefusedWatch(s: State, task: Task, env: Env)
    requires VerbOf(task.command).Watch? && !WatchTask(s, task)
    ensures ProcessTask(s, task, env).watched == s.watched
  {
    hide VerbNamed, Refuse, RefuseWrite, ProcessBlpop, ProcessXread, ProcessWait, ProcessCommand, WatchKeys, Record,
         Conclude, SerializeCommand, Normalize, Modified;
    RefusedWatched(s, task, NOAUTH, env);
    RefusedWatched(s, task, ERR, env);
    WatchCommand(s, task.client, task.command, task.source, env);
    var processed := ProcessCommand(s, task.client, task.command, task.source, env);
    ConcludeWatched(processed.state, task, !processed.response.SimpleError?, processed.response, env);
  }

  /** The event is the WATCH with which the client begins to watch the key. */
  predicate BeginsWatch(s: State, event: Event, client: ClientId, key: Bytes) {
    && event.Work? && event.t.CommandTask? && event.t.task.client == client && WatchTask(s, event.t.task)
    && key in event.t.task.command[1..] && key !in WatchedBy(s, client)
  }

  /** Nothing else makes a client watch a key. */
  lemma WatchBegun(s: State, event: Event, client: ClientId, key: Bytes)
    requires LeavesWatch(event, client) && key !in WatchedBy(s, client) && key in WatchedBy(Next(s, event), client)
    ensures BeginsWatch(s, event, client, key)
  {
    if KeepsWatch(event, client) {
      NextSameWatches(s, event, client);
      assert false;
    }
    hide VerbNamed, Next, ProcessTask, WatchKeys;
    var task := event.t.task;
    if WatchTask(s, task) {
      WatchTaskArguments(s, task);
      WatchTaskWatches(s, task, event.env);
      WorkIsStep(s, event);
      WatchedKeys(s.db, WatchedBy(s, client), task.command[1..], event.env.now);
    } else {
      RefusedWatch(s, task, event.env);
      TurnEndWatched(Process(s, event.t, event.env), event.env);
      WorkIsStep(s, event);
      assert false;
    }
  }

  lemma WorkIsStep(s: State, event: Event)
    requires event.Work?
    ensures Next(s, event) == Step(s, event.t, event.env)
    ensures event.t.CommandTask? ==> Process(s, event.t, event.env) == ProcessTask(s, event.t.task, event.env)
  {
    hide Step, ProcessTask;
  }

  /* ---------- From the turn of WATCH on ---------- */

  lemma {:induction false} WatchedKeys(db: Db, watched: map<Bytes, nat>, keys: seq<Bytes>, now: nat)
    ensures forall key :: key in WatchKeys(db, watched, keys, now).watched <==> key in watched || key in keys
    decreases |keys|
  {
    hide Settle, Revision;
    if keys != [] {
      if keys[0] in watched {
        WatchedKeys(db, watched, keys[1..], now);
      } else {
        var settled := Settle(db, keys[0], now);
        WatchedKeys(settled, watched[keys[0] := Revision(settled, keys[0])], keys[1..], now);
      }
      assert forall key :: key in keys <==> key == keys[0] || key in keys[1..];
    }
  }

  lemma {:induction false} WatchShrinks(db: Db, watched: map<Bytes, nat>, keys: seq<Bytes>, now: nat)
    ensures WatchKeys(db, watched, keys, now).db.entries.Keys <= db.entries.Keys
    decreases |keys|
  {
    hide Revision;
    if keys != [] {
      if keys[0] in watched {
        WatchShrinks(db, watched, keys[1..], now);
      } else {
        var settled := Settle(db, keys[0], now);
        WatchShrinks(settled, watched[keys[0] := Revision(settled, keys[0])], keys[1..], now);
      }
    }
  }

  lemma AbsentPop(db: Db, key: Bytes, now: nat)
    requires key !in db.entries
    ensures PopDb(db, key, now) == db && PopWrites(db, key, now) == []
  {
  }

  /** Pops that find nothing write nothing. */
  lemma {:induction false} QuietRetry(s: State, queue: seq<PendingPop>, env: Env)
    requires PopsQuiet(queue, s.db)
    ensures RetryWrites(s, queue, env) == []
    decreases |queue|
  {
    hide AttemptPop, PopDb, PopFinds, PopWrites;
    if queue != [] {
      AbsentPop(s.db, queue[0].key, env.now);
      AttemptShape(s, queue[0].task, queue[0].key, env);
      QuietRetry(AttemptPop(s, queue[0].task, queue[0].key, env).state, queue[1..], env);
    }
  }

  lemma WatchIsDirect(s: State, task: Task, env: Env)
    requires WatchTask(s, task)
    ensures ProcessTask(s, task, env) == ProcessDirect(s, task, env)
  {
    hide ProcessDirect, VerbOf;
  }

  /** WATCH in a quiet state leaves nothing to serve. */
  lemma WatchServesNothing(s: State, task: Task, env: Env)
    requires WatchTask(s, task) && PopsQuiet(s.pendingPops, s.db)
    ensures var processed := ProcessTask(s, task, env); RetryWrites(processed, processed.pendingPops, env) == []
  {
    hide WatchKeys, ProcessTask, ProcessDirect, RetryWrites, Fulfils;
    WatchTaskArguments(s, task);
    WatchIsDirect(s, task, env);
    DirectFulfils(s, task, env);
    FulfilsGrows(s, ProcessDirect(s, task, env), task.id);
    WatchTaskRuns(s, task, env);
    WatchShrinks(s.db, WatchedBy(s, task.client), task.command[1..], env.now);
    var processed := ProcessTask(s, task, env);
    assert forall i :: 0 <= i < |s.pendingPops| ==> s.pendingPops[i].key !in processed.db.entries;
    QuietRetry(processed, processed.pendingPops, env);
  }

  /** At the end of its turn every newly watched key has the recorded revision and the entry that was visible. */
  lemma WatchTurn(s: State, task: Task, env: Env, key: Bytes)
    requires WatchTask(s, task) && Quiet(s) && RevisionsBelow(s.db)
    requires key in task.command[1..] && key !in WatchedBy(s, task.client)
    ensures var t := Step(s, CommandTask(task), env);
            && key in WatchedBy(t, task.client)
            && Remembers(t.db, key, WatchedBy(t, task.client)[key], Visible(s.db, key, env.now))
            && WatchedBy(t, task.client)[key] < t.db.nextRevision
  {
    hide ProcessTask, RetryAll, ExpireAll, RetryWrites, Active, RevisionsBelow, Quiet, DoWatch;
    QuietPops(s);
    var watching := DoWatch(s, task.client, task.command, env).state;
    var processed := ProcessTask(s, task, env);
    var t := Step(s, CommandTask(task), env);
    WatchTaskArguments(s, task);
    WatchSees(s, task.client, task.command, env, key);
    WatchTaskRuns(s, task, env);
    WatchTaskWatches(s, task, env);
    hide WatchTask;
    assert WatchedBy(t, task.client) == WatchedBy(watching, task.client);
    VisibleLasts(s.db, key, env.now);
    WatchServesNothing(s, task, env);
    TurnTraced(processed, env, key, env.now);
    WatchEvolves(s, task.client, task.command, env);
    EvolvesBelow(s.db, watching.db);
    BelowAt(watching.db, key);
  }

  lemma QuietPops(s: State)
    requires Quiet(s)
    ensures PopsQuiet(s.pendingPops, s.db)
  {
  }

  lemma BelowAt(db: Db, key: Bytes)
    requires RevisionsBelow(db)
    ensures Revision(db, key) < db.nextRevision
  {
  }

  lemma VisibleLasts(db: Db, key: Bytes, now: nat)
    ensures Visible(db, key, now).Some? ==> !Expired(Visible(db, key, now).value, now)
  {
  }

  /** WATCH itself writes nothing; in a quiet state neither does the rest of its turn. */
  lemma WatchWritesNothing(s: State, task: Task, env: Env)
    requires WatchTask(s, task)
    ensures TaskWrites(s, task, env) == []
    ensures Quiet(s) ==> EventWrites(s, Work(CommandTask(task), env)) == []
  {
    assert TaskWrites(s, task, env) == [] by {
      hide VerbNamed, ExecWrites, DispatchWrites, PopWrites;
    }
    if Quiet(s) {
      hide WatchTask, TaskWrites, RetryWrites, ProcessTask, Quiet;
      QuietPops(s);
      WatchServesNothing(s, task, env);
    }
  }

  /* ---------- From the first WATCH of a key on ---------- */

  /** Since the client saw an entry, or none, under the key: an event wrote the key, or the entry has expired. */
  predicate Overtaken(s: State, events: seq<Event>, key: Bytes, seen: Option<Entry>, now: nat) {
    WrittenIn(s, events, key) || (seen.Some? && Expired(seen.value, now))
  }

  /** What WATCH recorded is intact at the end of a run exactly when the key has not been overtaken since. */
  lemma WatchedSince(s: State, task: Task, env: Env, rest: seq<Event>, key: Bytes, now: nat)
    requires BeginsWatch(s, Work(CommandTask(task), env), task.client, key) && RevisionsBelow(s.db)
    requires ReadBy(env, now) && AllReadBy(rest, now) && AllLeaveWatch(rest, task.client)
    ensures var t := Step(s, CommandTask(task), env);
            var later := Run(t, rest);
            var processed := ProcessTask(s, task, env);
            var watched := WatchedBy(later, task.client);
            var seen := Visible(s.db, key, env.now);
            && key in watched && watched[key] < later.db.nextRevision
            && (!Intact(later.db, key, watched[key], now) <==>
                  || key in RetryWrites(processed, processed.pendingPops, env) || WrittenIn(t, rest, key)
                  || (seen.Some? && Expired(seen.value, now)))
  {
    var watching := DoWatch(s, task.client, task.command, env).state;
    WatchTaskArguments(s, task);
    WatchSees(s, task.client, task.command, env, key);
    WatchTaskRuns(s, task, env);
    WatchTaskWatches(s, task, env);
    WatchEvolves(s, task.client, task.command, env);
    EvolvesBelow(s.db, watching.db);
    BelowAt(watching.db, key);
    hide WatchTask, DoWatch, ProcessTask, RetryWrites, WrittenIn, Visible, Traced, ReadBy, AllReadBy, AllLeaveWatch,
         RevisionsBelow, Run, Step, Evolves;
    var processed := ProcessTask(s, task, env);
    var t := Step(s, CommandTask(task), env);
    var later := Run(t, rest);
    TracedSince(s, task, env, rest, key, now);
    RunHolds(t, rest, task.client);
    IntactTraced(processed.db, later.db, key,
                 key in RetryWrites(processed, processed.pendingPops, env) || WrittenIn(t, rest, key),
                 WatchedBy(t, task.client)[key], now);
  }

  lemma TracedSince(s: State, task: Task, env: Env, rest: seq<Event>, key: Bytes, now: nat)
    requires ReadBy(env, now) && AllReadBy(rest, now)
    ensures var t := Step(s, CommandTask(task), env);
            var processed := ProcessTask(s, task, env);
            && processed.db.nextRevision <= Run(t, rest).db.nextRevision
            && Traced(processed.db, Run(t, rest).db, key,
                      key in RetryWrites(processed, processed.pendingPops, env) || WrittenIn(t, rest, key), now)
  {
    hide ProcessTask, RetryWrites, WrittenIn, AllReadBy, Run, RetryAll, ExpireAll;
    var processed := ProcessTask(s, task, env);
    var t := Step(s, CommandTask(task), env);
    TurnTraced(processed, env, key, now);
    RunTraced(t, rest, key, now);
    TracedTrans(processed.db, t.db, Run(t, rest).db, key, key in RetryWrites(processed, processed.pendingPops, env),
                WrittenIn(t, rest, key), now);
  }

  /** The i-th event is the WATCH with which the client begins to watch the key. */
  predicate FirstWatch(s: State, events: seq<Event>, client: ClientId, key: Bytes, i: int) {
    0 <= i < |events| && BeginsWatch(Run(s, events[..i]), events[i], client, key)
  }

  /** From its first WATCH on, that turn included, the key was written, or what the client saw has expired. */
  predicate OvertakenSince(s: State, events: seq<Event>, client: ClientId, key: Bytes, i: int, now: nat) {
    && FirstWatch(s, events, client, key, i)
    && Overtaken(Run(s, events[..i]), events[i..], key, Visible(Run(s, events[..i]).db, key, events[i].env.now), now)
  }

  lemma WrittenFrom(s: State, event: Event, rest: seq<Event>, events: seq<Event>, client: ClientId, key: Bytes)
    requires BeginsWatch(s, event, client, key) && events == [event] + rest
    ensures var processed := ProcessTask(s, event.t.task, event.env);
            WrittenIn(s, events, key) <==>
              key in RetryWrites(processed, processed.pendingPops, event.env) || WrittenIn(Next(s, event), rest, key)
  {
    hide WatchTask, TaskWrites, RetryWrites, ProcessTask, Next;
    WatchWritesNothing(s, event.t.task, event.env);
    assert events[1..] == rest;
  }

  lemma RunBelow(s: State, events: seq<Event>)
    requires RevisionsBelow(s.db)
    ensures RevisionsBelow(Run(s, events).db)
  {
    hide RevisionsBelow, Run, Evolves;
    RunEvolves(s, events);
    EvolvesBelow(s.db, Run(s, events).db);
  }

  /** A key whose first WATCH lies in the run is watched at its end, and not intact exactly when it was overtaken. */
  lemma KeyOvertaken(s: State, events: seq<Event>, client: ClientId, key: Bytes, i: nat, now: nat)
    requires FirstWatch(s, events, client, key, i) && RevisionsBelow(s.db)
    requires AllReadBy(events, now) && AllLeaveWatch(events, client)
    ensures var later := Run(s, events);
            var watched := WatchedBy(later, client);
            && key in watched && watched[key] < later.db.nextRevision
            && (!Intact(later.db, key, watched[key], now) <==> OvertakenSince(s, events, client, key, i, now))
  {
    hide Run, Next, Step, WatchTask, RevisionsBelow, AllReadBy, AllLeaveWatch, WrittenIn, RetryWrites, ProcessTask,
         Intact, Visible, WatchedBy;
    var u := Run(s, events[..i]);
    var event, rest := events[i], events[i + 1..];
    assert events[i..] == [event] + rest;
    LaterEvents(events, client, i, now);
    RunParts(s, events, i);
    RunBelow(s, events[..i]);
    WrittenFrom(u, event, rest, events[i..], client, key);
    WorkIsStep(u, event);
    WatchedSince(u, event.t.task, event.env, rest, key, now);
  }

  lemma LaterEvents(events: seq<Event>, client: ClientId, i: nat, now: nat)
    requires i < |events| && AllReadBy(events, now) && AllLeaveWatch(events, client)
    ensures EventReadBy(events[i], now) && LeavesWatch(events[i], client)
    ensures AllReadBy(events[i + 1..], now) && AllLeaveWatch(events[i + 1..], client)
  {
    hide EventReadBy, LeavesWatch;
  }

  /** Every key that is watched at the end was watched at the beginning or has its first WATCH in the run. */
  lemma {:induction false} FindFirstWatch(s: State, events: seq<Event>, client: ClientId, key: Bytes) returns (i: nat)
    requires AllLeaveWatch(events, client)
    requires key in WatchedBy(Run(s, events), client) && key !in WatchedBy(s, client)
    ensures FirstWatch(s, events, client, key, i)
    decreases |events|
  {
    hide Next, LeavesWatch, WatchTask, BeginsWatch;
    var event, rest := events[0], events[1..];
    assert LeavesWatch(event, client);
    if key in WatchedBy(Next(s, event), client) {
      i := 0;
      assert events[..0] == [];
      WatchBegun(s, event, client, key);
    } else {
      i := FindFirstWatch(Next(s, event), rest, client, key);
      RunShifted(s, events, i);
      i := i + 1;
    }
  }

  /* ---------- EXEC ---------- */

  /** A key watched before the run: its revision was out of date already, its entry has expired, or an event wrote it. */
  ghost predicate Disturbed(s: State, events: seq<Event>, client: ClientId, key: Bytes, now: nat) {
    && key in WatchedBy(s, client)
    && (Revision(s.db, key) != WatchedBy(s, client)[key] || !Lasting(s.db, key, now) || WrittenIn(s, events, key))
  }

  /** The same for a key watched before the run. */
  lemma KeyDisturbed(s: State, events: seq<Event>, client: ClientId, key: Bytes, now: nat)
    requires key in WatchedBy(s, client) && WatchedBy(s, client)[key] < s.db.nextRevision
    requires AllReadBy(events, now) && AllLeaveWatch(events, client)
    ensures var later := Run(s, events);
            var watched := WatchedBy(later, client);
            && key in watched && watched[key] < later.db.nextRevision
            && (!Intact(later.db, key, watched[key], now) <==> Disturbed(s, events, client, key, now))
  {
    hide Run, AllReadBy, AllLeaveWatch, WrittenIn, WatchedBy, Evolves;
    RunHolds(s, events, client);
    RunEvolves(s, events);
    EvolvesForward(s.db, Run(s, events).db);
    IntactAcross(s, events, key, WatchedBy(s, client)[key], now);
  }

  lemma EvolvesForward(before: Db, after: Db)
    requires Evolves(before, after)
    ensures before.nextRevision <= after.nextRevision
  {
  }

  lemma Visited(order: seq<Bytes>, watched: map<Bytes, nat>, key: Bytes)
    requires Covers(order, watched) && key in watched
    ensures key in order
  {
  }

  /** A key that is watched when EXEC is called, and whether it makes EXEC refuse. */
  lemma KeyCause(s: State, events: seq<Event>, client: ClientId, key: Bytes, now: nat)
    requires RevisionsBelow(s.db) && GivenOut(WatchedBy(s, client), s.db)
    requires AllReadBy(events, now) && AllLeaveWatch(events, client)
    requires key in WatchedBy(Run(s, events), client)
    ensures var later := Run(s, events);
            var watched := WatchedBy(later, client);
            && watched[key] < later.db.nextRevision
            && (!Intact(later.db, key, watched[key], now) ==>
                  Disturbed(s, events, client, key, now) || exists i :: OvertakenSince(s, events, client, key, i, now))
  {
    hide Run, AllReadBy, AllLeaveWatch, WatchedBy, RevisionsBelow, Intact, Disturbed, OvertakenSince, FirstWatch;
    if key in WatchedBy(s, client) {
      KeyDisturbed(s, events, client, key, now);
    } else {
      var i := FindFirstWatch(s, events, client, key);
      KeyOvertaken(s, events, client, key, i, now);
    }
  }

  /**
   Over every run in which the client does not end its watches, with any number of further WATCHes: EXEC
   answers with the null array exactly when a key watched before was disturbed, or a key was overtaken since
   its first WATCH. Reads, failed writes, writes to other keys and other clients' WATCH never abort a transaction.
   */
  lemma AbortExactly(s: State, events: seq<Event>, client: ClientId, source: Source, env: Env)
    requires RevisionsBelow(s.db) && GivenOut(WatchedBy(s, client), s.db)
    requires AllLeaveWatch(events, client) && AllReadBy(events, env.now)
    requires var later := Run(s, events);
             && client in later.transactions && !later.transactions[client].hasError
             && Covers(env.watchOrder, WatchedBy(later, client))
    ensures ExecuteTransaction(Run(s, events), client, source, env).response == NullArray
       <==> || (exists key :: Disturbed(s, events, client, key, env.now))
            || (exists key, i :: OvertakenSince(s, events, client, key, i, env.now))
  {
    hide Run, AllLeaveWatch, AllReadBy, ExecuteTransaction, CheckWatched, Covers, WatchedBy, RevisionsBelow, Intact,
         Disturbed, OvertakenSince, FirstWatch;
    var later := Run(s, events);
    var watched := WatchedBy(later, client);
    forall key | key in watched
      ensures key in env.watchOrder && watched[key] < later.db.nextRevision
      ensures !Intact(later.db, key, watched[key], env.now) ==>
                Disturbed(s, events, client, key, env.now) || exists i :: OvertakenSince(s, events, client, key, i, env.now)
    {
      Visited(env.watchOrder, watched, key);
      KeyCause(s, events, client, key, env.now);
    }
    forall key | Disturbed(s, events, client, key, env.now)
      ensures key in watched && !Intact(later.db, key, watched[key], env.now)
    {
      DisturbedWatched(s, events, client, key, env.now);
      KeyDisturbed(s, events, client, key, env.now);
    }
    forall key, i | OvertakenSince(s, events, client, key, i, env.now)
      ensures key in watched && !Intact(later.db, key, watched[key], env.now)
    {
      OvertakenFirst(s, events, client, key, i, env.now);
      KeyOvertaken(s, events, client, key, i, env.now);
    }
    AbortMeansChanged(later, client, source, env);
    CheckExact(later.db, watched, env.watchOrder, env.now);
  }

  lemma DisturbedWatched(s: State, events: seq<Event>, client: ClientId, key: Bytes, now: nat)
    requires Disturbed(s, events, client, key, now)
    ensures key in WatchedBy(s, client)
  {
  }

  lemma OvertakenFirst(s: State, events: seq<Event>, client: ClientId, key: Bytes, i: int, now: nat)
    requires OvertakenSince(s, events, client, key, i, now)
    ensures 0 <= i && FirstWatch(s, events, client, key, i)
  {
  }

  /**
   WATCH ... EXEC from a state in which the client watches nothing, with any number of WATCHes: EXEC answers
   with the null array exactly when some key was overtaken since the client first watched it. `AbortHasCause`
   names the key and the event.
   */
  lemma ExecAbortsExactly(s: State, events: seq<Event>, client: ClientId, source: Source, env: Env)
    requires RevisionsBelow(s.db) && WatchedBy(s, client) == map[]
    requires AllLeaveWatch(events, client) && AllReadBy(events, env.now)
    requires var later := Run(s, events);
             && client in later.transactions && !later.transactions[client].hasError
             && Covers(env.watchOrder, WatchedBy(later, client))
    ensures ExecuteTransaction(Run(s, events), client, source, env).response == NullArray
       <==> exists key, i :: OvertakenSince(s, events, client, key, i, env.now)
  {
    hide Run, AllLeaveWatch, AllReadBy, ExecuteTransaction, Covers, WatchedBy, RevisionsBelow, Disturbed, OvertakenSince;
    AbortExactly(s, events, client, source, env);
    forall key ensures !Disturbed(s, events, client, key, env.now) {
      if Disturbed(s, events, client, key, env.now) {
        DisturbedWatched(s, events, client, key, env.now);
        assert false;
      }
    }
  }

  /**
   An abort has a cause: a key that the client first watched in the i-th event, and that the k-th event, not
   before the i-th, wrote, or under which what the client saw has expired.
   */
  lemma AbortHasCause(s: State, events: seq<Event>, client: ClientId, source: Source, env: Env)
    returns (key: Bytes, i: nat, k: nat)
    requires RevisionsBelow(s.db) && WatchedBy(s, client) == map[]
    requires AllLeaveWatch(events, client) && AllReadBy(events, env.now)
    requires var later := Run(s, events);
             && client in later.transactions && !later.transactions[client].hasError
             && Covers(env.watchOrder, WatchedBy(later, client))
             && ExecuteTransaction(later, client, source, env).response == NullArray
    ensures FirstWatch(s, events, client, key, i)
    ensures var seen := Visible(Run(s, events[..i]).db, key, events[i].env.now);
            || (i <= k < |events| && key in EventWrites(Run(s, events[..k]), events[k]))
            || (seen.Some? && Expired(seen.value, env.now))
  {
    hide Run, AllLeaveWatch, AllReadBy, ExecuteTransaction, Covers, WatchedBy, RevisionsBelow, WrittenIn,
         EventWrites, Visible, BeginsWatch;
    ExecAbortsExactly(s, events, client, source, env);
    var first: int;
    key, first :| OvertakenSince(s, events, client, key, first, env.now);
    i, k := first, first;
    if WrittenIn(Run(s, events[..i]), events[i..], key) {
      var n := WrittenAt(Run(s, events[..i]), events[i..], key);
      k := i + n;
      assert events[..k] == events[..i] + events[i..][..n];
      RunAppend(s, events[..i], events[i..][..n]);
    }
  }
}
