/** WATCH and EXEC: optimistic locking by revision numbers. */
module Watch {
  import opened Wrappers
  import opened Decimal
  import opened Resp
  import opened Aof
  import opened Responses
  import opened Keyspace
  import opened Commands
  import opened Channels
  import opened ReplicationStream
  import opened Processor
  import opened Invariants

  /* ---------- WATCH ---------- */

  /** Keys watched before keep their first revision. */
  lemma {:induction false} WatchKeepsFirst(db: Db, watched: map<Bytes, nat>, keys: seq<Bytes>, now: nat, key: Bytes)
    requires key in watched
    ensures var w := WatchKeys(db, watched, keys, now);
            key in w.watched && w.watched[key] == watched[key]
    decreases |keys|
  {
    hide Settle, Revision;
    if keys != [] {
      if keys[0] in watched {
        WatchKeepsFirst(db, watched, keys[1..], now, key);
      } else {
        var settled := Settle(db, keys[0], now);
        WatchKeepsFirst(settled, watched[keys[0] := Revision(settled, keys[0])], keys[1..], now, key);
      }
    }
  }

  /** Settling changes nothing under another key. */
  lemma SettleElsewhere(db: Db, other: Bytes, now: nat, key: Bytes)
    requires key != other
    ensures Look(Settle(db, other, now), key) == Look(db, key)
    ensures Revision(Settle(db, other, now), key) == Revision(db, key)
    ensures Visible(Settle(db, other, now), key, now) == Visible(db, key, now)
  {
    SettleActive(db, other, now);
  }

  /** Settling a key a second time changes nothing. */
  lemma SettleTwice(db: Db, key: Bytes, now: nat)
    ensures Settle(Settle(db, key, now), key, now) == Settle(db, key, now)
  {
  }

  /** A key and its revision as WATCH left them: the entry is the visible one. */
  ghost predicate Remembers(db: Db, key: Bytes, revision: nat, seen: Option<Entry>) {
    Revision(db, key) == revision && Look(db, key) == seen
  }

  lemma {:induction false} WatchRecords(db: Db, watched: map<Bytes, nat>, keys: seq<Bytes>, now: nat, key: Bytes)
    requires key in keys && key !in watched
    ensures var w := WatchKeys(db, watched, keys, now);
            key in w.watched && Remembers(w.db, key, w.watched[key], Visible(db, key, now))
    decreases |keys|
  {
    hide Settle, Revision, Look, Visible;
    if keys[0] in watched {
      assert key in keys[1..];
      WatchRecords(db, watched, keys[1..], now, key);
    } else {
      var settled := Settle(db, keys[0], now);
      var longer := watched[keys[0] := Revision(settled, keys[0])];
      if keys[0] == key {
        SettledIsVisible(db, key, now);
        WatchKeepsFirst(settled, longer, keys[1..], now, key);
        WatchStays(settled, longer, keys[1..], now, key);
      } else {
        assert key in keys[1..];
        SettleElsewhere(db, keys[0], now, key);
        WatchRecords(settled, longer, keys[1..], now, key);
      }
    }
  }

  /** Watching more keys does not touch a key that is watched already. */
  lemma {:induction false} WatchStays(db: Db, watched: map<Bytes, nat>, keys: seq<Bytes>, now: nat, key: Bytes)
    requires key in watched
    ensures var w := WatchKeys(db, watched, keys, now);
            Revision(w.db, key) == Revision(db, key) && Look(w.db, key) == Look(db, key)
    decreases |keys|
  {
    hide Settle, Revision, Look;
    if keys != [] {
      if keys[0] in watched {
        WatchStays(db, watched, keys[1..], now, key);
      } else {
        var settled := Settle(db, keys[0], now);
        SettleElsewhere(db, keys[0], now, key);
        WatchStays(settled, watched[keys[0] := Revision(settled, keys[0])], keys[1..], now, key);
      }
    }
  }

  /** WATCH records, for every key it adds, the revision that belongs to what the client sees at that time. */
  lemma WatchSees(s: State, client: ClientId, command: Command, env: Env, key: Bytes)
    requires |command| >= 2 && client !in s.transactions
    requires key in command[1..] && key !in WatchedBy(s, client)
    ensures var t := DoWatch(s, client, command, env).state;
            && key in WatchedBy(t, client)
            && Remembers(t.db, key, WatchedBy(t, client)[key], Visible(s.db, key, env.now))
  {
    hide Remembers, Visible, WatchKeys;
    WatchRecords(s.db, WatchedBy(s, client), command[1..], env.now, key);
  }

  /* ---------- EXEC ---------- */

  /** The visited keys include all watched ones, as an iteration over the hash table does. */
  predicate Covers(order: seq<Bytes>, watched: map<Bytes, nat>) {
    forall key :: key in watched ==> key in order
  }

  /** A settled key is not touched by the rest of the check. */
  lemma {:induction false} CheckStays(db: Db, watched: map<Bytes, nat>, order: seq<Bytes>, now: nat, key: Bytes)
    requires Settle(db, key, now) == db
    ensures var checked := CheckWatched(db, watched, order, now).db;
            Revision(checked, key) == Revision(db, key) && Look(checked, key) == Look(db, key)
    decreases |order|
  {
    hide Settle, Revision, Look;
    if order != [] {
      if order[0] !in watched {
        CheckStays(db, watched, order[1..], now, key);
      } else {
        var settled := Settle(db, order[0], now);
        if order[0] != key {
          SettleElsewhere(db, order[0], now, key);
          StillSettled(db, order[0], now, key);
        }
        CheckStays(settled, watched, order[1..], now, key);
      }
    }
  }

  lemma StillSettled(db: Db, other: Bytes, now: nat, key: Bytes)
    requires key != other && Settle(db, key, now) == db
    ensures Settle(Settle(db, other, now), key, now) == Settle(db, other, now)
  {
    assert Apply(db, key, Remove).nextRevision == db.nextRevision + 1;
  }

  /** When the check passes, every watched key still has its revision, next to what is visible now. */
  lemma {:induction false} CheckPasses(db: Db, watched: map<Bytes, nat>, order: seq<Bytes>, now: nat, key: Bytes)
    requires !CheckWatched(db, watched, order, now).changed
    requires key in order && key in watched
    ensures Remembers(CheckWatched(db, watched, order, now).db, key, watched[key], Visible(db, key, now))
    decreases |order|
  {
    hide Settle, Revision, Visible, Look;
    if order[0] !in watched {
      assert key in order[1..];
      CheckPasses(db, watched, order[1..], now, key);
    } else {
      var settled := Settle(db, order[0], now);
      if order[0] == key {
        SettledIsVisible(db, key, now);
        SettleTwice(db, key, now);
        CheckStays(settled, watched, order[1..], now, key);
      } else {
        assert key in order[1..];
        SettleElsewhere(db, order[0], now, key);
        CheckPasses(settled, watched, order[1..], now, key);
      }
    }
  }

  /* ---------- Whole runs ---------- */

  /** Every key's revision is below the next one. */
  ghost predicate RevisionsBelow(db: Db) {
    forall key {:trigger Revision(db, key)} :: Revision(db, key) < db.nextRevision
  }

  lemma EvolvesBelow(before: Db, after: Db)
    requires RevisionsBelow(before) && Evolves(before, after)
    ensures RevisionsBelow(after)
  {
    hide Look;
    forall key ensures Revision(after, key) < after.nextRevision {
      assert Revision(before, key) < before.nextRevision;
    }
  }

  /** In every run, by whatever client and task, a key that changed has a fresh revision. */
  lemma NextEvolves(s: State, event: Event)
    ensures Evolves(s.db, Next(s, event).db)
  {
    hide Evolves, DbOk, Accounted, Mirror, Extends, Process, RetryAll, ExpireAll, StepSessions;
    match event {
      case Work(t, env) => StepEvolves(s, t, env);
      case Tick(now) => ExpireAllKeeps(s, now, NO_TERMS);
      case Connection(_, _) => EvolvesRefl(s.db);
    }
  }

  lemma StepEvolves(s: State, t: ProcessorTask, env: Env)
    ensures Evolves(s.db, Step(s, t, env).db)
    ensures Evolves(Process(s, t, env).db, Step(s, t, env).db)
  {
    hide Evolves, DbOk, Accounted, Mirror, Extends, Process, RetryAll, ExpireAll;
    var processed := Process(s, t, env);
    SettleStep(processed, env, NO_TERMS);
    if t.RegisterClient? {
      RegisterClientKeeps(s, t.client, env);
    } else {
      ProcessKeeps(s, t, env, NO_TERMS);
      EvolvesTrans(s.db, processed.db, Step(s, t, env).db);
    }
  }

  lemma {:induction false} RunEvolves(s: State, events: seq<Event>)
    ensures Evolves(s.db, Run(s, events).db)
    decreases |events|
  {
    hide Evolves, Next;
    if events == [] {
      EvolvesRefl(s.db);
    } else {
      NextEvolves(s, events[0]);
      RunEvolves(Next(s, events[0]), events[1..]);
      EvolvesTrans(s.db, Next(s, events[0]).db, Run(s, events).db);
    }
  }

  /** A revision seen earlier and seen again means the entry is the same. */
  lemma SameRevisionSameEntry(before: Db, after: Db, key: Bytes, revision: nat, seen: Option<Entry>, now: Option<Entry>)
    requires RevisionsBelow(before) && Evolves(before, after)
    requires Remembers(before, key, revision, seen) && Remembers(after, key, revision, now)
    ensures seen == now
  {
    assert Revision(before, key) < before.nextRevision;
  }

  /** The WATCH command of an admitted client, outside a transaction. */
  predicate WatchTask(s: State, task: Task) {
    && VerbOf(task.command).Watch? && |task.command| >= 2 && task.client !in s.transactions
    && (task.source.FromClient? ==> Authenticated(s, task.client) && task.client !in s.hub.subscriptions)
  }

  lemma WatchTaskRuns(s: State, task: Task, env: Env)
    requires WatchTask(s, task)
    ensures ProcessTask(s, task, env).db == DoWatch(s, task.client, task.command, env).state.db
  {
    hide VerbOf, DoWatch, WatchKeys, ExecuteTransaction, DoSubscribe, DoUnsubscribe, DoPublish, Dispatch, Record,
         SerializeCommand, Normalize, TouchSession;
    var processed := ProcessCommand(s, task.client, task.command, task.source, env);
    assert processed == DoWatch(s, task.client, task.command, env);
    hide ProcessImmediate, ProcessCommand, QueueOrRun;
    var succeeded := !processed.response.SimpleError?;
    ConcludeDb(processed.state, task, succeeded, processed.response, env);
  }

  lemma ConcludeDb(s: State, task: Task, succeeded: bool, response: Response, env: Env)
    ensures Conclude(s, task, succeeded, response, env).db == s.db
  {
  }

  /** EXEC answers with the null array exactly when the check of the watched keys failed. */
  lemma AbortMeansChanged(s: State, client: ClientId, source: Source, env: Env)
    requires client in s.transactions && !s.transactions[client].hasError
    ensures ExecuteTransaction(s, client, source, env).response == NullArray
       <==> CheckWatched(s.db, WatchedBy(s, client), env.watchOrder, env.now).changed
  {
    hide RunQueue, Record, CheckWatched, SerializeAll;
  }

  /**
   WATCH and EXEC: take any run in which a client watches a key and later calls EXEC while still
   watching it. If EXEC is not aborted, the client sees under that key exactly the entry it saw when
   it first watched it, whatever other clients, blocked pops and expiry did in between.
   */
  lemma WatchedKeyUnchanged(s: State, task: Task, env: Env, events: seq<Event>, execEnv: Env, key: Bytes)
    requires RevisionsBelow(s.db) && WatchTask(s, task)
    requires key in task.command[1..] && key !in WatchedBy(s, task.client)
    requires var watching := DoWatch(s, task.client, task.command, env).state;
             var later := Run(Step(s, CommandTask(task), env), events);
             && key in WatchedBy(later, task.client)
             && key in WatchedBy(watching, task.client)
             && WatchedBy(later, task.client)[key] == WatchedBy(watching, task.client)[key]
             && Covers(execEnv.watchOrder, WatchedBy(later, task.client))
             && !CheckWatched(later.db, WatchedBy(later, task.client), execEnv.watchOrder, execEnv.now).changed
    ensures var later := Run(Step(s, CommandTask(task), env), events);
            Visible(later.db, key, execEnv.now) == Visible(s.db, key, env.now)
  {
    hide Evolves, RevisionsBelow, Remembers, Visible, Step, Run, DoWatch, CheckWatched, WatchedBy, WatchTask,
         ProcessTask;
    var client := task.client;
    var watching := DoWatch(s, client, task.command, env).state;
    var stepped := Step(s, CommandTask(task), env);
    var later := Run(stepped, events);
    var checked := CheckWatched(later.db, WatchedBy(later, client), execEnv.watchOrder, execEnv.now).db;
    var revision := WatchedBy(watching, client)[key];
    WatchTaskArguments(s, task);
    WatchSees(s, client, task.command, env, key);
    WatchTaskRuns(s, task, env);
    assert Process(s, CommandTask(task), env).db == watching.db;
    StepEvolves(s, CommandTask(task), env);
    RunEvolves(stepped, events);
    EvolvesTrans(watching.db, stepped.db, later.db);
    CheckWatchedKeeps(later.db, WatchedBy(later, client), execEnv.watchOrder, execEnv.now);
    EvolvesTrans(watching.db, later.db, checked);
    CheckPasses(later.db, WatchedBy(later, client), execEnv.watchOrder, execEnv.now, key);
    WatchEvolves(s, client, task.command, env);
    EvolvesBelow(s.db, watching.db);
    SameRevisionSameEntry(watching.db, checked, key, revision, Visible(s.db, key, env.now),
                          Visible(later.db, key, execEnv.now));
  }

  lemma WatchTaskArguments(s: State, task: Task)
    requires WatchTask(s, task)
    ensures |task.command| >= 2 && task.client !in s.transactions
  {
  }

  lemma WatchEvolves(s: State, client: ClientId, command: Command, env: Env)
    ensures Evolves(s.db, DoWatch(s, client, command, env).state.db)
  {
    hide Evolves, DbOk, Accounted, Mirror, Extends, WatchKeys;
    WatchKeeps(s, client, command, env, NO_TERMS);
  }
}
