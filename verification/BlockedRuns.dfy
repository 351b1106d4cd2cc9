/** How blocked commands are answered over whole runs. */
module BlockedRuns {
  import opened Keyspace
  import opened Channels
  import opened ReplicationStream
  import opened Processor
  import opened Invariants
  import opened Ledger
  import opened Blocking
  import opened Growth
  import opened Arrival
  import opened ReadPositions
  import opened Outcomes
  import opened PopOutcomes
  import opened ReadOutcomes
  import opened WaitOutcomes

  /* ---------- One place in the queue ---------- */

  lemma PendsAlone(s: State, b: Blocked)
    requires Pends(s, b) && Account(s)[IdOf(b)] == 1
    ensures b.BlockedPop? ==> OnlyPop(s.pendingPops, b.pop)
    ensures b.BlockedRead? ==> OnlyRead(s.pendingReads, b.read)
    ensures b.BlockedWait? ==> OnlyWait(s.pendingWaits, b.wait)
  {
    hide Account;
    match b {
      case BlockedPop(pop) =>
        var j :| 0 <= j < |s.pendingPops| && s.pendingPops[j] == pop;
        WaitingPop(s, j);
      case BlockedRead(read, _, _, _) =>
        var j :| 0 <= j < |s.pendingReads| && s.pendingReads[j] == read;
        WaitingRead(s, j);
      case BlockedWait(wait) =>
        var j :| 0 <= j < |s.pendingWaits| && s.pendingWaits[j] == wait;
        WaitingWait(s, j);
    }
  }

  lemma TrackedAlone(s: State, from: nat, b: Blocked, o: Occasion)
    requires Tracked(s, from, b, o)
    ensures Account(s)[IdOf(b)] == 1
    ensures Pends(s, b) && b.BlockedPop? ==> b.pop in s.pendingPops && OnlyPop(s.pendingPops, b.pop)
    ensures Pends(s, b) && b.BlockedRead? ==> b.read in s.pendingReads && OnlyRead(s.pendingReads, b.read)
    ensures Pends(s, b) && b.BlockedWait? ==> b.wait in s.pendingWaits && OnlyWait(s.pendingWaits, b.wait)
  {
    hide Account, AllMeet, AnsweredFrom, OnlyPop, OnlyRead, OnlyWait, IdOf;
    if Pends(s, b) {
      PendsAlone(s, b);
    }
  }

  /* ---------- Timeouts ---------- */

  lemma ExpirePopsTracked(s: State, now: nat, from: nat, b: Blocked, o: Occasion)
    requires Tracked(s, from, b, o) && !o.event.Connection? && Clock(o.event) == now
    requires PopsQuiet(s.pendingPops, o.after.db)
    ensures Tracked(ExpirePops(s, s.pendingPops, [], now), from, b, o)
  {
    hide Account, ExpirePops, Tracked, Fate, PopAccount, OnlyPop, OnlyRead, OnlyWait, Clock;
    var t := ExpirePops(s, s.pendingPops, [], now);
    TrackedAlone(s, from, b, o);
    WholeQueues(s);
    ExpirePopsAccount(s, s.pendingPops, [], now);
    ExpirePopsGrows(s, s.pendingPops, [], now);
    if b.BlockedPop? {
      if Pends(s, b) {
        ExpirePopsFate(s, s.pendingPops, [], now, b, o);
      }
      FateTracked(s, t, from, b, o);
    } else {
      GrownTracked(s, t, from, b, o);
    }
  }

  lemma ExpireReadsTracked(s: State, now: nat, from: nat, b: Blocked, o: Occasion)
    requires Tracked(s, from, b, o) && !o.event.Connection? && Clock(o.event) == now
    requires Resolved(b) && DbOk(o.after.db) && ReadsQuiet(s.pendingReads, o.after.db)
    ensures Tracked(ExpireReads(s, s.pendingReads, [], now), from, b, o)
  {
    hide Account, ExpireReads, Tracked, Fate, ReadAccount, OnlyPop, OnlyRead, OnlyWait, Clock, Resolved, DbOk, AllIdle;
    var t := ExpireReads(s, s.pendingReads, [], now);
    TrackedAlone(s, from, b, o);
    WholeQueues(s);
    ExpireReadsAccount(s, s.pendingReads, [], now);
    ExpireReadsGrows(s, s.pendingReads, [], now);
    if b.BlockedRead? {
      if Pends(s, b) {
        IdleNothingDue(b, o.after.db);
        ExpireReadsFate(s, s.pendingReads, [], now, b, o);
      }
      FateTracked(s, t, from, b, o);
    } else {
      GrownTracked(s, t, from, b, o);
    }
  }

  lemma ExpireWaitsTracked(s: State, now: nat, from: nat, b: Blocked, o: Occasion)
    requires Tracked(s, from, b, o) && !o.event.Connection? && Clock(o.event) == now
    requires o.after == ExpireWaits(s, s.pendingWaits, [], now)
    ensures Tracked(o.after, from, b, o)
  {
    hide Account, ExpireWaits, Tracked, Fate, WaitsAccount, OnlyPop, OnlyRead, OnlyWait, Clock, Count;
    TrackedAlone(s, from, b, o);
    WholeQueues(s);
    ExpireWaitsAccount(s, s.pendingWaits, [], now);
    ExpireWaitsGrows(s, s.pendingWaits, [], now);
    if b.BlockedWait? {
      if Pends(s, b) {
        ExpireWaitsFate(s, s.pendingWaits, [], now, b, o);
      }
      FateTracked(s, o.after, from, b, o);
    } else {
      GrownTracked(s, o.after, from, b, o);
    }
  }

  /** In a quiet state the timeouts answer a blocked command only as it may be answered. */
  lemma ExpireAllTracked(s: State, now: nat, from: nat, b: Blocked, o: Occasion)
    requires Tracked(s, from, b, o) && Resolved(b) && DbOk(s.db) && Quiet(s)
    requires !o.event.Connection? && Clock(o.event) == now && o.after == ExpireAll(s, now)
    ensures Tracked(o.after, from, b, o)
  {
    hide Tracked, Resolved, DbOk, PopsQuiet, ReadsQuiet, WaitsQuiet, ExpirePops, ExpireReads, ExpireWaits, Clock;
    var a := ExpirePops(s, s.pendingPops, [], now);
    ExpirePopsCore(s, s.pendingPops, [], now);
    ExpirePopsGrows(s, s.pendingPops, [], now);
    var c := ExpireReads(a, a.pendingReads, [], now);
    ExpireReadsCore(a, a.pendingReads, [], now);
    ExpireWaitsSame(c, c.pendingWaits, [], now);
    ExpirePopsTracked(s, now, from, b, o);
    ExpireReadsTracked(a, now, from, b, o);
    ExpireWaitsTracked(c, now, from, b, o);
  }

  /* ---------- Retries ---------- */

  lemma RetryPopsTracked(s: State, env: Env, from: nat, b: Blocked, o: Occasion)
    requires Tracked(s, from, b, o) && o.event.Work? && o.event.env == env
    requires forall key :: Stays(RetryPops(s, s.pendingPops, [], env).db, o.after.db, key, env.now)
    ensures Tracked(RetryPops(s, s.pendingPops, [], env), from, b, o)
  {
    hide Account, RetryPops, Tracked, Fate, PopAccount, OnlyPop, OnlyRead, OnlyWait;
    var t := RetryPops(s, s.pendingPops, [], env);
    TrackedAlone(s, from, b, o);
    WholeQueues(s);
    RetryPopsAccount(s, s.pendingPops, [], env);
    RetryPopsGrows(s, s.pendingPops, [], env);
    if b.BlockedPop? {
      if Pends(s, b) {
        assert Stays(t.db, o.after.db, b.pop.key, env.now);
        RetryPopsFate(s, s.pendingPops, [], env, b, o);
      }
      FateTracked(s, t, from, b, o);
    } else {
      GrownTracked(s, t, from, b, o);
    }
  }

  lemma RetryReadsTracked(s: State, env: Env, from: nat, b: Blocked, o: Occasion)
    requires Tracked(s, from, b, o) && o.event.Work? && o.event.env == env && Resolved(b)
    requires DbOk(s.db) && Settles(RetryReads(s, s.pendingReads, [], env).db, o)
    ensures Tracked(RetryReads(s, s.pendingReads, [], env), from, b, o)
  {
    hide Account, RetryReads, Tracked, Fate, ReadAccount, OnlyPop, OnlyRead, OnlyWait, Resolved, DbOk, Settles;
    var t := RetryReads(s, s.pendingReads, [], env);
    TrackedAlone(s, from, b, o);
    WholeQueues(s);
    RetryReadsAccount(s, s.pendingReads, [], env);
    RetryReadsGrows(s, s.pendingReads, [], env);
    if b.BlockedRead? {
      if Pends(s, b) {
        RetryReadsFate(s, s.pendingReads, [], env, b, o);
      }
      FateTracked(s, t, from, b, o);
    } else {
      GrownTracked(s, t, from, b, o);
    }
  }

  lemma RetryWaitsTracked(s: State, from: nat, b: Blocked, o: Occasion)
    requires Tracked(s, from, b, o)
    requires b.BlockedWait? ==> Count(RetryWaits(s, s.pendingWaits, []), b.wait.target) == Count(o.after, b.wait.target)
    ensures Tracked(RetryWaits(s, s.pendingWaits, []), from, b, o)
  {
    hide Account, RetryWaits, Tracked, Fate, WaitsAccount, OnlyPop, OnlyRead, OnlyWait, Count;
    var t := RetryWaits(s, s.pendingWaits, []);
    TrackedAlone(s, from, b, o);
    WholeQueues(s);
    RetryWaitsAccount(s, s.pendingWaits, []);
    RetryWaitsGrows(s, s.pendingWaits, []);
    if b.BlockedWait? {
      if Pends(s, b) {
        RetryWaitsFate(s, s.pendingWaits, [], b, o);
      }
      FateTracked(s, t, from, b, o);
    } else {
      GrownTracked(s, t, from, b, o);
    }
  }

  /** What the timeouts at the end of a turn leave alone. */
  lemma ExpireAllLeaves(s: State, now: nat, target: nat)
    ensures ExpireAll(s, now).db == s.db && Count(ExpireAll(s, now), target) == Count(s, target)
  {
    hide ExpirePops, ExpireReads, ExpireWaits, AtTarget;
    var a := ExpirePops(s, s.pendingPops, [], now);
    ExpirePopsCore(s, s.pendingPops, [], now);
    var b := ExpireReads(a, a.pendingReads, [], now);
    ExpireReadsCore(a, a.pendingReads, [], now);
    ExpireWaitsSame(b, b.pendingWaits, [], now);
    ExpireWaitsCounts(b, b.pendingWaits, [], now, target);
  }

  function TargetOf(b: Blocked): nat {
    if b.BlockedWait? then b.wait.target else 0
  }

  /** The retries of a turn that leads to `o.after`. */
  lemma RetryAllTracked(s: State, env: Env, from: nat, b: Blocked, o: Occasion)
    requires Tracked(s, from, b, o) && o.event.Work? && o.event.env == env && Resolved(b) && DbOk(s.db)
    requires o.after == ExpireAll(RetryAll(s, env), env.now)
    ensures Tracked(RetryAll(s, env), from, b, o)
  {
    hide Tracked, Resolved, DbOk, RetryPops, RetryReads, RetryWaits, ExpireAll, Count, PopsQuiet, NoStream, SameStreams;
    var a := RetryPops(s, s.pendingPops, [], env);
    var c := RetryReads(a, a.pendingReads, [], env);
    var d := RetryWaits(c, c.pendingWaits, []);
    ExpireAllLeaves(d, env.now, TargetOf(b));
    RetryWaitsSame(c, c.pendingWaits, []);
    assert o.after.db == c.db;
    forall key ensures Stays(a.db, o.after.db, key, env.now) {
      RetryReadsStays(a, a.pendingReads, [], env, key);
    }
    RetryPopsTracked(s, env, from, b, o);
    NothingQuiet(s.db);
    RetryPopsQuiet(s, s.pendingPops, [], env);
    SameItself(c.db);
    RetryReadsTracked(a, env, from, b, o);
    RetryWaitsTracked(c, from, b, o);
  }

  /** The rest of a turn whose task has been processed. */
  lemma SettleTracked(s: State, env: Env, from: nat, b: Blocked, o: Occasion)
    requires Tracked(s, from, b, o) && o.event.Work? && o.event.env == env && Resolved(b) && DbOk(s.db)
    requires o.after == ExpireAll(RetryAll(s, env), env.now)
    ensures Tracked(o.after, from, b, o)
  {
    hide Tracked, Resolved, DbOk, RetryAll, ExpireAll, Quiet, Keeps;
    RetryAllTracked(s, env, from, b, o);
    RetryAllQuiet(s, env);
    RetryAllDb(s, env);
    ExpireAllTracked(RetryAll(s, env), env.now, from, b, o);
  }

  lemma RetryAllDb(s: State, env: Env)
    requires DbOk(s.db)
    ensures DbOk(RetryAll(s, env).db)
  {
    hide DbOk, RetryAll, Evolves, Extends, Accounted, Mirror;
    RetryAllKeeps(s, env, CLOCK_ONLY);
  }

  /* ---------- Processing ---------- */

  lemma CancelPopsTracked(s: State, client: ClientId, from: nat, b: Blocked, o: Occasion)
    requires Tracked(s, from, b, o) && Departs(o.event, client)
    ensures Tracked(CancelPops(s, s.pendingPops, [], client), from, b, o)
  {
    hide Account, CancelPops, Tracked, Fate, PopAccount, OnlyPop, OnlyRead, OnlyWait, Departs;
    var t := CancelPops(s, s.pendingPops, [], client);
    TrackedAlone(s, from, b, o);
    WholeQueues(s);
    CancelPopsAccount(s, s.pendingPops, [], client);
    CancelPopsGrows(s, s.pendingPops, [], client);
    CancelPopsOthers(s, s.pendingPops, [], client);
    if b.BlockedPop? {
      if Pends(s, b) {
        CancelPopsFate(s, s.pendingPops, [], client, b, o);
      }
      FateTracked(s, t, from, b, o);
    } else {
      GrownTracked(s, t, from, b, o);
    }
  }

  lemma CancelReadsTracked(s: State, client: ClientId, from: nat, b: Blocked, o: Occasion)
    requires Tracked(s, from, b, o) && Departs(o.event, client)
    ensures Tracked(CancelReads(s, s.pendingReads, [], client), from, b, o)
  {
    hide Account, CancelReads, Tracked, Fate, ReadAccount, OnlyPop, OnlyRead, OnlyWait, Departs;
    var t := CancelReads(s, s.pendingReads, [], client);
    TrackedAlone(s, from, b, o);
    WholeQueues(s);
    CancelReadsAccount(s, s.pendingReads, [], client);
    CancelReadsGrows(s, s.pendingReads, [], client);
    CancelReadsOthers(s, s.pendingReads, [], client);
    if b.BlockedRead? {
      if Pends(s, b) {
        CancelReadsFate(s, s.pendingReads, [], client, b, o);
      }
      FateTracked(s, t, from, b, o);
    } else {
      GrownTracked(s, t, from, b, o);
    }
  }

  lemma CancelWaitsTracked(s: State, client: ClientId, from: nat, b: Blocked, o: Occasion)
    requires Tracked(s, from, b, o) && Departs(o.event, client)
    ensures Tracked(CancelWaits(s, s.pendingWaits, [], client), from, b, o)
  {
    hide Account, CancelWaits, Tracked, Fate, WaitsAccount, OnlyPop, OnlyRead, OnlyWait, Departs;
    var t := CancelWaits(s, s.pendingWaits, [], client);
    TrackedAlone(s, from, b, o);
    WholeQueues(s);
    CancelWaitsAccount(s, s.pendingWaits, [], client);
    CancelWaitsGrows(s, s.pendingWaits, [], client);
    if b.BlockedWait? {
      if Pends(s, b) {
        CancelWaitsFate(s, s.pendingWaits, [], client, b, o);
      }
      FateTracked(s, t, from, b, o);
    } else {
      GrownTracked(s, t, from, b, o);
    }
  }

  lemma UnregisterTracked(s: State, client: ClientId, from: nat, b: Blocked, o: Occasion)
    requires Tracked(s, from, b, o) && Departs(o.event, client)
    ensures Tracked(ProcessUnregister(s, client), from, b, o)
  {
    hide Account, CancelPops, CancelReads, CancelWaits, Tracked, Departs, Forget, Unregister;
    CancelPopsTracked(s, client, from, b, o);
    var a := CancelPops(s, s.pendingPops, [], client);
    CancelPopsOthers(s, s.pendingPops, [], client);
    CancelReadsTracked(a, client, from, b, o);
    var c := CancelReads(a, a.pendingReads, [], client);
    CancelReadsOthers(a, a.pendingReads, [], client);
    CancelWaitsTracked(c, client, from, b, o);
    UnregisterAccount(s, client);
    TrackedAlone(s, from, b, o);
    GrownTracked(CancelWaits(c, c.pendingWaits, [], client), ProcessUnregister(s, client), from, b, o);
  }

  lemma ProcessTracked(s: State, t: ProcessorTask, env: Env, from: nat, b: Blocked, o: Occasion)
    requires Tracked(s, from, b, o) && o.event == Work(t, env) && Elsewhere(o.event, IdOf(b))
    ensures Tracked(Process(s, t, env), from, b, o)
  {
    hide Account, Process, ProcessUnregister, Tracked, IdOf;
    TrackedAlone(s, from, b, o);
    if t.UnregisterClient? {
      UnregisterTracked(s, t.client, from, b, o);
      UnregisterProcessed(s, t.client, env);
    } else {
      ProcessGrows(s, t, env);
      ProcessAccount(s, t, env);
      GrownPends(s, Process(s, t, env), b);
      GrownTracked(s, Process(s, t, env), from, b, o);
    }
  }

  lemma GrownPends(s: State, t: State, b: Blocked)
    requires Grows(s, t)
    ensures Pends(s, b) ==> Pends(t, b)
  {
  }

  /* ---------- Events and runs ---------- */

  /** The command is blocked or has been answered. */
  ghost predicate Waiting(s: State, b: Blocked) {
    Account(s)[IdOf(b)] == 1 && (Pends(s, b) || AnsweredFrom(s.replies, 0, IdOf(b)))
  }

  lemma WaitingTracked(s: State, b: Blocked, o: Occasion)
    requires Waiting(s, b)
    ensures Tracked(s, |s.replies|, b, o)
  {
    hide Account, AnsweredFrom, Pends, Meets, IdOf;
  }

  lemma TrackedWaiting(s: State, from: nat, b: Blocked, o: Occasion)
    requires Tracked(s, from, b, o)
    ensures Waiting(s, b) && AllMeet(s.replies, from, b, o)
  {
    hide Account, AnsweredFrom, AllMeet, Pends, IdOf;
  }

  /** An event answers a blocked command only as it may be answered. */
  lemma NextMeets(s: State, event: Event, b: Blocked)
    requires DbOk(s.db) && Quiet(s) && Timely(event) && Elsewhere(event, IdOf(b)) && Resolved(b) && Waiting(s, b)
    ensures Waiting(Next(s, event), b)
    ensures AllMeet(Next(s, event).replies, |s.replies|, b, Occasion(s, event, Next(s, event)))
  {
    var o := Occasion(s, event, Next(s, event));
    WaitingTracked(s, b, o);
    hide DbOk, ClocksRun, Tracked, Waiting, AllMeet, Resolved, Quiet, IdOf;
    match event {
      case Work(t, env) =>
        hide Process, RetryAll, ExpireAll;
        ProcessedDb(s, t, env);
        ProcessTracked(s, t, env, |s.replies|, b, o);
        SettleTracked(Process(s, t, env), env, |s.replies|, b, o);
      case Tick(now) =>
        hide ExpireAll;
        ExpireAllTracked(s, now, |s.replies|, b, o);
      case Connection(_, _) =>
        hide StepSessions;
        ConnectionTracked(s, Next(s, event), b, o);
    }
    TrackedWaiting(Next(s, event), |s.replies|, b, o);
  }

  lemma ConnectionTracked(s: State, t: State, b: Blocked, o: Occasion)
    requires Tracked(s, |s.replies|, b, o) && t == s.(replication := t.replication)
    ensures Tracked(t, |s.replies|, b, o)
  {
    hide AllMeet, AnsweredFrom, IdOf;
  }

  /** The turn of a run in which the reply at position q was given. */
  ghost predicate GivenIn(s: State, events: seq<Event>, k: nat, q: nat) {
    && k < |events|
    && |Run(s, events[..k]).replies| <= q < |Run(s, events[..k + 1]).replies|
  }

  /** The k-th event of a run, with the states around it. */
  function OccasionAt(s: State, events: seq<Event>, k: nat): Occasion
    requires k < |events|
  {
    Occasion(Run(s, events[..k]), events[k], Run(s, events[..k + 1]))
  }

  lemma GivenLater(s: State, events: seq<Event>, k: nat, q: nat)
    requires events != [] && GivenIn(Next(s, events[0]), events[1..], k, q)
    ensures GivenIn(s, events, k + 1, q) && OccasionAt(s, events, k + 1) == OccasionAt(Next(s, events[0]), events[1..], k)
  {
    hide Next, Run;
    RunShifted(s, events, k);
    RunShifted(s, events, k + 1);
  }

  lemma GivenNow(s: State, events: seq<Event>, q: nat)
    requires events != [] && |s.replies| <= q < |Next(s, events[0]).replies|
    ensures GivenIn(s, events, 0, q) && OccasionAt(s, events, 0) == Occasion(s, events[0], Next(s, events[0]))
  {
    hide Next, Run;
    assert events[..0] == [] && events[1..][..0] == [];
    RunNothing(s);
    RunNothing(Next(s, events[0]));
    RunShifted(s, events, 0);
  }

  /** In every run a blocked command is answered only as it may be, by the event that answers it. */
  lemma {:induction false} BlockedAnswered(s: State, events: seq<Event>, b: Blocked, q: nat) returns (k: nat)
    requires DbOk(s.db) && Quiet(s) && Resolved(b) && Waiting(s, b)
    requires AllTimely(events) && AllElsewhere(events, IdOf(b))
    requires |s.replies| <= q < |Run(s, events).replies| && Run(s, events).replies[q].id == IdOf(b)
    ensures GivenIn(s, events, k, q) && Meets(b, OccasionAt(s, events, k), Run(s, events).replies[q].response)
    decreases |events|
  {
    hide DbOk, Quiet, Next, ClocksRun, Resolved, Waiting, Meets, IdOf, GivenIn, OccasionAt;
    var event, rest := events[0], events[1..];
    var t := Next(s, event);
    assert Timely(event) && Elsewhere(event, IdOf(b));
    EventDb(s, event);
    EventQuiet(s, event);
    NextMeets(s, event, b);
    NextReplies(s, event);
    RunReplies(t, rest);
    if q < |t.replies| {
      k := 0;
      GivenNow(s, events, q);
      assert Run(s, events).replies[q] == t.replies[q];
    } else {
      k := BlockedAnswered(t, rest, b, q);
      GivenLater(s, events, k, q);
      k := k + 1;
    }
  }
}
