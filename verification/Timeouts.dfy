/** No blocking command waits longer than it asked for. */
module Timeouts {
  import opened Wrappers
  import opened Responses
  import opened Keyspace
  import opened Commands
  import opened ReplicationStream
  import opened Processor
  import opened Invariants
  import opened Ledger
  import opened Blocking
  import opened Growth
  import opened Arrival
  import opened Outcomes
  import opened BlockedRuns
  import opened BlockingCommands

  function Limit(timeout: Timeout): Option<nat> {
    match timeout
    case Forever => None
    case Within(milliseconds) => Some(milliseconds)
  }

  /** A read that does not block, a WAIT of a client that has written nothing, and whatever is turned away. */
  predicate NeedsNoTime(s: State, task: Task, env: Env) {
    || AskedFor(s, task, env).None?
    || (VerbOf(task.command).Xread? && ParseXread(task.command).Some? && ParseXread(task.command).value.mode.Immediate?)
    || (VerbOf(task.command).Wait? && WriteOffset(s.replication, task.client) == 0)
  }

  /** How long the answer may take; None is as long as it takes. */
  function Patience(s: State, task: Task, env: Env): Option<nat>
    requires BlockingVerb(VerbOf(task.command))
  {
    if NeedsNoTime(s, task, env) then Some(0)
    else if VerbOf(task.command).Blpop? then Limit(env.context(0).timeout(task.command[2]).value)
    else if VerbOf(task.command).Xread? then
      match ParseXread(task.command).value.mode
      case BlockFor(milliseconds) => Some(milliseconds)
      case _ => None
    else Limit(ParseWait(task.command).value.timeout)
  }

  function DeadlineOf(b: Blocked): Option<nat> {
    match b
    case BlockedPop(pop) => pop.deadline
    case BlockedRead(read, _, _, _) => read.deadline
    case BlockedWait(wait) => wait.deadline
  }

  lemma PatienceIsDeadline(s: State, task: Task, env: Env)
    requires BlockingVerb(VerbOf(task.command)) && !NeedsNoTime(s, task, env) && Patience(s, task, env).Some?
    ensures DeadlineOf(AskedFor(s, task, env).value) == Some(env.now + Patience(s, task, env).value)
  {
    hide VerbOf, ParseXread, ParseWait, Admitted;
  }

  /** What needs no time is answered while it is processed. */
  lemma AnsweredWhileProcessed(s: State, task: Task, env: Env)
    requires DbOk(s.db) && ClocksRun(env) && BlockingVerb(VerbOf(task.command)) && NeedsNoTime(s, task, env)
    ensures var t := ProcessTask(s, task, env);
            |t.replies| == |s.replies| + 1 && t.replies[|s.replies|].id == task.id
  {
    hide DbOk, ClocksRun, VerbOf, ProcessTask, ParseXread, ParseWait, ProcessXread, ProcessWait, ProcessBlpop, Step, Admitted;
    if AskedFor(s, task, env).None? {
      TaskTaken(s, task, env, Occasion(s, Work(CommandTask(task), env), Step(s, CommandTask(task), env)));
    } else {
      AdmittedRuns(s, task, env);
      if VerbOf(task.command).Xread? {
        ImmediateAnswered(s, task, env);
      } else {
        UnwrittenAnswered(s, task, env);
      }
    }
  }

  lemma ImmediateAnswered(s: State, task: Task, env: Env)
    requires ParseXread(task.command).Some? && ParseXread(task.command).value.mode.Immediate?
    ensures var t := ProcessXread(s, task, env);
            |t.replies| == |s.replies| + 1 && t.replies[|s.replies|].id == task.id
  {
    hide ParseXread, ReadStreams, XreadResponse;
  }

  lemma UnwrittenAnswered(s: State, task: Task, env: Env)
    requires WriteOffset(s.replication, task.client) == 0
    ensures var t := ProcessWait(s, task, env);
            |t.replies| == |s.replies| + 1 && t.replies[|s.replies|].id == task.id
  {
    hide ParseWait, CountReached, Prune, AppendFrame;
  }

  lemma {:induction false} WaitingRun(s: State, events: seq<Event>, b: Blocked)
    requires DbOk(s.db) && Quiet(s) && Resolved(b) && Waiting(s, b)
    requires AllTimely(events) && AllElsewhere(events, IdOf(b))
    ensures Waiting(Run(s, events), b)
    decreases |events|
  {
    hide DbOk, Quiet, Next, Resolved, Waiting, IdOf, Timely, Elsewhere;
    if events != [] {
      EventDb(s, events[0]);
      EventQuiet(s, events[0]);
      NextMeets(s, events[0], b);
      WaitingRun(Next(s, events[0]), events[1..], b);
    }
  }

  lemma NothingOverdueAfter(s: State, event: Event)
    requires !event.Connection?
    ensures NothingOverdue(Next(s, event), Clock(event))
  {
    hide NothingOverdue, ExpireAll, RetryAll, Process;
    match event {
      case Work(t, env) => TurnLeavesNothingOverdue(RetryAll(Process(s, t, env), env), env.now);
      case Tick(now) => TurnLeavesNothingOverdue(s, now);
    }
  }

  lemma OverdueIsAnswered(s: State, b: Blocked, now: nat)
    requires Waiting(s, b) && NothingOverdue(s, now) && DeadlineOf(b).Some? && DeadlineOf(b).value <= now
    ensures AnsweredFrom(s.replies, 0, IdOf(b))
  {
    hide Account, AnsweredFrom;
  }

  lemma AnsweredThen(s: State, task: Task, env: Env, events: seq<Event>)
    requires DbOk(s.db) && ClocksRun(env) && BlockingVerb(VerbOf(task.command)) && NeedsNoTime(s, task, env)
    ensures AnsweredFrom(Run(Step(s, CommandTask(task), env), events).replies, 0, task.id)
  {
    hide DbOk, ClocksRun, VerbOf, NeedsNoTime, ProcessTask, RetryAll, ExpireAll, Run;
    var processed := ProcessTask(s, task, env);
    var t := Step(s, CommandTask(task), env);
    AnsweredWhileProcessed(s, task, env);
    RetryReplies(processed, env);
    ExpireReplies(RetryAll(processed, env), env.now);
    RunReplies(t, events);
    assert Run(t, events).replies[|s.replies|] == processed.replies[|s.replies|];
  }

  lemma WaitingThen(s: State, task: Task, env: Env, events: seq<Event>)
    requires DbOk(s.db) && ClocksRun(env) && BlockingVerb(VerbOf(task.command)) && AskedFor(s, task, env).Some?
    requires Account(s)[task.id] == 0 && AllElsewhere(events, task.id) && AllTimely(events)
    ensures Waiting(Run(Step(s, CommandTask(task), env), events), AskedFor(s, task, env).value)
  {
    hide DbOk, ClocksRun, VerbOf, Account, AllElsewhere, AllTimely, Run, Step, Quiet, AskedFor, Waiting, Resolved;
    TakenMeets(s, task, env);
    AskedResolved(s, task, env);
    StepQuiet(s, CommandTask(task), env);
    EventDb(s, Work(CommandTask(task), env));
    WaitingRun(Step(s, CommandTask(task), env), events, AskedFor(s, task, env).value);
  }

  /**
   Through any run, once the worker has taken a turn or woken up at a time at which the patience of a BLPOP, XREAD or
   WAIT is over, the command has been answered. What needs no time is answered in its own turn.
   */
  lemma AnsweredInTime(s: State, task: Task, env: Env, events: seq<Event>)
    requires DbOk(s.db) && BlockingVerb(VerbOf(task.command)) && Account(s)[task.id] == 0
    requires AllElsewhere(events, task.id) && ClocksRun(env) && AllTimely(events) && Patience(s, task, env).Some?
    requires var last := ([Work(CommandTask(task), env)] + events)[|events|];
             !last.Connection? && env.now + Patience(s, task, env).value <= Clock(last)
    ensures AnsweredFrom(Run(s, [Work(CommandTask(task), env)] + events).replies, 0, task.id)
  {
    hide DbOk, ClocksRun, VerbOf, Account, AllElsewhere, AllTimely, Run, Next, NeedsNoTime, AskedFor, Waiting, AnsweredFrom,
         Patience, DeadlineOf, NothingOverdue, Clock;
    var first := Work(CommandTask(task), env);
    var all := [first] + events;
    RunFirst(s, first, events);
    NextIsStep(s, task, env);
    if NeedsNoTime(s, task, env) {
      AnsweredThen(s, task, env, events);
    } else {
      NeedsTimeIsAsked(s, task, env);
      var b := AskedFor(s, task, env).value;
      WaitingThen(s, task, env, events);
      PatienceIsDeadline(s, task, env);
      RunParts(s, all, |events|);
      assert all[..|events| + 1] == all;
      NothingOverdueAfter(Run(s, all[..|events|]), all[|events|]);
      OverdueIsAnswered(Run(s, all), b, Clock(all[|events|]));
    }
  }

  lemma NextIsStep(s: State, task: Task, env: Env)
    ensures Next(s, Work(CommandTask(task), env)) == Step(s, CommandTask(task), env)
  {
    hide Step;
  }

  lemma NeedsTimeIsAsked(s: State, task: Task, env: Env)
    requires !NeedsNoTime(s, task, env)
    ensures AskedFor(s, task, env).Some?
  {
    hide AskedFor, VerbOf;
  }
}
