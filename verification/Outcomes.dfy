/** How a blocked command may be answered, and what a run keeps about one until it is. */
module Outcomes {
  import opened Wrappers
  import opened Decimal
  import opened Responses
  import opened Keyspace
  import opened Commands
  import opened Channels
  import opened ReplicationStream
  import opened Processor
  import opened Ledger
  import opened Growth
  import opened Arrival
  import opened ReadPositions

  /** A blocked command; for a read also the database it was issued on, its requests as issued and its mode. */
  datatype Blocked =
    | BlockedPop(pop: PendingPop)
    | BlockedRead(read: PendingRead, held: Db, requests: seq<ReadRequest>, mode: ReadMode)
    | BlockedWait(wait: PendingWait)

  function TaskOf(b: Blocked): Task {
    match b
    case BlockedPop(pop) => pop.task
    case BlockedRead(read, _, _, _) => read.task
    case BlockedWait(wait) => wait.task
  }

  function IdOf(b: Blocked): TaskId {
    TaskOf(b).id
  }

  predicate Pends(s: State, b: Blocked) {
    match b
    case BlockedPop(pop) => pop in s.pendingPops
    case BlockedRead(read, _, _, _) => read in s.pendingReads
    case BlockedWait(wait) => wait in s.pendingWaits
  }

  /** The positions of a read were resolved on the database it was issued on. */
  ghost predicate Resolved(b: Blocked) {
    b.BlockedRead? ==> DbOk(b.held) && b.read.requests == PositionAll(b.held, b.requests)
  }

  /** An event, the state it finds and the state it leaves. */
  datatype Occasion = Occasion(before: State, event: Event, after: State)

  /* ---------- The answers ---------- */

  function Clock(event: Event): nat {
    match event
    case Work(_, env) => env.now
    case Tick(now) => now
    case Connection(_, _) => 0
  }

  /** The command has a deadline, and the clock of the event has reached it. */
  predicate TimeUp(deadline: Option<nat>, event: Event) {
    !event.Connection? && deadline.Some? && deadline.value <= Clock(event)
  }

  predicate Departs(event: Event, client: ClientId) {
    event.Work? && event.t == UnregisterClient(client)
  }

  ghost predicate AppendFails(env: Env) {
    exists length: nat :: env.append(length).Cut?
  }

  /** The key holds something that is no list. */
  predicate NoList(db: Db, key: Bytes, now: nat) {
    key in db.entries && !db.entries[key].value.List? && !Expired(db.entries[key], now)
  }

  /** The key holds something that is no stream. */
  predicate NoStream(db: Db, key: Bytes, now: nat) {
    key in db.entries && !db.entries[key].value.Stream? && !Expired(db.entries[key], now)
  }

  ghost predicate SomeNoStream(db: Db, requests: seq<ReadRequest>, now: nat) {
    exists i :: 0 <= i < |requests| && NoStream(db, requests[i].key, now)
  }

  /** What an attempt to pop answers: an element, that recording it failed, or that the key holds no list. */
  ghost predicate AttemptAnswer(db: Db, key: Bytes, env: Env, response: Response) {
    || (response.Array? && |response.values| == 2 && response.values[0] == key)
    || (response == MISCONF && AppendFails(env))
    || (response == WRONGTYPE && NoList(db, key, env.now))
  }

  /** A pop: an attempt, or a timeout while the key does not exist. */
  ghost predicate PopAnswer(pop: PendingPop, o: Occasion, response: Response) {
    || (o.event.Work? && AttemptAnswer(o.after.db, pop.key, o.event.env, response))
    || (response == NullArray && TimeUp(pop.deadline, o.event) && pop.key !in o.after.db.entries)
  }

  /** A read: exactly what is due, or the wrong type, or a timeout while nothing is due. */
  ghost predicate ReadAnswer(b: Blocked, o: Occasion, response: Response)
    requires b.BlockedRead?
  {
    || (response.ResponseArray? && response == XreadResponse(Due(b.held, b.requests, o.after.db)))
    || (response == WRONGTYPE && (SomeNoStream(o.before.db, b.requests, Clock(o.event))
                                  || SomeNoStream(o.after.db, b.requests, Clock(o.event))))
    || (response == NullArray && (b.mode.Immediate? || TimeUp(b.read.deadline, o.event))
        && Due(b.held, b.requests, o.after.db) == [])
  }

  /** The number of replicas that have reached a target. */
  function Count(s: State, target: nat): nat {
    |AtTarget(s.replication.sessions, s.replication.acknowledged, target)|
  }

  /** A WAIT: how many replicas have reached its target, once these are enough, there is no target, or its time is up. */
  predicate WaitAnswer(wait: PendingWait, o: Occasion, response: Response) {
    && response == Integer(Count(o.after, wait.target))
    && (Count(o.after, wait.target) >= wait.required || wait.target == 0 || TimeUp(wait.deadline, o.event))
  }

  /** Every answer to a blocked command; nothing is answered when its client is unregistered. */
  ghost predicate Meets(b: Blocked, o: Occasion, response: Response) {
    || (response == NoResponse && Departs(o.event, TaskOf(b).client))
    || (b.BlockedPop? && PopAnswer(b.pop, o, response))
    || (b.BlockedRead? && ReadAnswer(b, o, response))
    || (b.BlockedWait? && WaitAnswer(b.wait, o, response))
  }

  /* ---------- What the stages of an event keep ---------- */

  /** Every answer to the command from position `from` on is one of these. */
  ghost predicate AllMeet(replies: seq<Reply>, from: nat, b: Blocked, o: Occasion) {
    forall q :: from <= q < |replies| && replies[q].id == IdOf(b) ==> Meets(b, o, replies[q].response)
  }

  /** The command is blocked or has been answered. */
  ghost predicate Tracked(s: State, from: nat, b: Blocked, o: Occasion) {
    && Account(s)[IdOf(b)] == 1
    && from <= |s.replies|
    && AllMeet(s.replies, from, b, o)
    && (Pends(s, b) || AnsweredFrom(s.replies, 0, IdOf(b)))
  }

  lemma MeetAppended(shorter: seq<Reply>, longer: seq<Reply>, from: nat, b: Blocked, o: Occasion)
    requires shorter <= longer && from <= |shorter|
    requires AllMeet(shorter, from, b, o) && AllMeet(longer, |shorter|, b, o)
    ensures AllMeet(longer, from, b, o)
  {
    hide Meets, IdOf;
    forall q | from <= q < |longer| && longer[q].id == IdOf(b) ensures Meets(b, o, longer[q].response) {
      if q < |shorter| {
        assert longer[q] == shorter[q];
      }
    }
  }

  lemma SilentMeet(replies: seq<Reply>, from: nat, b: Blocked, o: Occasion)
    requires SilentFrom(replies, from, IdOf(b))
    ensures AllMeet(replies, from, b, o)
  {
    hide Meets, IdOf;
  }

  /** A promise that occurs once and is blocked has not been answered. */
  lemma PendsSilent(s: State, b: Blocked, from: nat)
    requires Pends(s, b) && Account(s)[IdOf(b)] == 1
    ensures SilentFrom(s.replies, from, IdOf(b))
  {
    hide Account;
    match b {
      case BlockedPop(pop) =>
        var j :| 0 <= j < |s.pendingPops| && s.pendingPops[j] == pop;
        WaitingPop(s, j);
      case BlockedRead(read, _, _, _) =>
        var j :| 0 <= j < |s.pendingReads| && s.pendingReads[j] == read;
        WaitingRead(s, j);
      case BlockedWait(wait) =>
        var j :| 0 <= j < |s.pendingWaits| && s.pendingWaits[j] == wait;
        WaitingWait(s, j);
    }
  }

  /** An answered command is not answered again. */
  lemma AnsweredTracked(s: State, t: State, from: nat, b: Blocked, o: Occasion)
    requires Tracked(s, from, b, o) && AnsweredFrom(s.replies, 0, IdOf(b))
    requires s.replies <= t.replies && Account(t)[IdOf(b)] == 1
    ensures Tracked(t, from, b, o)
  {
    hide Account, AllMeet, AnsweredFrom, Pends, IdOf;
    AnsweredLater(s.replies, t.replies, 0, 0, IdOf(b));
    AnsweredSilent(s, t, 0, IdOf(b));
    SilentMeet(t.replies, |s.replies|, b, o);
    MeetAppended(s.replies, t.replies, from, b, o);
  }

  /** A stage that leaves the blocked command where it is. */
  lemma GrownTracked(s: State, t: State, from: nat, b: Blocked, o: Occasion)
    requires Tracked(s, from, b, o)
    requires s.replies <= t.replies && (Pends(s, b) ==> Pends(t, b)) && Account(t)[IdOf(b)] == 1
    ensures Tracked(t, from, b, o)
  {
    hide Account, AllMeet, AnsweredFrom, Pends, IdOf;
    if AnsweredFrom(s.replies, 0, IdOf(b)) {
      AnsweredTracked(s, t, from, b, o);
    } else {
      PendsSilent(t, b, from);
      SilentMeet(t.replies, from, b, o);
    }
  }

  /** From `s` to `t` the command was answered as it may be, and is blocked or answered if it was there. */
  ghost predicate Fate(s: State, t: State, b: Blocked, o: Occasion, there: bool) {
    && s.replies <= t.replies && AllMeet(t.replies, |s.replies|, b, o)
    && (there ==> Pends(t, b) || AnsweredFrom(t.replies, |s.replies|, IdOf(b)))
  }

  lemma FateTracked(s: State, t: State, from: nat, b: Blocked, o: Occasion)
    requires Tracked(s, from, b, o) && Account(t)[IdOf(b)] == 1 && s.replies <= t.replies
    requires Pends(s, b) ==> Fate(s, t, b, o, true)
    ensures Tracked(t, from, b, o)
  {
    hide Account, AllMeet, AnsweredFrom, Pends, IdOf;
    if Pends(s, b) {
      MeetAppended(s.replies, t.replies, from, b, o);
      AnsweredLater([], t.replies, 0, |s.replies|, IdOf(b));
    } else {
      AnsweredTracked(s, t, from, b, o);
    }
  }

  /** A loop answers one entry and goes on. */
  lemma AnsweredOn(s: State, middle: State, t: State, task: Task, response: Response, b: Blocked, o: Occasion)
    requires middle.replies == s.replies + [Reply(task.id, response)] && middle.replies <= t.replies
    requires task.id == IdOf(b) ==> Meets(b, o, response)
    requires AllMeet(t.replies, |middle.replies|, b, o)
    ensures AllMeet(t.replies, |s.replies|, b, o)
    ensures task.id == IdOf(b) || AnsweredFrom(t.replies, |middle.replies|, IdOf(b)) ==>
              AnsweredFrom(t.replies, |s.replies|, IdOf(b))
  {
    hide Meets, IdOf;
    var p := |s.replies|;
    assert t.replies[p] == middle.replies[p] == Reply(task.id, response);
    AnsweredLater([], t.replies, p, p + 1, IdOf(b));
  }

  lemma NothingAdded(s: State, t: State, b: Blocked, o: Occasion)
    requires t.replies == s.replies
    ensures AllMeet(t.replies, |s.replies|, b, o)
  {
    hide Meets;
  }

  lemma FateKept(s: State, t: State, b: Blocked, o: Occasion, there: bool)
    requires t.replies == s.replies && (there ==> Pends(t, b))
    ensures Fate(s, t, b, o, there)
  {
    hide AllMeet, Pends, IdOf;
    NothingAdded(s, t, b, o);
  }

  /** One entry is answered, and the loop goes on with the others. */
  lemma FateAnswered(s: State, middle: State, t: State, task: Task, response: Response, b: Blocked, o: Occasion, there: bool)
    requires middle.replies == s.replies + [Reply(task.id, response)]
    requires task.id == IdOf(b) ==> Meets(b, o, response)
    requires Fate(middle, t, b, o, there)
    ensures Fate(s, t, b, o, there || task.id == IdOf(b))
  {
    hide Meets, AllMeet, AnsweredFrom, Pends, IdOf;
    AnsweredOn(s, middle, t, task, response, b, o);
  }

  lemma FateMoved(s: State, middle: State, t: State, b: Blocked, o: Occasion, there: bool)
    requires middle.replies == s.replies && Fate(middle, t, b, o, there)
    ensures Fate(s, t, b, o, there)
  {
    hide AllMeet, AnsweredFrom, Pends, IdOf;
  }

  lemma FateWeaker(s: State, t: State, b: Blocked, o: Occasion, more: bool, less: bool)
    requires Fate(s, t, b, o, more) && (less ==> more)
    ensures Fate(s, t, b, o, less)
  {
    hide AllMeet, AnsweredFrom, Pends, IdOf;
  }

  lemma DepartureMeets(b: Blocked, o: Occasion, client: ClientId)
    requires Departs(o.event, client) && TaskOf(b).client == client
    ensures Meets(b, o, NoResponse)
  {
    hide PopAnswer, ReadAnswer, WaitAnswer;
  }
}
