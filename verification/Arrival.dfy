/** First come, first served over whole runs: of two clients blocked on one key, the later is never served first. */
module Arrival {
  import opened Wrappers
  import opened Resp
  import opened Responses
  import opened Keyspace
  import opened Commands
  import opened Channels
  import opened ReplicationStream
  import opened Processor
  import opened Invariants
  import opened Ledger
  import opened Blocking
  import opened Growth

  /** The first of the two pops stands before the second. */
  ghost predicate InLine(queue: seq<PendingPop>, first: PendingPop, second: PendingPop) {
    exists i, j :: 0 <= i < j < |queue| && queue[i] == first && queue[j] == second
  }

  /** What a pop attempt answers: an element, that recording the pop failed, or that the key holds no list. */
  predicate Served(reply: Reply, id: TaskId) {
    reply.id == id && (reply.response.Array? || reply.response == MISCONF || reply.response == WRONGTYPE)
  }

  /** From position `from` on the second promise is served only after the first has been answered. */
  ghost predicate Fair(replies: seq<Reply>, from: nat, first: TaskId, second: TaskId) {
    forall q :: from <= q < |replies| && Served(replies[q], second) ==> AnsweredFrom(replies[..q], from, first)
  }

  /** What a run keeps about two pops, of which the second has been submitted once. */
  ghost predicate Queued(s: State, from: nat, first: PendingPop, second: PendingPop) {
    && Account(s)[second.task.id] == 1
    && from <= |s.replies|
    && Fair(s.replies, from, first.task.id, second.task.id)
    && (InLine(s.pendingPops, first, second) || AnsweredFrom(s.replies, from, first.task.id)
        || AnsweredFrom(s.replies, from, second.task.id))
  }

  /* ---------- Composing stretches of replies ---------- */

  lemma AnsweredLater(shorter: seq<Reply>, longer: seq<Reply>, from: nat, later: nat, id: TaskId)
    requires shorter <= longer && from <= later
    ensures AnsweredFrom(longer, later, id) ==> AnsweredFrom(longer, from, id)
    ensures AnsweredFrom(shorter, from, id) ==> AnsweredFrom(longer, from, id)
  {
    if AnsweredFrom(longer, later, id) {
      var p :| later <= p < |longer| && longer[p].id == id;
      assert from <= p < |longer| && longer[p].id == id;
    }
    if AnsweredFrom(shorter, from, id) {
      var p :| from <= p < |shorter| && shorter[p].id == id;
      assert longer[p].id == id;
    }
  }

  /** Fair up to a point and fair from there on. */
  lemma FairAppended(shorter: seq<Reply>, longer: seq<Reply>, from: nat, first: TaskId, second: TaskId)
    requires shorter <= longer && from <= |shorter|
    requires Fair(shorter, from, first, second) && Fair(longer, |shorter|, first, second)
    ensures Fair(longer, from, first, second)
  {
    hide AnsweredFrom;
    forall q | from <= q < |longer| && Served(longer[q], second) ensures AnsweredFrom(longer[..q], from, first) {
      if q < |shorter| {
        assert longer[q] == shorter[q] && longer[..q] == shorter[..q];
      } else {
        AnsweredLater([], longer[..q], from, |shorter|, first);
      }
    }
  }

  /** Once the first has been answered, everything later is fair. */
  lemma FairBehind(shorter: seq<Reply>, longer: seq<Reply>, from: nat, first: TaskId, second: TaskId)
    requires shorter <= longer && from <= |shorter|
    requires Fair(shorter, from, first, second) && AnsweredFrom(shorter, from, first)
    ensures Fair(longer, from, first, second)
  {
    hide AnsweredFrom;
    forall q | from <= q < |longer| && Served(longer[q], second) ensures AnsweredFrom(longer[..q], from, first) {
      if q < |shorter| {
        assert longer[q] == shorter[q] && longer[..q] == shorter[..q];
      } else {
        assert shorter <= longer[..q];
        AnsweredLater(shorter, longer[..q], from, from, first);
      }
    }
  }

  lemma SilentFair(replies: seq<Reply>, from: nat, first: TaskId, second: TaskId)
    requires SilentFrom(replies, from, second)
    ensures Fair(replies, from, first, second)
  {
  }

  /* ---------- Stages that leave the pops where they are ---------- */

  lemma InLineGrown(shorter: seq<PendingPop>, longer: seq<PendingPop>, first: PendingPop, second: PendingPop)
    requires shorter <= longer && InLine(shorter, first, second)
    ensures InLine(longer, first, second)
  {
    var i, j :| 0 <= i < j < |shorter| && shorter[i] == first && shorter[j] == second;
    assert longer[i] == first && longer[j] == second;
  }

  /** A promise that waits in line has not been answered. */
  lemma InLineSilent(t: State, from: nat, first: PendingPop, second: PendingPop)
    requires InLine(t.pendingPops, first, second) && Account(t)[second.task.id] == 1
    ensures SilentFrom(t.replies, from, second.task.id)
  {
    hide Account;
    var i, j :| 0 <= i < j < |t.pendingPops| && t.pendingPops[i] == first && t.pendingPops[j] == second;
    WaitingPop(t, j);
  }

  lemma AnsweredSilent(s: State, t: State, from: nat, id: TaskId)
    requires s.replies <= t.replies && AnsweredFrom(s.replies, from, id) && Account(t)[id] == 1
    ensures SilentFrom(t.replies, |s.replies|, id)
  {
    hide Account;
    var p :| from <= p < |s.replies| && s.replies[p].id == id;
    assert t.replies[p] == s.replies[p];
    AnsweredOnce(t, p, |s.replies|);
  }

  /** Whoever was answered before: the rest of the run is fair whatever happens. */
  lemma AnsweredKeeps(s: State, t: State, from: nat, first: PendingPop, second: PendingPop)
    requires Queued(s, from, first, second) && !InLine(s.pendingPops, first, second)
    requires s.replies <= t.replies && Account(t)[second.task.id] == 1
    ensures Queued(t, from, first, second)
  {
    hide Account, Fair, AnsweredFrom, InLine;
    AnsweredLater(s.replies, t.replies, from, from, first.task.id);
    AnsweredLater(s.replies, t.replies, from, from, second.task.id);
    if AnsweredFrom(s.replies, from, first.task.id) {
      FairBehind(s.replies, t.replies, from, first.task.id, second.task.id);
    } else {
      AnsweredSilent(s, t, from, second.task.id);
      SilentFair(t.replies, |s.replies|, first.task.id, second.task.id);
      FairAppended(s.replies, t.replies, from, first.task.id, second.task.id);
    }
  }

  /** Replies are added, and pops at most at the end. */
  lemma GrownKeeps(s: State, t: State, from: nat, first: PendingPop, second: PendingPop)
    requires Queued(s, from, first, second)
    requires s.replies <= t.replies && s.pendingPops <= t.pendingPops && Account(t)[second.task.id] == 1
    ensures Queued(t, from, first, second)
  {
    if InLine(s.pendingPops, first, second) {
      hide Account, Fair, AnsweredFrom, InLine;
      InLineGrown(s.pendingPops, t.pendingPops, first, second);
      InLineSilent(t, from, first, second);
      SilentFair(t.replies, from, first.task.id, second.task.id);
    } else {
      hide *;
      AnsweredKeeps(s, t, from, first, second);
    }
  }

  /* ---------- The three loops over the pops ---------- */

  /** What a loop over the queue of pops makes of two of them. */
  ghost predicate Passes(s: State, t: State, first: PendingPop, second: PendingPop) {
    && s.replies <= t.replies
    && Fair(t.replies, |s.replies|, first.task.id, second.task.id)
    && (InLine(t.pendingPops, first, second) || AnsweredFrom(t.replies, |s.replies|, first.task.id)
        || AnsweredFrom(t.replies, |s.replies|, second.task.id))
  }

  lemma PassesKeeps(s: State, t: State, from: nat, first: PendingPop, second: PendingPop)
    requires Queued(s, from, first, second) && Account(t)[second.task.id] == 1
    requires s.replies <= t.replies
    requires InLine(s.pendingPops, first, second) ==> Passes(s, t, first, second)
    ensures Queued(t, from, first, second)
  {
    hide Account, Fair, AnsweredFrom, InLine;
    if InLine(s.pendingPops, first, second) {
      FairAppended(s.replies, t.replies, from, first.task.id, second.task.id);
      AnsweredLater([], t.replies, from, |s.replies|, first.task.id);
      AnsweredLater([], t.replies, from, |s.replies|, second.task.id);
    } else {
      AnsweredKeeps(s, t, from, first, second);
    }
  }

  /** Taking one entry out leaves the two in line, unless it is one of them. */
  lemma InLineWithout(kept: seq<PendingPop>, queue: seq<PendingPop>, first: PendingPop, second: PendingPop)
    requires queue != [] && InLine(kept + queue, first, second)
    ensures InLine(kept + queue[1..], first, second) || queue[0] == first || queue[0] == second
  {
    var all, less := kept + queue, kept + queue[1..];
    var i, j :| 0 <= i < j < |all| && all[i] == first && all[j] == second;
    if i != |kept| && j != |kept| {
      var a, b := if i < |kept| then i else i - 1, if j < |kept| then j else j - 1;
      assert less[a] == first && less[b] == second;
    }
  }

  lemma MovedOver(kept: seq<PendingPop>, queue: seq<PendingPop>)
    requires queue != []
    ensures kept + [queue[0]] + queue[1..] == kept + queue
  {
  }

  /** A loop that answers without serving took one entry out and goes on. */
  lemma PassesOn(s: State, middle: State, t: State, queue: seq<PendingPop>, kept: seq<PendingPop>, response: Response,
                 first: PendingPop, second: PendingPop)
    requires queue != [] && middle == Answer(s, queue[0].task, response)
    requires response.NullArray? || response.NoResponse?
    requires InLine(kept + queue, first, second)
    requires middle.replies <= t.replies
    requires forall q :: |middle.replies| <= q < |t.replies| ==> !Served(t.replies[q], second.task.id)
    requires InLine(kept + queue[1..], first, second) ==> Passes(middle, t, first, second)
    ensures Passes(s, t, first, second)
  {
    hide InLine, Served;
    InLineWithout(kept, queue, first, second);
    var p := |s.replies|;
    assert t.replies[p] == middle.replies[p] == Reply(queue[0].task.id, response);
    forall q | p <= q < |t.replies| ensures !Served(t.replies[q], second.task.id) {
      if q == p {
        NotServed(t.replies[q], second.task.id);
      }
    }
    AnsweredLater([], t.replies, p, p + 1, first.task.id);
    AnsweredLater([], t.replies, p, p + 1, second.task.id);
    assert queue[0] == first || queue[0] == second ==> t.replies[p].id == queue[0].task.id;
  }

  lemma NotServed(reply: Reply, id: TaskId)
    requires reply.response.NullArray? || reply.response.NoResponse?
    ensures !Served(reply, id)
  {
  }

  /** Cancelling answers without serving and keeps the rest in order. */
  lemma {:induction false} CancelPopsPasses(s: State, queue: seq<PendingPop>, kept: seq<PendingPop>, client: ClientId,
                                            first: PendingPop, second: PendingPop)
    ensures var t := CancelPops(s, queue, kept, client);
            && s.replies <= t.replies
            && (forall q :: |s.replies| <= q < |t.replies| ==> !Served(t.replies[q], second.task.id))
            && (InLine(kept + queue, first, second) ==> Passes(s, t, first, second))
    decreases |queue|
  {
    hide InLine, Passes, Served;
    if queue == [] {
      assert kept + queue == kept;
      NothingPasses(s, s.(pendingPops := kept), first, second);
    } else if queue[0].task.client != client {
      MovedOver(kept, queue);
      CancelPopsPasses(s, queue[1..], kept + [queue[0]], client, first, second);
    } else {
      var middle := Answer(s, queue[0].task, NoResponse);
      CancelPopsPasses(middle, queue[1..], kept, client, first, second);
      var t := CancelPops(s, queue, kept, client);
      NotServed(middle.replies[|s.replies|], second.task.id);
      forall q | |s.replies| <= q < |t.replies| ensures !Served(t.replies[q], second.task.id) {
        assert q == |s.replies| ==> t.replies[q] == middle.replies[q];
      }
      if InLine(kept + queue, first, second) {
        PassesOn(s, middle, t, queue, kept, NoResponse, first, second);
      }
    }
  }

  lemma NothingPasses(s: State, t: State, first: PendingPop, second: PendingPop)
    requires t.replies == s.replies
    ensures InLine(t.pendingPops, first, second) ==> Passes(s, t, first, second)
  {
    hide InLine;
  }

  lemma {:induction false} ExpirePopsPasses(s: State, queue: seq<PendingPop>, kept: seq<PendingPop>, now: nat,
                                            first: PendingPop, second: PendingPop)
    ensures var t := ExpirePops(s, queue, kept, now);
            && s.replies <= t.replies
            && (forall q :: |s.replies| <= q < |t.replies| ==> !Served(t.replies[q], second.task.id))
            && (InLine(kept + queue, first, second) ==> Passes(s, t, first, second))
    decreases |queue|
  {
    hide InLine, Passes, Served, Overdue;
    if queue == [] {
      assert kept + queue == kept;
      NothingPasses(s, s.(pendingPops := kept), first, second);
    } else if !Overdue(queue[0].deadline, now) {
      MovedOver(kept, queue);
      ExpirePopsPasses(s, queue[1..], kept + [queue[0]], now, first, second);
    } else {
      var middle := Answer(s, queue[0].task, NullArray);
      ExpirePopsPasses(middle, queue[1..], kept, now, first, second);
      var t := ExpirePops(s, queue, kept, now);
      NotServed(middle.replies[|s.replies|], second.task.id);
      forall q | |s.replies| <= q < |t.replies| ensures !Served(t.replies[q], second.task.id) {
        assert q == |s.replies| ==> t.replies[q] == middle.replies[q];
      }
      if InLine(kept + queue, first, second) {
        PassesOn(s, middle, t, queue, kept, NullArray, first, second);
      }
    }
  }

  /* ---------- Retrying ---------- */

  /** The pop at position j is the only one with its promise. */
  predicate Alone(queue: seq<PendingPop>, j: nat)
    requires j < |queue|
  {
    forall k :: 0 <= k < |queue| && k != j ==> queue[k].task.id != queue[j].task.id
  }

  lemma AloneBehind(queue: seq<PendingPop>, j: nat)
    requires 0 < j < |queue| && Alone(queue, j)
    ensures Alone(queue[1..], j - 1) && queue[1..][j - 1] == queue[j] && queue[0].task.id != queue[j].task.id
  {
    forall k | 0 <= k < |queue[1..]| && k != j - 1 ensures queue[1..][k].task.id != queue[1..][j - 1].task.id {
      assert queue[1..][k] == queue[k + 1];
    }
  }

  /** What one attempt does to the replies, without its other effects. */
  lemma AttemptAnswers(s: State, pop: PendingPop, env: Env)
    ensures var attempt := AttemptPop(s, pop.task, pop.key, env);
            && s.replies <= attempt.state.replies
            && (attempt.served ==>
                  |attempt.state.replies| == |s.replies| + 1 && attempt.state.replies[|s.replies|].id == pop.task.id)
            && (!attempt.served ==> attempt.state.replies == s.replies)
  {
    hide AttemptPop;
    AttemptFulfils(s, pop.task, pop.key, env);
  }

  /** Pops without the promise do not answer it, and those passed by stay in front. */
  lemma {:induction false} RetryPopsOthers(s: State, queue: seq<PendingPop>, kept: seq<PendingPop>, env: Env, id: TaskId)
    requires forall k :: 0 <= k < |queue| ==> queue[k].task.id != id
    ensures var t := RetryPops(s, queue, kept, env);
            s.replies <= t.replies && SilentFrom(t.replies, |s.replies|, id) && kept <= t.pendingPops
    decreases |queue|
  {
    hide AttemptPop;
    if queue != [] {
      var attempt := AttemptPop(s, queue[0].task, queue[0].key, env);
      AttemptAnswers(s, queue[0], env);
      RetryPopsOthers(attempt.state, queue[1..], if attempt.served then kept else kept + [queue[0]], env, id);
      SilentExtended(s.replies, attempt.state.replies, RetryPops(s, queue, kept, env).replies, id);
    }
  }

  lemma SilentExtended(shorter: seq<Reply>, middle: seq<Reply>, longer: seq<Reply>, id: TaskId)
    requires shorter <= middle <= longer
    requires SilentFrom(middle, |shorter|, id) && SilentFrom(longer, |middle|, id)
    ensures SilentFrom(longer, |shorter|, id)
  {
    forall p | |shorter| <= p < |longer| ensures longer[p].id != id {
      if p < |middle| {
        assert longer[p] == middle[p];
      }
    }
  }

  /** Without an entry under its key a pop is passed by and stays behind those passed before it. */
  lemma {:induction false} AbsentWaits(s: State, queue: seq<PendingPop>, kept: seq<PendingPop>, env: Env, j: nat)
    requires DbOk(s.db) && j < |queue| && Alone(queue, j) && queue[j].key !in s.db.entries
    ensures var t := RetryPops(s, queue, kept, env);
            && s.replies <= t.replies && SilentFrom(t.replies, |s.replies|, queue[j].task.id)
            && kept <= t.pendingPops && queue[j] in t.pendingPops[|kept|..]
    decreases |queue|
  {
    hide DbOk, AttemptPop, Alone;
    var attempt := AttemptPop(s, queue[0].task, queue[0].key, env);
    AttemptLeavesNothing(s, queue[0].task, queue[0].key, env);
    AttemptAnswers(s, queue[0], env);
    var t := RetryPops(s, queue, kept, env);
    var passed := if attempt.served then kept else kept + [queue[0]];
    if j == 0 {
      AbsentUnserved(s, queue[0], env);
      AloneOthers(queue);
      RetryPopsOthers(attempt.state, queue[1..], passed, env, queue[0].task.id);
      assert t.pendingPops[|kept|] == passed[|kept|];
      assert t.pendingPops[|kept|..][0] == queue[0];
    } else {
      AloneBehind(queue, j);
      AbsentWaits(attempt.state, queue[1..], passed, env, j - 1);
      SilentExtended(s.replies, attempt.state.replies, t.replies, queue[j].task.id);
      assert t.pendingPops[|passed|..] == t.pendingPops[|kept|..][|passed| - |kept|..];
    }
  }

  lemma AloneOthers(queue: seq<PendingPop>)
    requires queue != [] && Alone(queue, 0)
    ensures forall k :: 0 <= k < |queue[1..]| ==> queue[1..][k].task.id != queue[0].task.id
  {
  }

  lemma AbsentUnserved(s: State, pop: PendingPop, env: Env)
    requires pop.key !in s.db.entries
    ensures !AttemptPop(s, pop.task, pop.key, env).served
  {
    hide Record, SerializeCommand;
  }

  /** One pass over the queue serves the second pop only after it has served the first. */
  lemma {:induction false} RetryPopsPasses(s: State, queue: seq<PendingPop>, kept: seq<PendingPop>, env: Env, i: nat, j: nat)
    requires DbOk(s.db) && i < j < |queue| && queue[i].key == queue[j].key && Alone(queue, j)
    ensures Passes(s, RetryPops(s, queue, kept, env), queue[i], queue[j])
    decreases |queue|
  {
    hide DbOk, AttemptPop, Alone, Passes;
    var attempt := AttemptPop(s, queue[0].task, queue[0].key, env);
    AttemptLeavesNothing(s, queue[0].task, queue[0].key, env);
    AttemptAnswers(s, queue[0], env);
    AloneBehind(queue, j);
    var t := RetryPops(s, queue, kept, env);
    if i > 0 {
      RetryPopsPasses(attempt.state, queue[1..], if attempt.served then kept else kept + [queue[0]], env, i - 1, j - 1);
      PassesBehind(s, attempt.state, t, queue[i], queue[j]);
    } else if attempt.served {
      RetryPopsGrows(attempt.state, queue[1..], kept, env);
      FirstAnswered(s, attempt.state, t, queue[0], queue[j]);
    } else {
      AbsentWaits(attempt.state, queue[1..], kept + [queue[0]], env, j - 1);
      StillInLine(s, t, kept, queue[0], queue[j]);
    }
  }

  /** Replies to others before the stretch change nothing. */
  lemma PassesBehind(s: State, middle: State, t: State, first: PendingPop, second: PendingPop)
    requires s.replies <= middle.replies && SilentFrom(middle.replies, |s.replies|, second.task.id)
    requires Passes(middle, t, first, second)
    ensures Passes(s, t, first, second)
  {
    hide InLine, AnsweredFrom, Fair, SilentFrom;
    SilentFair(middle.replies, |s.replies|, first.task.id, second.task.id);
    FairAppended(middle.replies, t.replies, |s.replies|, first.task.id, second.task.id);
    AnsweredLater([], t.replies, |s.replies|, |middle.replies|, first.task.id);
    AnsweredLater([], t.replies, |s.replies|, |middle.replies|, second.task.id);
  }

  lemma FirstAnswered(s: State, middle: State, t: State, first: PendingPop, second: PendingPop)
    requires s.replies < middle.replies <= t.replies && |middle.replies| == |s.replies| + 1
    requires middle.replies[|s.replies|].id == first.task.id != second.task.id
    ensures Passes(s, t, first, second)
  {
    hide InLine;
    SilentFair(middle.replies, |s.replies|, first.task.id, second.task.id);
    FairBehind(middle.replies, t.replies, |s.replies|, first.task.id, second.task.id);
    assert t.replies[|s.replies|].id == first.task.id;
  }

  lemma StillInLine(s: State, t: State, kept: seq<PendingPop>, first: PendingPop, second: PendingPop)
    requires s.replies <= t.replies && SilentFrom(t.replies, |s.replies|, second.task.id)
    requires kept + [first] <= t.pendingPops && second in t.pendingPops[|kept| + 1..]
    ensures Passes(s, t, first, second)
  {
    SilentFair(t.replies, |s.replies|, first.task.id, second.task.id);
    var rest := t.pendingPops[|kept| + 1..];
    var m :| 0 <= m < |rest| && rest[m] == second;
    assert t.pendingPops[|kept|] == (kept + [first])[|kept|];
    assert t.pendingPops[|kept|] == first && t.pendingPops[|kept| + 1 + m] == second;
  }

  lemma RetryKeeps(s: State, env: Env, from: nat, first: PendingPop, second: PendingPop)
    requires DbOk(s.db) && first.key == second.key && Queued(s, from, first, second)
    ensures Queued(RetryPops(s, s.pendingPops, [], env), from, first, second)
  {
    hide DbOk, Account, RetryPops, Passes, Fair, AnsweredFrom, PopAccount;
    var t := RetryPops(s, s.pendingPops, [], env);
    RetryPopsGrows(s, s.pendingPops, [], env);
    RetryPopsAccount(s, s.pendingPops, [], env);
    WholeQueues(s);
    if InLine(s.pendingPops, first, second) {
      var i, j :| 0 <= i < j < |s.pendingPops| && s.pendingPops[i] == first && s.pendingPops[j] == second;
      WaitingPop(s, j);
      RetryPopsPasses(s, s.pendingPops, [], env, i, j);
    }
    hide InLine;
    PassesKeeps(s, t, from, first, second);
  }

  lemma ExpireKeeps(s: State, now: nat, from: nat, first: PendingPop, second: PendingPop)
    requires Queued(s, from, first, second)
    ensures Queued(ExpirePops(s, s.pendingPops, [], now), from, first, second)
  {
    hide Account, ExpirePops, Passes, Fair, AnsweredFrom, InLine, PopAccount;
    ExpirePopsAccount(s, s.pendingPops, [], now);
    WholeQueues(s);
    ExpirePopsPasses(s, s.pendingPops, [], now, first, second);
    assert [] + s.pendingPops == s.pendingPops;
    PassesKeeps(s, ExpirePops(s, s.pendingPops, [], now), from, first, second);
  }

  lemma CancelKeeps(s: State, client: ClientId, from: nat, first: PendingPop, second: PendingPop)
    requires Queued(s, from, first, second)
    ensures Queued(CancelPops(s, s.pendingPops, [], client), from, first, second)
  {
    hide Account, CancelPops, Passes, Fair, AnsweredFrom, InLine, PopAccount;
    CancelPopsAccount(s, s.pendingPops, [], client);
    WholeQueues(s);
    CancelPopsPasses(s, s.pendingPops, [], client, first, second);
    assert [] + s.pendingPops == s.pendingPops;
    PassesKeeps(s, CancelPops(s, s.pendingPops, [], client), from, first, second);
  }

  /* ---------- Whole turns and runs ---------- */

  lemma RetryAllQueued(s: State, env: Env, from: nat, first: PendingPop, second: PendingPop)
    requires DbOk(s.db) && first.key == second.key && Queued(s, from, first, second)
    ensures Queued(RetryAll(s, env), from, first, second)
  {
    hide DbOk, Account, RetryPops, RetryReads, RetryWaits, Fair, AnsweredFrom, InLine, ReadAccount, WaitsAccount;
    RetryKeeps(s, env, from, first, second);
    var a := RetryPops(s, s.pendingPops, [], env);
    var b := RetryReads(a, a.pendingReads, [], env);
    WholeQueues(a);
    RetryReadsAccount(a, a.pendingReads, [], env);
    RetryReadsGrows(a, a.pendingReads, [], env);
    GrownKeeps(a, b, from, first, second);
    WholeQueues(b);
    RetryWaitsAccount(b, b.pendingWaits, []);
    RetryWaitsGrows(b, b.pendingWaits, []);
    GrownKeeps(b, RetryWaits(b, b.pendingWaits, []), from, first, second);
  }

  lemma ExpireAllQueued(s: State, now: nat, from: nat, first: PendingPop, second: PendingPop)
    requires Queued(s, from, first, second)
    ensures Queued(ExpireAll(s, now), from, first, second)
  {
    hide Account, ExpirePops, ExpireReads, ExpireWaits, Fair, AnsweredFrom, InLine, ReadAccount, WaitsAccount;
    ExpireKeeps(s, now, from, first, second);
    var a := ExpirePops(s, s.pendingPops, [], now);
    var b := ExpireReads(a, a.pendingReads, [], now);
    WholeQueues(a);
    ExpireReadsAccount(a, a.pendingReads, [], now);
    ExpireReadsGrows(a, a.pendingReads, [], now);
    GrownKeeps(a, b, from, first, second);
    WholeQueues(b);
    ExpireWaitsAccount(b, b.pendingWaits, [], now);
    ExpireWaitsGrows(b, b.pendingWaits, [], now);
    GrownKeeps(b, ExpireWaits(b, b.pendingWaits, [], now), from, first, second);
  }

  lemma UnregisterQueued(s: State, client: ClientId, from: nat, first: PendingPop, second: PendingPop)
    requires Queued(s, from, first, second)
    ensures Queued(ProcessUnregister(s, client), from, first, second)
  {
    hide Account, CancelPops, CancelReads, CancelWaits, Fair, AnsweredFrom, InLine, Forget, Unregister;
    CancelKeeps(s, client, from, first, second);
    var a := CancelPops(s, s.pendingPops, [], client);
    var b := CancelReads(a, s.pendingReads, [], client);
    var c := CancelWaits(b, s.pendingWaits, [], client);
    UnregisterAccount(s, client);
    CancelReadsGrows(a, s.pendingReads, [], client);
    CancelReadsOthers(a, s.pendingReads, [], client);
    CancelWaitsGrows(b, s.pendingWaits, [], client);
    GrownKeeps(a, ProcessUnregister(s, client), from, first, second);
  }

  lemma ProcessQueued(s: State, t: ProcessorTask, env: Env, from: nat, first: PendingPop, second: PendingPop)
    requires Queued(s, from, first, second) && Elsewhere(Work(t, env), second.task.id)
    ensures Queued(Process(s, t, env), from, first, second)
  {
    hide Account, Process, ProcessUnregister, Fair, AnsweredFrom, InLine;
    if t.UnregisterClient? {
      UnregisterQueued(s, t.client, from, first, second);
      UnregisterProcessed(s, t.client, env);
    } else {
      ProcessGrows(s, t, env);
      ProcessAccount(s, t, env);
      GrownKeeps(s, Process(s, t, env), from, first, second);
    }
  }

  lemma UnregisterProcessed(s: State, client: ClientId, env: Env)
    ensures Process(s, UnregisterClient(client), env) == ProcessUnregister(s, client)
  {
    hide ProcessUnregister;
  }

  lemma ProcessedDb(s: State, t: ProcessorTask, env: Env)
    requires DbOk(s.db) && ClocksRun(env)
    ensures DbOk(Process(s, t, env).db)
  {
    hide DbOk, Process, ClocksRun, Evolves, Accounted, Mirror, Extends;
    if t.RegisterClient? {
      RegisterClientKeeps(s, t.client, env);
    } else {
      ProcessKeeps(s, t, env, CLOCK_ONLY);
    }
  }

  /** Every event keeps two pops fair. */
  lemma NextQueued(s: State, event: Event, from: nat, first: PendingPop, second: PendingPop)
    requires DbOk(s.db) && Timely(event) && Elsewhere(event, second.task.id)
    requires first.key == second.key && Queued(s, from, first, second)
    ensures Queued(Next(s, event), from, first, second)
  {
    match event {
      case Work(t, env) =>
        hide DbOk, ClocksRun, Queued, Process, RetryAll, ExpireAll;
        ProcessedDb(s, t, env);
        ProcessQueued(s, t, env, from, first, second);
        RetryAllQueued(Process(s, t, env), env, from, first, second);
        ExpireAllQueued(RetryAll(Process(s, t, env), env), env.now, from, first, second);
      case Tick(now) =>
        hide DbOk, Queued, ExpireAll;
        ExpireAllQueued(s, now, from, first, second);
      case Connection(_, _) =>
        hide DbOk, Fair, AnsweredFrom, InLine, StepSessions;
    }
  }

  lemma {:induction false} RunQueued(s: State, events: seq<Event>, from: nat, first: PendingPop, second: PendingPop)
    requires DbOk(s.db) && AllTimely(events) && AllElsewhere(events, second.task.id)
    requires first.key == second.key && Queued(s, from, first, second)
    ensures Queued(Run(s, events), from, first, second)
    decreases |events|
  {
    hide DbOk, Queued, Next, ClocksRun;
    if events != [] {
      var event := events[0];
      assert Timely(event) && Elsewhere(event, second.task.id);
      EventDb(s, event);
      NextQueued(s, event, from, first, second);
      RunQueued(Next(s, event), events[1..], from, first, second);
    }
  }

  /** The first answer to the first promise comes before position q, and after everything in s. */
  ghost predicate AnsweredBefore(replies: seq<Reply>, from: nat, q: nat, id: TaskId) {
    exists p :: from <= p < q && p < |replies| && replies[p].id == id
  }

  /**
   First come, first served: of two clients that wait for the same key, whatever happens next, the
   second is served only after the first has been answered, be it with an element, a timeout or a
   cancellation.
   */
  lemma FirstComeFirstServed(s: State, i: nat, j: nat, events: seq<Event>, q: nat)
    requires i < j < |s.pendingPops| && s.pendingPops[i].key == s.pendingPops[j].key
    requires DbOk(s.db) && AllTimely(events)
    requires Account(s)[s.pendingPops[j].task.id] == 1 && AllElsewhere(events, s.pendingPops[j].task.id)
    requires q < |Run(s, events).replies| && Served(Run(s, events).replies[q], s.pendingPops[j].task.id)
    ensures AnsweredBefore(Run(s, events).replies, |s.replies|, q, s.pendingPops[i].task.id)
  {
    var first, second := s.pendingPops[i], s.pendingPops[j];
    WaitingPop(s, j);
    SilentFair(s.replies, |s.replies|, first.task.id, second.task.id);
    assert InLine(s.pendingPops, first, second);
    hide DbOk, AllTimely, AllElsewhere, Account, Run;
    RunQueued(s, events, |s.replies|, first, second);
    RunReplies(s, events);
    FairlyServed(Run(s, events).replies, |s.replies|, first.task.id, second.task.id, s.replies, q);
  }

  lemma FairlyServed(replies: seq<Reply>, from: nat, first: TaskId, second: TaskId, earlier: seq<Reply>, q: nat)
    requires Fair(replies, from, first, second) && q < |replies| && Served(replies[q], second)
    requires earlier <= replies && |earlier| == from && SilentFrom(earlier, 0, second)
    ensures AnsweredBefore(replies, from, q, first)
  {
    if q < from {
      assert false;
    }
    var p :| from <= p < |replies[..q]| && replies[..q][p].id == first;
    assert replies[p].id == first;
  }

  /** Replies are never taken back. */
  lemma {:induction false} RunReplies(s: State, events: seq<Event>)
    ensures s.replies <= Run(s, events).replies
    decreases |events|
  {
    hide Next;
    if events != [] {
      NextReplies(s, events[0]);
      RunReplies(Next(s, events[0]), events[1..]);
    }
  }

  lemma NextReplies(s: State, event: Event)
    ensures s.replies <= Next(s, event).replies
  {
    hide Process, RetryAll, ExpireAll, StepSessions;
    match event {
      case Work(t, env) =>
        ProcessReplies(s, t, env);
        RetryReplies(Process(s, t, env), env);
        ExpireReplies(RetryAll(Process(s, t, env), env), env.now);
      case Tick(now) => ExpireReplies(s, now);
      case Connection(_, _) =>
    }
  }

  lemma ProcessReplies(s: State, t: ProcessorTask, env: Env)
    ensures s.replies <= Process(s, t, env).replies
  {
    if t.UnregisterClient? {
      hide CancelPops, CancelReads, CancelWaits, Forget, Unregister;
      var a := CancelPops(s, s.pendingPops, [], t.client);
      var b := CancelReads(a, s.pendingReads, [], t.client);
      CancelPopsGrows(s, s.pendingPops, [], t.client);
      CancelReadsGrows(a, s.pendingReads, [], t.client);
      CancelWaitsGrows(b, s.pendingWaits, [], t.client);
    } else {
      hide Process;
      ProcessGrows(s, t, env);
    }
  }

  lemma RetryReplies(s: State, env: Env)
    ensures s.replies <= RetryAll(s, env).replies
  {
    hide RetryPops, RetryReads, RetryWaits;
    var a := RetryPops(s, s.pendingPops, [], env);
    var b := RetryReads(a, a.pendingReads, [], env);
    RetryPopsGrows(s, s.pendingPops, [], env);
    RetryReadsGrows(a, a.pendingReads, [], env);
    RetryWaitsGrows(b, b.pendingWaits, []);
  }

  lemma ExpireReplies(s: State, now: nat)
    ensures s.replies <= ExpireAll(s, now).replies
  {
    hide ExpirePops, ExpireReads, ExpireWaits;
    var a := ExpirePops(s, s.pendingPops, [], now);
    var b := ExpireReads(a, a.pendingReads, [], now);
    ExpirePopsGrows(s, s.pendingPops, [], now);
    ExpireReadsGrows(a, a.pendingReads, [], now);
    ExpireWaitsGrows(b, b.pendingWaits, [], now);
  }

  /* ---------- The newcomer ---------- */

  /** BLPOP put its task at the end of the queue. */
  ghost predicate Joined(s: State, t: State, task: Task)
    requires |task.command| > 1
  {
    && t.replies == s.replies
    && exists deadline :: t.pendingPops == s.pendingPops + [PendingPop(task, task.command[1], deadline)]
  }

  /** The answers to a command that is not admitted, is malformed, or is queued in a transaction. */
  predicate TurnedAway(response: Response) {
    || response == ERR || response == NOAUTH || response == READONLY || response == NoResponse
    || response == SimpleString("QUEUED")
  }

  /** The task was turned away, or queued in a transaction. */
  ghost predicate Refused(s: State, t: State, task: Task) {
    exists response :: t.replies == s.replies + [Reply(task.id, response)] && TurnedAway(response)
  }

  lemma BlpopJoins(s: State, task: Task, env: Env, i: nat)
    requires Quiet(s) && i < |s.pendingPops| && |task.command| > 1 && s.pendingPops[i].key == task.command[1]
    ensures var t := ProcessBlpop(s, task, env); Joined(s, t, task) || Refused(s, t, task)
  {
    hide AttemptPop, Quiet, Fulfils;
    var t := ProcessBlpop(s, task, env);
    if |task.command| != 3 || env.context(0).timeout(task.command[2]).None? {
      assert t.replies == s.replies + [Reply(task.id, ERR)] && TurnedAway(ERR);
    } else {
      var attempt := AttemptPop(s, task, task.command[1], env);
      AttemptFulfils(s, task, task.command[1], env);
      if attempt.served {
        NewcomerDoesNotOvertake(s, task, task.command[1], env);
        assert false;
      }
      var deadline := Deadline(env.now, env.context(0).timeout(task.command[2]).value);
      assert t.pendingPops == s.pendingPops + [PendingPop(task, task.command[1], deadline)];
    }
  }

  /** A client in a transaction is told that the command was queued. */
  lemma QueuedRefused(s: State, task: Task, env: Env)
    requires task.command != [] && task.client in s.transactions
    requires VerbOf(task.command).Blpop? || VerbOf(task.command).Xread? || VerbOf(task.command).Wait?
    ensures Refused(s, ProcessDirect(s, task, env), task)
  {
    hide VerbOf, Conclude, Refused, Record, Dispatch;
    var processed := ProcessCommand(s, task.client, task.command, task.source, env);
    ConcludeRefused(s, processed.state, task, !processed.response.SimpleError?, processed.response, env);
  }

  lemma ConcludeRefused(s: State, middle: State, task: Task, succeeded: bool, response: Response, env: Env)
    requires middle.replies == s.replies && TurnedAway(response)
    ensures Refused(s, Conclude(middle, task, succeeded, response, env), task)
  {
    hide Deflect;
    var advanced := if task.source.FromMaster? && succeeded
                    then middle.(replication := middle.replication.(offset := middle.replication.offset + task.bytes)) else middle;
    DeflectedAnswer(advanced, task.client, env);
    assert TurnedAway(Deflect(advanced, task.client, env).response);
  }

  lemma DeflectedAnswer(s: State, client: ClientId, env: Env)
    ensures Deflect(s, client, env).state.replies == s.replies
    ensures var response := Deflect(s, client, env).response; response == NoResponse || response == ERR
  {
  }

  lemma RefuseRefused(s: State, task: Task, response: Response, env: Env)
    requires response == NOAUTH || response == ERR
    ensures Refused(s, Refuse(s, task, response, env), task)
  {
    hide Deflect;
    DeflectedAnswer(s, task.client, env);
    assert TurnedAway(response) && TurnedAway(Deflect(s, task.client, env).response);
  }

  lemma RefuseWriteRefused(s: State, task: Task)
    ensures Refused(s, RefuseWrite(s, task), task)
  {
    assert TurnedAway(READONLY);
  }

  lemma TaskJoins(s: State, task: Task, env: Env, i: nat)
    requires Quiet(s) && i < |s.pendingPops| && |task.command| > 1 && s.pendingPops[i].key == task.command[1]
    requires VerbOf(task.command).Blpop?
    ensures var t := ProcessTask(s, task, env); Joined(s, t, task) || Refused(s, t, task)
  {
    hide Quiet, VerbOf, IsWrite, Joined, Refused, Refuse, RefuseWrite, ProcessDirect, ProcessBlpop, ProcessXread, ProcessWait;
    RefuseRefused(s, task, NOAUTH, env);
    RefuseRefused(s, task, ERR, env);
    RefuseWriteRefused(s, task);
    if task.client in s.transactions {
      QueuedRefused(s, task, env);
    }
    BlpopJoins(s, task, env, i);
  }

  /** Either way the newcomer stands behind the client that already waits. */
  lemma NewcomerQueued(s: State, task: Task, env: Env, i: nat) returns (pop: PendingPop)
    requires Quiet(s) && i < |s.pendingPops| && |task.command| > 1 && s.pendingPops[i].key == task.command[1]
    requires VerbOf(task.command).Blpop? && Account(s)[task.id] == 0
    ensures pop.task == task && pop.key == task.command[1]
    ensures Queued(ProcessTask(s, task, env), |s.replies|, s.pendingPops[i], pop)
  {
    hide Quiet, VerbOf, Account, ProcessTask;
    var t := ProcessTask(s, task, env);
    TaskAccount(s, task, env);
    TaskJoins(s, task, env, i);
    if Joined(s, t, task) {
      var deadline :| t.pendingPops == s.pendingPops + [PendingPop(task, task.command[1], deadline)];
      pop := PendingPop(task, task.command[1], deadline);
      assert t.pendingPops[i] == s.pendingPops[i] && t.pendingPops[|s.pendingPops|] == pop;
      SilentFair(t.replies, |s.replies|, s.pendingPops[i].task.id, task.id);
    } else {
      pop := PendingPop(task, task.command[1], None);
      assert t.replies[|s.replies|].id == task.id;
    }
  }

  /**
   A client that arrives while another already waits for the same key gets nothing before the other
   has been answered, whatever else happens in between.
   */
  lemma NewcomerWaitsItsTurn(s: State, i: nat, task: Task, env: Env, events: seq<Event>, q: nat)
    requires DbOk(s.db) && Quiet(s) && i < |s.pendingPops|
    requires VerbOf(task.command).Blpop? && |task.command| > 1 && s.pendingPops[i].key == task.command[1]
    requires Account(s)[task.id] == 0 && AllElsewhere(events, task.id)
    requires ClocksRun(env) && AllTimely(events)
    requires var t := Run(s, [Work(CommandTask(task), env)] + events); q < |t.replies| && Served(t.replies[q], task.id)
    ensures AnsweredBefore(Run(s, [Work(CommandTask(task), env)] + events).replies, |s.replies|, q, s.pendingPops[i].task.id)
  {
    var first := s.pendingPops[i];
    var pop := NewcomerQueued(s, task, env, i);
    NowhereSilent(s, task.id);
    var after := Step(s, CommandTask(task), env);
    RunFirst(s, Work(CommandTask(task), env), events);
    hide DbOk, Quiet, VerbOf, Account, AllElsewhere, AllTimely, ClocksRun, Queued, Served, Run;
    NewcomerStep(s, task, env, first, pop);
    RunQueued(after, events, |s.replies|, first, pop);
    NextReplies(s, Work(CommandTask(task), env));
    RunReplies(after, events);
    QueuedFair(Run(after, events), |s.replies|, first, pop);
    FairlyServed(Run(after, events).replies, |s.replies|, first.task.id, task.id, s.replies, q);
  }

  lemma QueuedFair(s: State, from: nat, first: PendingPop, second: PendingPop)
    requires Queued(s, from, first, second)
    ensures Fair(s.replies, from, first.task.id, second.task.id)
  {
  }

  lemma NewcomerStep(s: State, task: Task, env: Env, first: PendingPop, pop: PendingPop)
    requires DbOk(s.db) && ClocksRun(env) && first.key == pop.key
    requires Queued(ProcessTask(s, task, env), |s.replies|, first, pop)
    ensures Queued(Step(s, CommandTask(task), env), |s.replies|, first, pop)
    ensures DbOk(Step(s, CommandTask(task), env).db)
  {
    hide DbOk, ClocksRun, Queued, ProcessTask, RetryAll, ExpireAll;
    ProcessedDb(s, CommandTask(task), env);
    var processed := ProcessTask(s, task, env);
    RetryAllQueued(processed, env, |s.replies|, first, pop);
    ExpireAllQueued(RetryAll(processed, env), env.now, |s.replies|, first, pop);
    EventDb(s, Work(CommandTask(task), env));
  }
}
