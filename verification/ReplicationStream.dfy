/** The master's replication stream: byte offsets, the backlog of frames, and one session per replica. */
module ReplicationStream {
  import opened Decimal
  import opened Channels

  datatype Role = Master | Replica

  datatype Frame = Frame(payload: Bytes, endingOffset: nat)

  /**
   A replica session: the frames already handed to the sending thread, those still queued, whether it
   was closed, and whether its connection thread still holds it.
   */
  datatype Session = Session(
    client: ClientId, startingOffset: nat, delivered: seq<Frame>, pending: seq<Frame>, closed: bool, alive: bool)

  datatype Replication = Replication(
    role: Role, offset: nat, backlog: seq<Frame>, sessions: seq<Session>,
    acknowledged: map<ClientId, nat>, writeOffsets: map<ClientId, nat>)

  function Enqueue(session: Session, frame: Frame): Session {
    if session.closed then session else session.(pending := session.pending + [frame])
  }

  /** Dropped sessions are erased on the way. */
  function EnqueueAll(sessions: seq<Session>, frame: Frame): seq<Session> {
    if sessions == [] then []
    else if !sessions[0].alive then EnqueueAll(sessions[1..], frame)
    else [Enqueue(sessions[0], frame)] + EnqueueAll(sessions[1..], frame)
  }

  /** append_replication_frame. */
  function AppendFrame(r: Replication, payload: Bytes): Replication {
    var frame := Frame(payload, r.offset + |payload|);
    r.(offset := frame.endingOffset, backlog := r.backlog + [frame], sessions := EnqueueAll(r.sessions, frame))
  }

  /** append_client_replication_frame. */
  function AppendClientFrame(r: Replication, client: ClientId, payload: Bytes): Replication {
    var appended := AppendFrame(r, payload);
    appended.(writeOffsets := appended.writeOffsets[client := appended.offset])
  }

  function Live(sessions: seq<Session>): seq<Session> {
    if sessions == [] then []
    else if sessions[0].alive then [sessions[0]] + Live(sessions[1..])
    else Live(sessions[1..])
  }

  /** Whether a session counts towards a WAIT for `target`. */
  predicate Reached(session: Session, acknowledged: map<ClientId, nat>, target: nat) {
    target == 0 || (session.client in acknowledged && acknowledged[session.client] >= target)
  }

  /** count_acknowledged_replicas on the sessions that are still there. */
  function CountReached(sessions: seq<Session>, acknowledged: map<ClientId, nat>, target: nat): nat {
    if sessions == [] then 0
    else (if sessions[0].alive && Reached(sessions[0], acknowledged, target) then 1 else 0)
         + CountReached(sessions[1..], acknowledged, target)
  }

  /** The places of the live sessions whose replica has acknowledged `target`; without a target, of all live ones. */
  function AtTarget(sessions: seq<Session>, acknowledged: map<ClientId, nat>, target: nat): set<int> {
    set i | 0 <= i < |sessions| && sessions[i].alive
            && (target == 0 || (sessions[i].client in acknowledged && acknowledged[sessions[i].client] >= target))
  }

  lemma {:induction false} CountLast(sessions: seq<Session>, last: Session, acknowledged: map<ClientId, nat>, target: nat)
    ensures CountReached(sessions + [last], acknowledged, target) ==
            CountReached(sessions, acknowledged, target) + CountReached([last], acknowledged, target)
    decreases |sessions|
  {
    hide Reached;
    if sessions == [] {
      assert sessions + [last] == [last];
    } else {
      assert (sessions + [last])[1..] == sessions[1..] + [last] && (sessions + [last])[0] == sessions[0];
      CountLast(sessions[1..], last, acknowledged, target);
    }
  }

  lemma CountOne(session: Session, acknowledged: map<ClientId, nat>, target: nat)
    ensures CountReached([session], acknowledged, target) == if 0 in AtTarget([session], acknowledged, target) then 1 else 0
  {
    assert [session][1..] == [];
  }

  lemma AtTargetLast(sessions: seq<Session>, last: Session, acknowledged: map<ClientId, nat>, target: nat)
    ensures AtTarget(sessions + [last], acknowledged, target) ==
            AtTarget(sessions, acknowledged, target)
            + if 0 in AtTarget([last], acknowledged, target) then {|sessions|} else {}
  {
  }

  /** The counting loop counts exactly these. */
  lemma {:induction false} CountIsExact(sessions: seq<Session>, acknowledged: map<ClientId, nat>, target: nat)
    ensures CountReached(sessions, acknowledged, target) == |AtTarget(sessions, acknowledged, target)|
    decreases |sessions|
  {
    if sessions == [] {
      assert AtTarget(sessions, acknowledged, target) == {};
    } else {
      var n := |sessions| - 1;
      var before, last := sessions[..n], sessions[n];
      assert sessions == before + [last];
      CountIsExact(before, acknowledged, target);
      hide CountReached;
      CountLast(before, last, acknowledged, target);
      CountOne(last, acknowledged, target);
      AtTargetLast(before, last, acknowledged, target);
      assert n !in AtTarget(before, acknowledged, target);
    }
  }

  function Prune(r: Replication): Replication {
    r.(sessions := Live(r.sessions))
  }

  function Register(r: Replication, client: ClientId): Replication {
    r.(sessions := r.sessions + [Session(client, r.offset, [], [], false, true)])
  }

  function Acknowledge(r: Replication, client: ClientId, offset: nat): Replication {
    var known := if client in r.acknowledged then r.acknowledged[client] else 0;
    r.(acknowledged := r.acknowledged[client := if known < offset then offset else known])
  }

  function Unregister(r: Replication, client: ClientId): Replication {
    r.(acknowledged := r.acknowledged - {client}, writeOffsets := r.writeOffsets - {client})
  }

  /* ---------- Steps of the connection threads ---------- */

  /** wait_for_frame returns the front frame of an open session. */
  function Deliver(session: Session): Session {
    if session.closed || session.pending == [] then session
    else session.(delivered := session.delivered + [session.pending[0]], pending := session.pending[1..])
  }

  datatype SessionStep = DeliverFrame | CloseSession | DropSession

  function StepSession(session: Session, step: SessionStep): Session {
    match step
    case DeliverFrame => Deliver(session)
    case CloseSession => session.(closed := true)
    case DropSession => session.(alive := false)
  }

  function StepSessions(r: Replication, i: nat, step: SessionStep): Replication {
    if i < |r.sessions| then r.(sessions := r.sessions[i := StepSession(r.sessions[i], step)]) else r
  }

  /* ---------- Accounting ---------- */

  /** Total payload bytes. */
  function Size(frames: seq<Frame>): nat {
    if frames == [] then 0 else Size(frames[..|frames| - 1]) + |frames[|frames| - 1].payload|
  }

  /** Every frame's ending offset is the size of the stream up to and including it. */
  predicate OffsetsTrue(frames: seq<Frame>) {
    forall i :: 0 <= i < |frames| ==> frames[i].endingOffset == Size(frames[..i + 1])
  }

  /** The session has seen, in order, what the backlog holds from position `k` on; all of it while open. */
  predicate FollowsFrom(session: Session, backlog: seq<Frame>, k: nat) {
    && k <= |backlog|
    && session.startingOffset == Size(backlog[..k])
    && session.delivered + session.pending <= backlog[k..]
    && (!session.closed ==> session.delivered + session.pending == backlog[k..])
  }

  ghost predicate Follows(session: Session, backlog: seq<Frame>) {
    exists k: nat :: FollowsFrom(session, backlog, k)
  }

  ghost predicate SessionsFollow(sessions: seq<Session>, backlog: seq<Frame>) {
    forall i :: 0 <= i < |sessions| ==> Follows(sessions[i], backlog)
  }

  /** A write offset is the end of some frame. */
  ghost predicate FrameEnd(offset: nat, backlog: seq<Frame>) {
    exists i :: 0 <= i < |backlog| && backlog[i].endingOffset == offset
  }

  ghost predicate WritesAtFrameEnds(writeOffsets: map<ClientId, nat>, backlog: seq<Frame>) {
    forall client :: client in writeOffsets ==> FrameEnd(writeOffsets[client], backlog)
  }

  /** The whole account of the stream on a master. */
  ghost predicate Accounted(r: Replication) {
    r.role.Master? ==>
      && r.offset == Size(r.backlog)
      && OffsetsTrue(r.backlog)
      && SessionsFollow(r.sessions, r.backlog)
      && WritesAtFrameEnds(r.writeOffsets, r.backlog)
  }

  lemma SizeExtended(frames: seq<Frame>, frame: Frame)
    ensures Size(frames + [frame]) == Size(frames) + |frame.payload|
  {
    assert (frames + [frame])[..|frames|] == frames;
  }

  lemma {:induction false} SizeMonotone(frames: seq<Frame>, i: nat, j: nat)
    requires i <= j <= |frames|
    ensures Size(frames[..i]) <= Size(frames[..j])
    decreases j
  {
    if i < j {
      SizeMonotone(frames, i, j - 1);
      assert frames[..j][..j - 1] == frames[..j - 1];
    }
  }

  lemma OffsetsExtended(frames: seq<Frame>, frame: Frame)
    requires OffsetsTrue(frames) && frame.endingOffset == Size(frames) + |frame.payload|
    ensures OffsetsTrue(frames + [frame])
  {
    hide Size;
    var longer := frames + [frame];
    SizeExtended(frames, frame);
    forall i | 0 <= i < |longer| ensures longer[i].endingOffset == Size(longer[..i + 1]) {
      if i < |frames| {
        assert longer[..i + 1] == frames[..i + 1];
      } else {
        assert longer[..i + 1] == longer;
      }
    }
  }

  lemma EnqueueFollows(session: Session, backlog: seq<Frame>, frame: Frame)
    requires Follows(session, backlog)
    ensures Follows(Enqueue(session, frame), backlog + [frame])
  {
    hide Size;
    var k: nat :| FollowsFrom(session, backlog, k);
    assert (backlog + [frame])[..k] == backlog[..k];
    assert (backlog + [frame])[k..] == backlog[k..] + [frame];
    assert !session.closed ==>
        session.delivered + (session.pending + [frame]) == session.delivered + session.pending + [frame];
    assert FollowsFrom(Enqueue(session, frame), backlog + [frame], k);
  }

  lemma {:induction false} EnqueueAllFollow(sessions: seq<Session>, backlog: seq<Frame>, frame: Frame)
    requires SessionsFollow(sessions, backlog)
    ensures SessionsFollow(EnqueueAll(sessions, frame), backlog + [frame])
  {
    hide Follows;
    if sessions != [] {
      EnqueueAllFollow(sessions[1..], backlog, frame);
      assert Follows(sessions[0], backlog);
      EnqueueFollows(sessions[0], backlog, frame);
    }
  }

  lemma WritesExtended(writeOffsets: map<ClientId, nat>, backlog: seq<Frame>, frame: Frame)
    requires WritesAtFrameEnds(writeOffsets, backlog)
    ensures WritesAtFrameEnds(writeOffsets, backlog + [frame])
  {
    forall client | client in writeOffsets ensures FrameEnd(writeOffsets[client], backlog + [frame]) {
      var i :| 0 <= i < |backlog| && backlog[i].endingOffset == writeOffsets[client];
      assert (backlog + [frame])[i] == backlog[i];
    }
  }

  /** Appending a frame keeps the account. */
  lemma AppendAccounted(r: Replication, payload: Bytes)
    requires Accounted(r) && r.role.Master?
    ensures Accounted(AppendFrame(r, payload))
  {
    hide Size, OffsetsTrue, SessionsFollow, WritesAtFrameEnds;
    var frame := Frame(payload, r.offset + |payload|);
    SizeExtended(r.backlog, frame);
    OffsetsExtended(r.backlog, frame);
    EnqueueAllFollow(r.sessions, r.backlog, frame);
    WritesExtended(r.writeOffsets, r.backlog, frame);
  }

  /** A client's write offset is the end of its latest frame. */
  lemma AppendClientAccounted(r: Replication, client: ClientId, payload: Bytes)
    requires Accounted(r) && r.role.Master?
    ensures Accounted(AppendClientFrame(r, client, payload))
  {
    hide Size, OffsetsTrue, SessionsFollow;
    AppendAccounted(r, payload);
    var after := AppendFrame(r, payload);
    assert after.backlog[|r.backlog|].endingOffset == after.offset;
    assert FrameEnd(after.offset, after.backlog);
  }

  lemma {:induction false} LiveFollow(sessions: seq<Session>, backlog: seq<Frame>)
    requires SessionsFollow(sessions, backlog)
    ensures SessionsFollow(Live(sessions), backlog)
  {
    hide Follows;
    if sessions != [] {
      LiveFollow(sessions[1..], backlog);
      assert Follows(sessions[0], backlog);
    }
  }

  lemma PruneAccounted(r: Replication)
    requires Accounted(r)
    ensures Accounted(Prune(r))
  {
    hide Size, OffsetsTrue, SessionsFollow, WritesAtFrameEnds;
    if r.role.Master? {
      LiveFollow(r.sessions, r.backlog);
    }
  }

  /** A new session starts at the end of the stream. */
  lemma RegisterAccounted(r: Replication, client: ClientId)
    requires Accounted(r)
    ensures Accounted(Register(r, client))
  {
    hide Size, OffsetsTrue, WritesAtFrameEnds;
    if r.role.Master? {
      var session := Session(client, r.offset, [], [], false, true);
      assert r.backlog[..|r.backlog|] == r.backlog && r.backlog[|r.backlog|..] == [];
      assert FollowsFrom(session, r.backlog, |r.backlog|);
    }
  }

  lemma AcknowledgeAccounted(r: Replication, client: ClientId, offset: nat)
    requires Accounted(r)
    ensures Accounted(Acknowledge(r, client, offset))
  {
    hide Size, OffsetsTrue, SessionsFollow, WritesAtFrameEnds;
  }

  lemma UnregisterAccounted(r: Replication, client: ClientId)
    requires Accounted(r)
    ensures Accounted(Unregister(r, client))
  {
    hide Size, OffsetsTrue, SessionsFollow, FrameEnd;
  }

  lemma StepSessionFollows(session: Session, backlog: seq<Frame>, step: SessionStep)
    requires Follows(session, backlog)
    ensures Follows(StepSession(session, step), backlog)
  {
    hide Size;
    var k: nat :| FollowsFrom(session, backlog, k);
    var after := StepSession(session, step);
    assert after.delivered + after.pending == session.delivered + session.pending;
    assert FollowsFrom(after, backlog, k);
  }

  /** Sending, closing and dropping sessions keeps the account. */
  lemma StepSessionsAccounted(r: Replication, i: nat, step: SessionStep)
    requires Accounted(r)
    ensures Accounted(StepSessions(r, i, step))
  {
    hide Size, OffsetsTrue, WritesAtFrameEnds, Follows;
    if r.role.Master? && i < |r.sessions| {
      assert Follows(r.sessions[i], r.backlog);
      StepSessionFollows(r.sessions[i], r.backlog, step);
    }
  }

  /* ---------- Attached replicas ---------- */

  /** An open session of `client` that started behind `k` frames and has been handed `delivered` so far. */
  predicate IsAttached(session: Session, backlog: seq<Frame>, client: ClientId, k: nat, delivered: seq<Frame>) {
    && session.client == client && session.alive && !session.closed && session.delivered == delivered
    && FollowsFrom(session, backlog, k)
  }

  ghost predicate Attached(r: Replication, client: ClientId, k: nat, delivered: seq<Frame>) {
    exists i :: 0 <= i < |r.sessions| && IsAttached(r.sessions[i], r.backlog, client, k, delivered)
  }

  /** The backlog only grows, and attached sessions stay attached. */
  ghost predicate Extends(r: Replication, t: Replication) {
    && r.backlog <= t.backlog
    && forall client: ClientId, k: nat, delivered: seq<Frame> ::
         Attached(r, client, k, delivered) ==> Attached(t, client, k, delivered)
  }

  lemma ExtendsSame(r: Replication, t: Replication)
    requires t.backlog == r.backlog && t.sessions == r.sessions
    ensures Extends(r, t)
  {
    hide IsAttached;
  }

  lemma ExtendsTrans(a: Replication, b: Replication, c: Replication)
    requires Extends(a, b) && Extends(b, c)
    ensures Extends(a, c)
  {
    hide Attached;
  }

  lemma {:induction false} EnqueueAllKeeps(sessions: seq<Session>, frame: Frame, i: nat) returns (j: nat)
    requires i < |sessions| && sessions[i].alive
    ensures j < |EnqueueAll(sessions, frame)| && EnqueueAll(sessions, frame)[j] == Enqueue(sessions[i], frame)
    decreases |sessions|
  {
    if i == 0 {
      j := 0;
    } else {
      j := EnqueueAllKeeps(sessions[1..], frame, i - 1);
      if sessions[0].alive {
        j := j + 1;
      }
    }
  }

  lemma {:induction false} LiveKeeps(sessions: seq<Session>, i: nat) returns (j: nat)
    requires i < |sessions| && sessions[i].alive
    ensures j < |Live(sessions)| && Live(sessions)[j] == sessions[i]
    decreases |sessions|
  {
    if i == 0 {
      j := 0;
    } else {
      j := LiveKeeps(sessions[1..], i - 1);
      if sessions[0].alive {
        j := j + 1;
      }
    }
  }

  lemma EnqueueAttached(session: Session, backlog: seq<Frame>, frame: Frame, client: ClientId, k: nat, delivered: seq<Frame>)
    requires IsAttached(session, backlog, client, k, delivered)
    ensures IsAttached(Enqueue(session, frame), backlog + [frame], client, k, delivered)
  {
    hide Size;
    assert (backlog + [frame])[..k] == backlog[..k];
    assert (backlog + [frame])[k..] == backlog[k..] + [frame];
    assert session.delivered + (session.pending + [frame]) == session.delivered + session.pending + [frame];
  }

  lemma AppendExtends(r: Replication, payload: Bytes)
    ensures Extends(r, AppendFrame(r, payload))
  {
    hide EnqueueAll, IsAttached, Enqueue;
    var t := AppendFrame(r, payload);
    var frame := Frame(payload, r.offset + |payload|);
    forall client: ClientId, k: nat, delivered: seq<Frame> | Attached(r, client, k, delivered)
      ensures Attached(t, client, k, delivered)
    {
      var i :| 0 <= i < |r.sessions| && IsAttached(r.sessions[i], r.backlog, client, k, delivered);
      AttachedAlive(r.sessions[i], r.backlog, client, k, delivered);
      var j := EnqueueAllKeeps(r.sessions, frame, i);
      EnqueueAttached(r.sessions[i], r.backlog, frame, client, k, delivered);
    }
  }

  lemma AttachedAlive(session: Session, backlog: seq<Frame>, client: ClientId, k: nat, delivered: seq<Frame>)
    requires IsAttached(session, backlog, client, k, delivered)
    ensures session.alive
  {
  }

  lemma AppendClientExtends(r: Replication, client: ClientId, payload: Bytes)
    ensures Extends(r, AppendClientFrame(r, client, payload))
  {
    hide AppendFrame, Extends;
    AppendExtends(r, payload);
    var appended := AppendFrame(r, payload);
    ExtendsSame(appended, AppendClientFrame(r, client, payload));
    ExtendsTrans(r, appended, AppendClientFrame(r, client, payload));
  }

  lemma PruneExtends(r: Replication)
    ensures Extends(r, Prune(r))
  {
    hide Live, IsAttached;
    forall client: ClientId, k: nat, delivered: seq<Frame> | Attached(r, client, k, delivered)
      ensures Attached(Prune(r), client, k, delivered)
    {
      var i :| 0 <= i < |r.sessions| && IsAttached(r.sessions[i], r.backlog, client, k, delivered);
      AttachedAlive(r.sessions[i], r.backlog, client, k, delivered);
      var j := LiveKeeps(r.sessions, i);
    }
  }

  lemma RegisterExtends(r: Replication, client: ClientId)
    ensures Extends(r, Register(r, client))
  {
    hide IsAttached;
    var t := Register(r, client);
    forall c: ClientId, k: nat, delivered: seq<Frame> | Attached(r, c, k, delivered)
      ensures Attached(t, c, k, delivered)
    {
      var i :| 0 <= i < |r.sessions| && IsAttached(r.sessions[i], r.backlog, c, k, delivered);
      assert t.sessions[i] == r.sessions[i];
    }
  }
}
