/** A master, a replica and the connection between them, taking steps in any order. */
module Cluster {
  import opened Wrappers
  import opened Decimal
  import opened Resp
  import opened Aof
  import opened Keyspace
  import opened Commands
  import opened Replayable
  import opened Channels
  import opened ReplicationStream
  import opened Processor
  import opened Invariants
  import opened Ledger
  import opened Blocking
  import opened LogMeaning
  import opened Replay
  import opened Recovery
  import opened Follower
  import opened StreamUnits

  /**
   The replica's connection: the master's id for it, how many frames the backlog held when it was registered,
   what the master's stream starts from, and the values both sides had at registration.
   */
  datatype Link = Link(client: ClientId, start: nat, basis: Basis, values: Values)

  /**
   Two nodes and what is between them: the frames the session has handed out, the bytes sent but not received,
   the replica's input buffer, the number of commands it has applied, the offsets it has reported, in order, and
   how many of these reports the master has processed; the others are under way.
   */
  datatype Nodes = Nodes(
    master: State, replica: State, delivered: seq<Frame>, wire: Bytes, buffer: Bytes, applied: nat,
    reports: seq<nat>, processed: nat)

  datatype Move =
    | AtMaster(event: Event)
    | Send(index: nat)
    | Arrive(count: nat)
    | Consume(id: TaskId, env: Env)
    | AtReplica(event: Event)
    | AckArrives(env: Env)

  /** A move that can happen: the node's own events, or a step of the connection. */
  ghost predicate Possible(c: Nodes, link: Link, move: Move) {
    match move
    case AtMaster(event) =>
      && Orderly(event, Master) && Proper(event, Master)
      && (event.Work? ==> !(event.t.AcknowledgeReplica? && event.t.client == link.client)
                          && event.t != UnregisterClient(link.client))
      && (event.Connection? && event.index < |c.master.replication.sessions| ==>
            c.master.replication.sessions[event.index].client != link.client)
    case Send(index) =>
      && index < |c.master.replication.sessions| && c.master.replication.sessions[index].pending != []
      && IsAttached(c.master.replication.sessions[index], c.master.replication.backlog, link.client, link.start, c.delivered)
    case Arrive(count) => count <= |c.wire|
    case Consume(id, env) => ParseCommand(c.buffer).Complete? && AppendsSucceed(env)
    case AtReplica(event) => OwnEvent(event)
    case AckArrives(env) => c.processed < |c.reports| && Healthy(env)
  }

  /** The offset the replica reports when it meets a request for it: that of all it has applied before. */
  function Report(c: Nodes, command: Command): seq<nat> {
    if command == GETACK_COMMAND then [c.replica.replication.offset] else []
  }

  function Sending(c: Nodes, index: nat): Nodes
    requires index < |c.master.replication.sessions| && c.master.replication.sessions[index].pending != []
  {
    var frame := c.master.replication.sessions[index].pending[0];
    c.(master := Next(c.master, Connection(index, DeliverFrame)), delivered := c.delivered + [frame],
       wire := c.wire + frame.payload)
  }

  /** One pass of the replica's consuming loop, for the command at the front of its buffer. */
  function Consuming(c: Nodes, id: TaskId, command: Command, consumed: nat, env: Env): Nodes
    requires consumed <= |c.buffer|
  {
    c.(replica := Step(c.replica, CommandTask(StreamTask(id, command, consumed)), env),
       buffer := c.buffer[consumed..], applied := c.applied + 1, reports := c.reports + Report(c, command))
  }

  ghost function Moved(c: Nodes, link: Link, move: Move): Nodes
    requires Possible(c, link, move)
  {
    match move
    case AtMaster(event) => c.(master := Next(c.master, event))
    case Send(index) => Sending(c, index)
    case Arrive(count) => c.(buffer := c.buffer + c.wire[..count], wire := c.wire[count..])
    case Consume(id, env) =>
      var parsed := ParseCommand(c.buffer);
      Consuming(c, id, parsed.command, parsed.consumed, env)
    case AtReplica(event) => c.(replica := Next(c.replica, event))
    case AckArrives(env) =>
      c.(master := Step(c.master, AcknowledgeReplica(link.client, c.reports[c.processed]), env), processed := c.processed + 1)
  }

  /* ---------- The invariant ---------- */

  /** The master's side: a faithful stream whose first `start` frames mean the common values. */
  ghost predicate MasterSide(s: State, link: Link) {
    && s.replication.role.Master? && Faithful(s, link.basis) && Invariant(s)
    && link.start <= |s.replication.backlog|
    && Meaning(link.basis.values, s.replication.backlog[..link.start]) == Some(Machine(link.values, None))
  }

  /** The replica has applied the first `applied` of `sent`, and the rest of the delivered bytes is under way. */
  ghost predicate InStep(c: Nodes, values: Values, sent: seq<Command>, origin: nat) {
    && c.applied <= |sent|
    && SerializeAll(sent[..c.applied]) + (c.buffer + c.wire) == StreamBytes(c.delivered)
    && InterpretAll(Machine(values, None), sent[..c.applied]).Some?
    && ReplicaAt(c.replica, InterpretAll(Machine(values, None), sent[..c.applied]).value)
    && c.replica.replication.offset == origin + |SerializeAll(sent[..c.applied])|
  }

  /**
   Reports are in order and never run ahead of the replica, and what the master knows is at least every report it
   has processed.
   */
  ghost predicate AcksTrue(reports: seq<nat>, processed: nat, acknowledged: map<ClientId, nat>, client: ClientId, offset: nat) {
    && processed <= |reports|
    && (forall i, j :: 0 <= i <= j < |reports| ==> reports[i] <= reports[j])
    && (forall i :: 0 <= i < |reports| ==> reports[i] <= offset)
    && (client in acknowledged ==> acknowledged[client] <= offset)
    && (processed > 0 ==> client in acknowledged)
    && forall i :: 0 <= i < processed && client in acknowledged ==> reports[i] <= acknowledged[client]
  }

  predicate Asks(frame: Frame) {
    frame.payload == SerializeCommand(GETACK_COMMAND)
  }

  /** The number of requests for acknowledgement among some commands. */
  function AskCount(commands: seq<Command>): nat {
    if commands == [] then 0
    else AskCount(commands[..|commands| - 1]) + if commands[|commands| - 1] == GETACK_COMMAND then 1 else 0
  }

  /** The k-th request that the replica has met was answered by its k-th report: the offset before the request. */
  ghost predicate Answers(reports: seq<nat>, sent: seq<Command>, applied: nat, origin: nat) {
    && applied <= |sent| && |reports| == AskCount(sent[..applied])
    && forall n :: 0 <= n < applied && sent[n] == GETACK_COMMAND ==>
         && AskCount(sent[..n]) < |reports|
         && reports[AskCount(sent[..n])] == origin + |SerializeAll(sent[..n])|
  }

  /** Frame `g` of the backlog has been applied by the replica. */
  predicate Applied(c: Nodes, link: Link, g: nat) {
    && link.start <= g < |c.master.replication.backlog|
    && |CommandsOf(c.master.replication.backlog[link.start..g + 1])| <= c.applied
  }

  function Sent(c: Nodes, link: Link): seq<Command>
    requires link.start <= |c.master.replication.backlog|
  {
    CommandsOf(c.master.replication.backlog[link.start..])
  }

  function Origin(c: Nodes, link: Link): nat
    requires link.start <= |c.master.replication.backlog|
  {
    Size(c.master.replication.backlog[..link.start])
  }

  ghost predicate Linked(c: Nodes, link: Link) {
    && MasterSide(c.master, link)
    && Attached(c.master.replication, link.client, link.start, c.delivered)
    && InStep(c, link.values, Sent(c, link), Origin(c, link))
    && AcksTrue(c.reports, c.processed, c.master.replication.acknowledged, link.client, c.replica.replication.offset)
    && Answers(c.reports, Sent(c, link), c.applied, Origin(c, link))
  }

  /* ---------- What the master's side gives ---------- */

  /** The stream from the registration on leads from the common values to the master's values. */
  lemma StreamLeads(s: State, link: Link)
    requires MasterSide(s, link)
    ensures FramesAtomic(s.replication.backlog) && FramesAtomic(s.replication.backlog[link.start..])
    ensures Meaning(link.values, s.replication.backlog[link.start..]) == Some(Machine(ValuesOf(s.db), None))
  {
    hide Timeless, QueuesPlain, PopsSound, CommandsOf, StreamBytes, InterpretAll, Denotes, Invariant, FrameAtomic,
         ValuesOf;
    var backlog := s.replication.backlog;
    StreamMeans(backlog, link.basis.values);
    assert backlog == backlog[..link.start] + backlog[link.start..];
    CommandsAppend(backlog[..link.start], backlog[link.start..]);
    InterpretAppend(Machine(link.basis.values, None), CommandsOf(backlog[..link.start]), CommandsOf(backlog[link.start..]));
  }

  /** The delivered bytes are the beginning of the stream from the registration on. */
  lemma DeliveredPrefix(r: Replication, client: ClientId, k: nat, delivered: seq<Frame>) returns (rest: seq<Frame>)
    requires Attached(r, client, k, delivered)
    ensures k <= |r.backlog| && r.backlog[k..] == delivered + rest
  {
    hide Size;
    var i :| 0 <= i < |r.sessions| && IsAttached(r.sessions[i], r.backlog, client, k, delivered);
    rest := r.sessions[i].pending;
  }

  lemma {:induction false} StreamAppend(first: seq<Frame>, second: seq<Frame>)
    ensures StreamBytes(first + second) == StreamBytes(first) + StreamBytes(second)
    decreases |second|
  {
    if second == [] {
      assert first + second == first;
    } else {
      var n := |second| - 1;
      assert (first + second)[..|first + second| - 1] == first + second[..n];
      StreamAppend(first, second[..n]);
    }
  }

  /** What has not been applied: the bytes on the replica's side begin the serialised rest of the commands. */
  lemma RestOfStream(c: Nodes, link: Link) returns (more: Bytes)
    requires Linked(c, link)
    ensures c.applied <= |Sent(c, link)|
    ensures c.buffer + c.wire + more == SerializeAll(Sent(c, link)[c.applied..])
    ensures AllRepresentable(Sent(c, link))
    ensures c.delivered == c.master.replication.backlog[link.start..] ==> more == []
  {
    hide MasterSide, Attached, AcksTrue, Answers, CommandsOf, StreamBytes, SerializeAll, ReplicaAt, InterpretAll,
         FramesAtomic, AllRepresentable;
    LinkedMaster(c, link);
    var frames := c.master.replication.backlog[link.start..];
    var sent := Sent(c, link);
    var rest := DeliveredPrefix(c.master.replication, link.client, link.start, c.delivered);
    StreamLeads(c.master, link);
    StreamSerialized(frames);
    StreamAppend(c.delivered, rest);
    assert sent == sent[..c.applied] + sent[c.applied..];
    SerializeAppend(sent[..c.applied], sent[c.applied..]);
    more := StreamBytes(rest);
    var used := SerializeAll(sent[..c.applied]);
    assert used + (c.buffer + c.wire) + more == used + (c.buffer + c.wire + more);
    PrefixCancels(used, c.buffer + c.wire + more, SerializeAll(sent[c.applied..]));
    if c.delivered == frames {
      assert |rest| == 0;
      NoBytes();
    }
  }

  lemma NoBytes()
    ensures StreamBytes([]) == []
  {
  }

  lemma LinkedMaster(c: Nodes, link: Link)
    requires Linked(c, link)
    ensures MasterSide(c.master, link) && link.start <= |c.master.replication.backlog|
  {
    hide Faithful, Invariant, Meaning, Attached, InStep, AcksTrue, Answers;
  }

  lemma PrefixCancels(prefix: Bytes, first: Bytes, second: Bytes)
    requires prefix + first == prefix + second
    ensures first == second
  {
    assert (prefix + first)[|prefix|..] == first && (prefix + second)[|prefix|..] == second;
  }

  /** The command that the replica parses next is the next one of the stream, and it takes its own bytes. */
  lemma NextCommand(c: Nodes, link: Link)
    requires Linked(c, link) && !ParseCommand(c.buffer).Incomplete?
    ensures c.applied < |Sent(c, link)|
    ensures var command := Sent(c, link)[c.applied];
            && ParseCommand(c.buffer) == Complete(command, |SerializeCommand(command)|)
            && |SerializeCommand(command)| <= |c.buffer|
            && c.buffer[..|SerializeCommand(command)|] == SerializeCommand(command)
  {
    hide Linked, MasterSide, ParseCommand, SerializeCommand, SerializeAll, Sent, Representable;
    LinkedMaster(c, link);
    var more := RestOfStream(c, link);
    var rest := Sent(c, link)[c.applied..];
    assert c.buffer + (c.wire + more) == c.buffer + c.wire + more;
    FirstOfMany(c.buffer, c.wire + more, rest);
  }

  /* ---------- Moves that change only the master ---------- */

  /** Only the master and what it has processed have changed, and the backlog has at most grown. */
  ghost predicate Grown(c: Nodes, d: Nodes, link: Link) {
    && d == c.(master := d.master, processed := d.processed)
    && MasterSide(c.master, link) && MasterSide(d.master, link)
    && c.master.replication.backlog <= d.master.replication.backlog
  }

  lemma SentGrows(c: Nodes, d: Nodes, link: Link)
    requires Grown(c, d, link)
    ensures link.start <= |c.master.replication.backlog| <= |d.master.replication.backlog|
    ensures Sent(c, link) <= Sent(d, link) && Origin(d, link) == Origin(c, link)
  {
    hide Faithful, Invariant, Meaning, CommandsOf, Size;
    var earlier := c.master.replication.backlog;
    var now := d.master.replication.backlog;
    var more := now[|earlier|..];
    assert now[link.start..] == earlier[link.start..] + more;
    CommandsAppend(earlier[link.start..], more);
    assert now[..link.start] == earlier[..link.start];
  }

  lemma GrownInStep(c: Nodes, d: Nodes, link: Link)
    requires Grown(c, d, link) && InStep(c, link.values, Sent(c, link), Origin(c, link))
    ensures InStep(d, link.values, Sent(d, link), Origin(d, link))
  {
    hide MasterSide, CommandsOf, Size, SerializeAll, StreamBytes, InterpretAll, ReplicaAt, Sent, Origin;
    SentGrows(c, d, link);
    assert Sent(d, link)[..c.applied] == Sent(c, link)[..c.applied];
  }

  lemma SingleCommands(frame: Frame)
    requires FrameAtomic(frame)
    ensures CommandsOf([frame]) == UnitOf(frame) && UnitOf(frame) != []
  {
    hide UnitOf, AtomicUnit;
    UnitSerialized(frame);
    assert [frame][..0] == [];
    assert CommandsOf([]) == [];
    assert [] + UnitOf(frame) == UnitOf(frame);
  }

  lemma GrownAnswers(c: Nodes, d: Nodes, link: Link)
    requires Grown(c, d, link) && Answers(c.reports, Sent(c, link), c.applied, Origin(c, link))
    ensures Answers(d.reports, Sent(d, link), d.applied, Origin(d, link))
  {
    hide MasterSide, CommandsOf, Size, SerializeAll, Sent, Origin, AskCount;
    SentGrows(c, d, link);
    PrefixAnswers(c.reports, Sent(c, link), Sent(d, link), c.applied, Origin(c, link));
  }

  lemma PrefixAnswers(reports: seq<nat>, sent: seq<Command>, longer: seq<Command>, applied: nat, origin: nat)
    requires Answers(reports, sent, applied, origin) && sent <= longer
    ensures Answers(reports, longer, applied, origin)
  {
    hide SerializeAll, AskCount;
    assert longer[..applied] == sent[..applied];
    forall n | 0 <= n < applied && longer[n] == GETACK_COMMAND
      ensures AskCount(longer[..n]) < |reports|
      ensures reports[AskCount(longer[..n])] == origin + |SerializeAll(longer[..n])|
    {
      assert longer[..n] == sent[..n] && longer[n] == sent[n];
    }
  }

  lemma GrownLinked(c: Nodes, d: Nodes, link: Link)
    requires Linked(c, link) && Grown(c, d, link)
    requires Attached(d.master.replication, link.client, link.start, d.delivered)
    requires AcksTrue(d.reports, d.processed, d.master.replication.acknowledged, link.client, d.replica.replication.offset)
    ensures Linked(d, link)
  {
    hide MasterSide, Attached, InStep, AcksTrue, Answers, CommandsOf, Size;
    GrownInStep(c, d, link);
    GrownAnswers(c, d, link);
    LinkedMaster(c, link);
    SentGrows(c, d, link);
  }

  /** An event of the master keeps its side of the link. */
  lemma MasterSideKept(s: State, event: Event, link: Link)
    requires MasterSide(s, link) && Orderly(event, Master) && Proper(event, Master)
    requires s.replication.backlog <= Next(s, event).replication.backlog
    ensures MasterSide(Next(s, event), link)
  {
    hide Faithful, Invariant, Meaning, Orderly, Next, Evolves, DbOk;
    NextFaithful(s, event, link.basis);
    NextKeeps(s, event);
    assert Next(s, event).replication.backlog[..link.start] == s.replication.backlog[..link.start];
  }

  /** What happens to the stream, the sessions and the acknowledgements in an event of the master. */
  lemma WorkExtends(s: State, t: ProcessorTask, env: Env, client: ClientId)
    requires !(t.AcknowledgeReplica? && t.client == client) && t != UnregisterClient(client)
    ensures Extends(s.replication, Step(s, t, env).replication)
    ensures SameFor(s.replication.acknowledged, Step(s, t, env).replication.acknowledged, client)
  {
    hide Process, RetryAll, ExpireAll, Evolves, DbOk, Accounted, Mirror, Extends, Acknowledge, ProcessUnregister;
    var terms := Terms(false, false, true);
    var processed := Process(s, t, env);
    SettleStep(processed, env, terms);
    if t.RegisterClient? {
      RegisterClientKeeps(s, t.client, env);
    } else if t.AcknowledgeReplica? || t.UnregisterClient? {
      ProcessKeeps(s, t, env, NO_TERMS);
      OthersAcks(s, t, env, client);
      ExtendsTrans(s.replication, processed.replication, Step(s, t, env).replication);
    } else {
      ProcessKeeps(s, t, env, terms);
      ExtendsTrans(s.replication, processed.replication, Step(s, t, env).replication);
    }
  }

  predicate SameFor(before: map<ClientId, nat>, after: map<ClientId, nat>, client: ClientId) {
    && (client in before <==> client in after)
    && (client in after ==> client in before && after[client] == before[client])
  }

  lemma OthersAcks(s: State, t: ProcessorTask, env: Env, client: ClientId)
    requires (t.AcknowledgeReplica? && t.client != client) || (t.UnregisterClient? && t.client != client)
    ensures SameFor(s.replication.acknowledged, Process(s, t, env).replication.acknowledged, client)
  {
    hide CancelPops, CancelReads, CancelWaits, Forget, ProcessTask, LoadEntries, ProcessAof;
    if t.UnregisterClient? {
      var a := CancelPops(s, s.pendingPops, [], t.client);
      CancelPopsCore(s, s.pendingPops, [], t.client);
      var b := CancelReads(a, s.pendingReads, [], t.client);
      CancelReadsCore(a, s.pendingReads, [], t.client);
      CancelWaitsCore(b, s.pendingWaits, [], t.client);
    }
  }

  lemma TickExtends(s: State, now: nat)
    ensures Extends(s.replication, ExpireAll(s, now).replication)
    ensures ExpireAll(s, now).replication.acknowledged == s.replication.acknowledged
  {
    hide ExpireAll, Evolves, DbOk, Accounted, Mirror, Extends;
    ExpireAllKeeps(s, now, Terms(false, false, true));
  }

  /** A step of another connection leaves this session attached. */
  lemma OtherSessionStep(r: Replication, index: nat, step: SessionStep, client: ClientId, k: nat, delivered: seq<Frame>)
    requires Attached(r, client, k, delivered)
    requires index < |r.sessions| ==> r.sessions[index].client != client
    ensures Attached(StepSessions(r, index, step), client, k, delivered)
  {
    hide FollowsFrom, StepSession;
    var i :| 0 <= i < |r.sessions| && IsAttached(r.sessions[i], r.backlog, client, k, delivered);
    assert StepSessions(r, index, step).sessions[i] == r.sessions[i];
  }

  lemma ExtendsAttached(r: Replication, t: Replication, client: ClientId, k: nat, delivered: seq<Frame>)
    requires Extends(r, t) && Attached(r, client, k, delivered)
    ensures r.backlog <= t.backlog && Attached(t, client, k, delivered)
  {
    hide Attached;
  }

  lemma MasterMove(c: Nodes, link: Link, event: Event)
    requires Linked(c, link) && Possible(c, link, AtMaster(event))
    ensures var t := Next(c.master, event).replication;
            && c.master.replication.backlog <= t.backlog
            && Attached(t, link.client, link.start, c.delivered)
            && SameFor(c.master.replication.acknowledged, t.acknowledged, link.client)
  {
    hide MasterSide, Attached, InStep, AcksTrue, Answers, Orderly, Step, ExpireAll, Extends, StepSession;
    var r := c.master.replication;
    match event {
      case Work(t, env) =>
        WorkExtends(c.master, t, env, link.client);
        ExtendsAttached(r, Step(c.master, t, env).replication, link.client, link.start, c.delivered);
      case Tick(now) =>
        TickExtends(c.master, now);
        ExtendsAttached(r, ExpireAll(c.master, now).replication, link.client, link.start, c.delivered);
      case Connection(index, step) =>
        OtherSessionStep(r, index, step, link.client, link.start, c.delivered);
    }
  }

  lemma AtMasterLinked(c: Nodes, link: Link, event: Event)
    requires Linked(c, link) && Possible(c, link, AtMaster(event))
    ensures Linked(c.(master := Next(c.master, event)), link)
  {
    hide MasterSide, Attached, InStep, AcksTrue, Answers, Orderly, Proper, Next, SameFor;
    var d := c.(master := Next(c.master, event));
    LinkedMaster(c, link);
    MasterMove(c, link, event);
    MasterSideKept(c.master, event, link);
    AcksSame(c.reports, c.processed, c.master.replication.acknowledged, d.master.replication.acknowledged, link.client,
             c.replica.replication.offset);
    GrownLinked(c, d, link);
  }

  /* ---------- The other moves ---------- */

  lemma OwnSessionStep(r: Replication, index: nat, client: ClientId, k: nat, delivered: seq<Frame>)
    requires index < |r.sessions| && r.sessions[index].pending != []
    requires IsAttached(r.sessions[index], r.backlog, client, k, delivered)
    ensures Attached(StepSessions(r, index, DeliverFrame), client, k, delivered + [r.sessions[index].pending[0]])
  {
    hide Size;
    var t := StepSessions(r, index, DeliverFrame);
    var session := r.sessions[index];
    assert [session.pending[0]] + session.pending[1..] == session.pending;
    assert delivered + [session.pending[0]] + session.pending[1..] == delivered + session.pending;
    assert IsAttached(t.sessions[index], t.backlog, client, k, delivered + [session.pending[0]]);
  }

  lemma ConnectionOnly(s: State, index: nat, step: SessionStep)
    ensures var t := Next(s, Connection(index, step));
            && t == s.(replication := StepSessions(s.replication, index, step))
            && t.replication.backlog == s.replication.backlog && t.replication.acknowledged == s.replication.acknowledged
  {
  }

  lemma SendLinked(c: Nodes, link: Link, index: nat)
    requires Linked(c, link) && Possible(c, link, Send(index))
    ensures Linked(Sending(c, index), link)
  {
    hide MasterSide, Attached, Answers, AcksTrue, StepSessions, IsAttached, Next, InStep, CommandsOf, Size;
    LinkedMaster(c, link);
    var frame := c.master.replication.sessions[index].pending[0];
    var event := Connection(index, DeliverFrame);
    ConnectionOnly(c.master, index, DeliverFrame);
    MasterSideKept(c.master, event, link);
    OwnSessionStep(c.master.replication, index, link.client, link.start, c.delivered);
    SentMore(c, Sending(c, index), frame, link.values, Sent(c, link), Origin(c, link));
  }

  lemma SentMore(c: Nodes, d: Nodes, frame: Frame, values: Values, sent: seq<Command>, origin: nat)
    requires InStep(c, values, sent, origin)
    requires d == c.(master := d.master, delivered := c.delivered + [frame], wire := c.wire + frame.payload)
    ensures InStep(d, values, sent, origin)
  {
    hide SerializeAll, StreamBytes, InterpretAll, ReplicaAt;
    StreamExtended(c.delivered, frame);
    assert c.buffer + (c.wire + frame.payload) == c.buffer + c.wire + frame.payload;
    assert SerializeAll(sent[..c.applied]) + (c.buffer + c.wire + frame.payload) ==
        SerializeAll(sent[..c.applied]) + (c.buffer + c.wire) + frame.payload;
  }

  lemma ArriveLinked(c: Nodes, link: Link, count: nat)
    requires Linked(c, link) && count <= |c.wire|
    ensures Linked(c.(buffer := c.buffer + c.wire[..count], wire := c.wire[count..]), link)
  {
    hide MasterSide, Attached, SerializeAll, StreamBytes, InterpretAll, ReplicaAt, CommandsOf, Size, Asks,
         Answers, AcksTrue;
    var d := c.(buffer := c.buffer + c.wire[..count], wire := c.wire[count..]);
    assert c.wire == c.wire[..count] + c.wire[count..];
    assert d.buffer + d.wire == c.buffer + c.wire;
  }

  lemma AtReplicaLinked(c: Nodes, link: Link, event: Event)
    requires Linked(c, link) && OwnEvent(event)
    ensures Linked(c.(replica := Next(c.replica, event)), link)
    ensures Next(c.replica, event).db == c.replica.db
  {
    hide MasterSide, Attached, SerializeAll, StreamBytes, InterpretAll, ReplicaAt, CommandsOf, Size, Asks,
         Answers, AcksTrue, Next;
    var d := c.(replica := Next(c.replica, event));
    LinkedMaster(c, link);
    OwnEventSteady(c.replica, event, InterpretAll(Machine(link.values, None), Sent(c, link)[..c.applied]).value);
  }

  lemma AckMove(s: State, client: ClientId, offset: nat, env: Env)
    ensures var t := Step(s, AcknowledgeReplica(client, offset), env).replication;
            && Extends(s.replication, t)
            && client in t.acknowledged && t.acknowledged == Acknowledge(s.replication, client, offset).acknowledged
  {
    hide RetryAll, ExpireAll, Evolves, DbOk, Accounted, Mirror, Extends, ProcessTask, LoadEntries, ProcessAof,
         ProcessUnregister;
    var processed := Process(s, AcknowledgeReplica(client, offset), env);
    SettleStep(processed, env, Terms(false, false, true));
    ExtendsSame(s.replication, processed.replication);
    ExtendsTrans(s.replication, processed.replication, Step(s, AcknowledgeReplica(client, offset), env).replication);
  }

  /** A report that arrives is the next one in order. */
  lemma AckProcessed(reports: seq<nat>, processed: nat, r: Replication, client: ClientId, offset: nat)
    requires processed < |reports| && AcksTrue(reports, processed, r.acknowledged, client, offset)
    ensures AcksTrue(reports, processed + 1, Acknowledge(r, client, reports[processed]).acknowledged, client, offset)
  {
  }

  lemma AckArrivesLinked(c: Nodes, link: Link, env: Env)
    requires Linked(c, link) && Possible(c, link, AckArrives(env))
    ensures Linked(Moved(c, link, AckArrives(env)), link)
  {
    hide MasterSide, Attached, InStep, AcksTrue, Answers, Step, Healthy, Extends, Acknowledge;
    var d := Moved(c, link, AckArrives(env));
    var offset := c.reports[c.processed];
    LinkedMaster(c, link);
    AckMove(c.master, link.client, offset, env);
    ExtendsAttached(c.master.replication, d.master.replication, link.client, link.start, c.delivered);
    MasterSideKept(c.master, Work(AcknowledgeReplica(link.client, offset), env), link);
    AckProcessed(c.reports, c.processed, c.master.replication, link.client, c.replica.replication.offset);
    GrownLinked(c, d, link);
  }

  /* ---------- The replica consumes a command ---------- */

  lemma SerializeOne(command: Command)
    ensures SerializeAll([command]) == SerializeCommand(command)
  {
    hide SerializeCommand;
    assert [command][1..] == [];
    assert SerializeAll([]) == [];
    assert SerializeCommand(command) + [] == SerializeCommand(command);
  }

  lemma OneMore(sent: seq<Command>, n: nat)
    requires n < |sent|
    ensures SerializeAll(sent[..n + 1]) == SerializeAll(sent[..n]) + SerializeCommand(sent[n])
  {
    hide SerializeAll, SerializeCommand;
    assert sent[..n + 1] == sent[..n] + [sent[n]];
    SerializeAppend(sent[..n], [sent[n]]);
    SerializeOne(sent[n]);
  }

  /** The next command of the stream has a meaning where the replica stands. */
  lemma NextMeans(s: State, link: Link, n: nat)
    requires MasterSide(s, link) && n < |CommandsOf(s.replication.backlog[link.start..])|
    ensures var sent := CommandsOf(s.replication.backlog[link.start..]);
            var start := Machine(link.values, None);
            && InterpretAll(start, sent[..n]).Some? && InterpretAll(start, sent[..n + 1]).Some?
            && Interpret(InterpretAll(start, sent[..n]).value, sent[n]) == InterpretAll(start, sent[..n + 1])
  {
    hide Faithful, Invariant, CommandsOf, InterpretAll, Interpret, FramesAtomic;
    StreamLeads(s, link);
    var frames := s.replication.backlog[link.start..];
    var sent := CommandsOf(frames);
    MeaningExtended(link.values, frames, n + 1);
    assert sent[..n + 1][..n] == sent[..n];
    InterpretLast(Machine(link.values, None), sent[..n + 1]);
  }

  lemma BytesMove(used: Bytes, bytes: Bytes, buffer: Bytes, wire: Bytes)
    requires |bytes| <= |buffer| && buffer[..|bytes|] == bytes
    ensures used + bytes + (buffer[|bytes|..] + wire) == used + (buffer + wire)
  {
    assert buffer == bytes + buffer[|bytes|..];
  }

  lemma ConsumeInStep(c: Nodes, id: TaskId, env: Env, values: Values, sent: seq<Command>, origin: nat)
    requires InStep(c, values, sent, origin) && c.applied < |sent| && AppendsSucceed(env)
    requires InterpretAll(Machine(values, None), sent[..c.applied + 1]).Some?
    requires Interpret(InterpretAll(Machine(values, None), sent[..c.applied]).value, sent[c.applied]) ==
             InterpretAll(Machine(values, None), sent[..c.applied + 1])
    requires |SerializeCommand(sent[c.applied])| <= |c.buffer|
    requires c.buffer[..|SerializeCommand(sent[c.applied])|] == SerializeCommand(sent[c.applied])
    ensures var d := Consuming(c, id, sent[c.applied], |SerializeCommand(sent[c.applied])|, env);
            && InStep(d, values, sent, origin)
            && d.replica.replication.offset >= c.replica.replication.offset
  {
    hide SerializeAll, SerializeCommand, StreamBytes, InterpretAll, Interpret, ReplicaAt, AppendsSucceed, Step;
    var command := sent[c.applied];
    var bytes := SerializeCommand(command);
    StreamTaskApplies(c.replica, id, command, |bytes|, env, InterpretAll(Machine(values, None), sent[..c.applied]).value);
    OneMore(sent, c.applied);
    BytesMove(SerializeAll(sent[..c.applied]), bytes, c.buffer, c.wire);
  }

  lemma GetAckUnit(frame: Frame)
    requires Asks(frame)
    ensures UnitOf(frame) == [GETACK_COMMAND]
  {
    NamedCommands();
    hide SerializeCommand, VerbOf, DecodeLog, Representable;
    SerializeOne(GETACK_COMMAND);
    DecodeLogSerialized([GETACK_COMMAND]);
  }

  /** Where a request for acknowledgement is the next command, the replica stands at the end of the frame before. */
  lemma RequestNext(s: State, link: Link, g: nat, n: nat)
    requires MasterSide(s, link) && link.start <= g < |s.replication.backlog| && Asks(s.replication.backlog[g])
    requires n + 1 == |CommandsOf(s.replication.backlog[link.start..g + 1])|
    ensures var sent := CommandsOf(s.replication.backlog[link.start..]);
            && n < |sent| && sent[n] == GETACK_COMMAND
            && Size(s.replication.backlog[..link.start]) + |SerializeAll(sent[..n])| == Size(s.replication.backlog[..g])
  {
    hide Faithful, Invariant, Meaning, CommandsOf, Size, SerializeAll, StreamBytes, UnitOf, Asks, FrameAtomic,
         InterpretAll;
    StreamLeads(s, link);
    var backlog := s.replication.backlog;
    var before := backlog[link.start..g];
    assert backlog[link.start..g + 1] == before + [backlog[g]];
    CommandsAppend(before, [backlog[g]]);
    SingleCommands(backlog[g]);
    GetAckUnit(backlog[g]);
    assert backlog[link.start..] == backlog[link.start..g + 1] + backlog[g + 1..];
    CommandsAppend(backlog[link.start..g + 1], backlog[g + 1..]);
    var sent := CommandsOf(backlog[link.start..]);
    assert sent[..n] == CommandsOf(before);
    StreamSerialized(before);
    SizeIsLength(before);
    SizeIsLength(backlog[..link.start]);
    SizeIsLength(backlog[..g]);
    assert backlog[..g] == backlog[..link.start] + before;
    StreamAppend(backlog[..link.start], before);
  }

  lemma ConsumeAnswers(reports: seq<nat>, sent: seq<Command>, applied: nat, origin: nat)
    requires Answers(reports, sent, applied, origin) && applied < |sent|
    ensures var offset := origin + |SerializeAll(sent[..applied])|;
            Answers(reports + (if sent[applied] == GETACK_COMMAND then [offset] else []), sent, applied + 1, origin)
  {
    hide SerializeAll;
    assert sent[..applied + 1][..applied] == sent[..applied];
    var offset := origin + |SerializeAll(sent[..applied])|;
    var longer := reports + (if sent[applied] == GETACK_COMMAND then [offset] else []);
    assert |longer| == AskCount(sent[..applied + 1]);
    hide AskCount;
    forall n | 0 <= n < applied + 1 && sent[n] == GETACK_COMMAND
      ensures AskCount(sent[..n]) < |longer| && longer[AskCount(sent[..n])] == origin + |SerializeAll(sent[..n])|
    {
    }
  }

  /** A report of the present offset is in order. */
  lemma ReportInOrder(c: Nodes, command: Command, client: ClientId, acknowledged: map<ClientId, nat>, later: nat)
    requires AcksTrue(c.reports, c.processed, acknowledged, client, c.replica.replication.offset)
    requires later >= c.replica.replication.offset
    ensures AcksTrue(c.reports + Report(c, command), c.processed, acknowledged, client, later)
  {
  }

  lemma AcksSame(
    reports: seq<nat>, processed: nat, before: map<ClientId, nat>, after: map<ClientId, nat>, client: ClientId, offset: nat)
    requires AcksTrue(reports, processed, before, client, offset) && SameFor(before, after, client)
    ensures AcksTrue(reports, processed, after, client, offset)
  {
  }

  lemma ConsumeLinked(c: Nodes, link: Link, id: TaskId, command: Command, consumed: nat, env: Env)
    requires Linked(c, link) && AppendsSucceed(env)
    requires ParseCommand(c.buffer) == Complete(command, consumed) && consumed <= |c.buffer|
    ensures Linked(Consuming(c, id, command, consumed, env), link)
  {
    hide MasterSide, Attached, InStep, AcksTrue, Answers, CommandsOf, Size, ParseCommand, AppendsSucceed, Step, InterpretAll,
         Interpret, SerializeCommand;
    LinkedMaster(c, link);
    NextCommand(c, link);
    NextMeans(c.master, link, c.applied);
    ConsumeInStep(c, id, env, link.values, Sent(c, link), Origin(c, link));
    AppliedOffset(c, link);
    ConsumeAnswers(c.reports, Sent(c, link), c.applied, Origin(c, link));
    var d := Consuming(c, id, command, consumed, env);
    ReportInOrder(c, command, link.client, c.master.replication.acknowledged, d.replica.replication.offset);
  }

  lemma AppliedOffset(c: Nodes, link: Link)
    requires Linked(c, link)
    ensures MasterSide(c.master, link) && c.applied <= |Sent(c, link)|
    ensures c.replica.replication.offset == Origin(c, link) + |SerializeAll(Sent(c, link)[..c.applied])|
  {
    hide Faithful, Invariant, Meaning, Attached, AcksTrue, Answers, CommandsOf, Size, SerializeAll, StreamBytes,
         InterpretAll, ReplicaAt;
  }

  /** Every possible move keeps the two nodes linked. */
  lemma MoveLinked(c: Nodes, link: Link, move: Move)
    requires Linked(c, link) && Possible(c, link, move)
    ensures Linked(Moved(c, link, move), link)
  {
    hide Linked, Consuming, Sending, ParseCommand;
    match move {
      case AtMaster(event) => AtMasterLinked(c, link, event);
      case Send(index) => SendLinked(c, link, index);
      case Arrive(count) => ArriveLinked(c, link, count);
      case Consume(id, env) => ConsumeLinked(c, link, id, ParseCommand(c.buffer).command, ParseCommand(c.buffer).consumed, env);
      case AtReplica(event) => AtReplicaLinked(c, link, event);
      case AckArrives(env) => AckArrivesLinked(c, link, env);
    }
  }
}
