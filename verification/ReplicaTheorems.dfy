/** What holds of a master and its replica over every run. */
module ReplicaTheorems {
  import opened Wrappers
  import opened Resp
  import opened Aof
  import opened Responses
  import opened Keyspace
  import opened Replayable
  import opened Channels
  import opened ReplicationStream
  import opened Processor
  import opened Invariants
  import opened Blocking
  import opened LogMeaning
  import opened Replay
  import opened Recovery
  import opened Follower
  import opened StreamUnits
  import opened Stations
  import opened Cluster

  ghost predicate AllPossible(c: Nodes, link: Link, moves: seq<Move>)
    decreases |moves|
  {
    moves != [] ==> Possible(c, link, moves[0]) && AllPossible(Moved(c, link, moves[0]), link, moves[1..])
  }

  ghost function MovedAll(c: Nodes, link: Link, moves: seq<Move>): Nodes
    requires AllPossible(c, link, moves)
    decreases |moves|
  {
    if moves == [] then c else MovedAll(Moved(c, link, moves[0]), link, moves[1..])
  }

  lemma MoveGrows(c: Nodes, link: Link, move: Move)
    requires Linked(c, link) && Possible(c, link, move)
    ensures c.master.replication.backlog <= Moved(c, link, move).master.replication.backlog
  {
    hide Linked, ParseCommand, Step, Next, IsAttached, Attached;
    match move {
      case AtMaster(event) => MasterMove(c, link, event);
      case Send(index) => ConnectionOnly(c.master, index, DeliverFrame);
      case Arrive(_) =>
      case Consume(_, _) =>
      case AtReplica(_) =>
      case AckArrives(env) => AckMove(c.master, link.client, c.reports[c.processed], env);
    }
  }

  /** Linked nodes stay linked over every run, and the backlog only grows. */
  lemma {:induction false} RunLinked(c: Nodes, link: Link, moves: seq<Move>)
    requires Linked(c, link) && AllPossible(c, link, moves)
    ensures Linked(MovedAll(c, link, moves), link)
    ensures c.master.replication.backlog <= MovedAll(c, link, moves).master.replication.backlog
    decreases |moves|
  {
    hide Linked, Possible, Moved;
    if moves != [] {
      MoveLinked(c, link, moves[0]);
      MoveGrows(c, link, moves[0]);
      RunLinked(Moved(c, link, moves[0]), link, moves[1..]);
    }
  }

  /* ---------- The replica's values ---------- */

  lemma LinkedValues(c: Nodes, link: Link)
    requires Linked(c, link)
    ensures MasterSide(c.master, link) && c.applied <= |Sent(c, link)|
    ensures InterpretAll(Machine(link.values, None), Sent(c, link)[..c.applied]).Some?
    ensures ValuesOf(c.replica.db) == InterpretAll(Machine(link.values, None), Sent(c, link)[..c.applied]).value.values
  {
    hide Faithful, Invariant, Meaning, Attached, AcksTrue, Answers, CommandsOf, Size, SerializeAll, StreamBytes,
         InterpretAll, ReadOnlyQueues, NoExpiry, ValuesOf, Logged;
  }

  /** The values at frame boundary `j` of the master's stream. */
  ghost function BoundaryValues(s: State, link: Link, j: nat): Option<Machine>
    requires j <= |s.replication.backlog|
  {
    Meaning(link.basis.values, s.replication.backlog[..j])
  }

  lemma MeaningFrom(s: State, link: Link, j: nat)
    requires MasterSide(s, link) && link.start + j <= |s.replication.backlog|
    ensures BoundaryValues(s, link, link.start + j) == Meaning(link.values, s.replication.backlog[link.start..][..j])
  {
    hide Faithful, Invariant, CommandsOf, InterpretAll;
    var backlog := s.replication.backlog;
    assert backlog[..link.start + j] == backlog[..link.start] + backlog[link.start..][..j];
    CommandsAppend(backlog[..link.start], backlog[link.start..][..j]);
    InterpretAppend(Machine(link.basis.values, None), CommandsOf(backlog[..link.start]), CommandsOf(backlog[link.start..][..j]));
  }

  /**
   At every moment the replica's values are those of a frame boundary of the master's stream: of the last one it
   has passed. No half of a transaction is ever visible.
   */
  lemma ReplicaAtFrameBoundary(c: Nodes, link: Link) returns (j: nat)
    requires Linked(c, link)
    ensures j <= |c.master.replication.backlog| && link.start <= j
    ensures forall g: nat :: link.start <= g < |c.master.replication.backlog| ==> (Applied(c, link, g) <==> g < j)
    ensures BoundaryValues(c.master, link, j).Some?
    ensures ValuesOf(c.replica.db) == BoundaryValues(c.master, link, j).value.values
  {
    hide Linked, MasterSide, CommandsOf, InterpretAll, ValuesOf, FramesAtomic;
    LinkedMaster(c, link);
    LinkedValues(c, link);
    StreamLeads(c.master, link);
    var frames := c.master.replication.backlog[link.start..];
    var k := FrameBoundary(link.values, frames, c.applied);
    MeaningFrom(c.master, link, k);
    j := link.start + k;
    forall g: nat | link.start <= g < |c.master.replication.backlog| ensures Applied(c, link, g) <==> g < j {
      PassedFrames(c, link, k, g);
    }
  }

  lemma PassedFrames(c: Nodes, link: Link, k: nat, g: nat)
    requires link.start <= g < |c.master.replication.backlog|
    requires Within(c.master.replication.backlog[link.start..], c.applied, k)
    ensures Applied(c, link, g) <==> g < link.start + k
  {
    hide CommandsOf;
    var frames := c.master.replication.backlog[link.start..];
    var h := g - link.start;
    assert c.master.replication.backlog[link.start..g + 1] == frames[..h + 1];
    if h < k {
      CommandsMonotone(frames, h + 1, k);
    } else {
      CommandsMonotone(frames, k + 1, h + 1);
    }
  }

  /** The last boundary is where the master stands now. */
  lemma LastBoundaryIsLive(s: State, link: Link)
    requires MasterSide(s, link)
    ensures BoundaryValues(s, link, |s.replication.backlog|) == Some(Machine(ValuesOf(s.db), None))
  {
    hide Faithful, Invariant, CommandsOf, InterpretAll, ValuesOf, FramesAtomic;
    StreamLeads(s, link);
    var n := |s.replication.backlog| - link.start;
    assert s.replication.backlog[link.start..][..n] == s.replication.backlog[link.start..];
    MeaningFrom(s, link, n);
  }

  /* ---------- Every boundary is a database the master passed through ---------- */

  /** The states the master passes through in a move. */
  ghost function Passing(c: Nodes, link: Link, move: Move): seq<State>
    requires Possible(c, link, move)
  {
    if move.AtMaster? && move.event.Work? then TurnStations(c.master, move.event.t, move.event.env)
    else if move.AckArrives? then
      TurnStations(c.master, AcknowledgeReplica(link.client, c.reports[c.processed]), move.env)
    else [c.master]
  }

  /** The states the master passes through in a run. */
  ghost function Passed(c: Nodes, link: Link, moves: seq<Move>): seq<State>
    requires AllPossible(c, link, moves)
    decreases |moves|
  {
    if moves == [] then [c.master] else Passing(c, link, moves[0]) + Passed(Moved(c, link, moves[0]), link, moves[1..])
  }

  /** A state of the master at frame boundary `j` of the stream of `s`, with a stream that means its values. */
  ghost predicate Station(u: State, s: State, link: Link, j: nat) {
    && |u.replication.backlog| == j && u.replication.backlog <= s.replication.backlog
    && Faithful(u, link.basis) && u.replication.role.Master?
  }

  lemma MasterFaithful(c: Nodes, link: Link)
    requires Linked(c, link)
    ensures Faithful(c.master, link.basis) && c.master.replication.role.Master?
  {
    LinkedMaster(c, link);
  }

  lemma WorkStation(s: State, t: ProcessorTask, env: Env, link: Link, j: nat) returns (u: State)
    requires Faithful(s, link.basis) && s.replication.role.Master? && Healthy(env) && Recordable(t, Master)
    requires |s.replication.backlog| <= j <= |Step(s, t, env).replication.backlog|
    ensures u in TurnStations(s, t, env) && Station(u, Step(s, t, env), link, j)
  {
    hide Faithful, Healthy, Recordable, Step, TurnStations;
    u := TurnStation(s, t, env, link.basis, j);
  }

  lemma MoveStation(c: Nodes, link: Link, move: Move, j: nat) returns (u: State)
    requires Linked(c, link) && Possible(c, link, move)
    requires |c.master.replication.backlog| <= j <= |Moved(c, link, move).master.replication.backlog|
    ensures u in Passing(c, link, move) && Station(u, Moved(c, link, move).master, link, j)
  {
    hide Linked, Faithful, Healthy, Step, TurnStations, ParseCommand, IsAttached, StepSessions, ExpireAll, Proper;
    MasterFaithful(c, link);
    MoveGrows(c, link, move);
    if move.AtMaster? && move.event.Work? {
      u := WorkStation(c.master, move.event.t, move.event.env, link, j);
    } else if move.AckArrives? {
      AckRecordable(link.client, c.reports[c.processed]);
      u := WorkStation(c.master, AcknowledgeReplica(link.client, c.reports[c.processed]), move.env, link, j);
    } else {
      StillMove(c, link, move);
      u := c.master;
    }
  }

  lemma AckRecordable(client: ClientId, offset: nat)
    ensures Recordable(AcknowledgeReplica(client, offset), Master)
  {
  }

  /** The other moves leave the stream as it is. */
  lemma StillMove(c: Nodes, link: Link, move: Move)
    requires Possible(c, link, move) && !move.AckArrives? && (move.AtMaster? ==> !move.event.Work?)
    ensures Moved(c, link, move).master.replication.backlog == c.master.replication.backlog
  {
    hide ParseCommand, Step, IsAttached, ExpireAll;
    if move.AtMaster? && move.event.Tick? {
      ExpireStream(c.master, move.event.now);
    }
  }

  lemma {:induction false} RunStation(c: Nodes, link: Link, moves: seq<Move>, j: nat) returns (u: State)
    requires Linked(c, link) && AllPossible(c, link, moves)
    requires |c.master.replication.backlog| <= j <= |MovedAll(c, link, moves).master.replication.backlog|
    ensures u in Passed(c, link, moves) && Station(u, MovedAll(c, link, moves).master, link, j)
    decreases |moves|
  {
    if moves == [] {
      hide Linked, Faithful;
      MasterFaithful(c, link);
      u := c.master;
    } else {
      hide Linked, Faithful, Possible, Moved, Passing;
      var d := Moved(c, link, moves[0]);
      MoveLinked(c, link, moves[0]);
      RunLinked(d, link, moves[1..]);
      if j <= |d.master.replication.backlog| {
        u := MoveStation(c, link, moves[0], j);
      } else {
        u := RunStation(d, link, moves[1..], j);
      }
    }
  }

  lemma StationValues(u: State, s: State, link: Link, j: nat)
    requires Station(u, s, link, j)
    ensures j <= |s.replication.backlog| && BoundaryValues(s, link, j) == Some(Machine(ValuesOf(u.db), None))
  {
    hide Timeless, QueuesPlain, PopsSound, CommandsOf, StreamBytes, InterpretAll, Denotes, ValuesOf;
    assert s.replication.backlog[..j] == u.replication.backlog;
    StreamMeans(u.replication.backlog, link.basis.values);
  }

  /**
   In every run the replica holds the values of a database that the master itself passed through, also in
   the middle of a turn, or of a boundary older than the run.
   */
  lemma ReplicaHoldsMasterState(c: Nodes, link: Link, moves: seq<Move>) returns (j: nat, u: State)
    requires Linked(c, link) && AllPossible(c, link, moves)
    ensures link.start <= j <= |MovedAll(c, link, moves).master.replication.backlog|
    ensures forall g: nat :: link.start <= g < |MovedAll(c, link, moves).master.replication.backlog| ==>
              (Applied(MovedAll(c, link, moves), link, g) <==> g < j)
    ensures |c.master.replication.backlog| <= j ==>
              && u in Passed(c, link, moves) && |u.replication.backlog| == j
              && ValuesOf(MovedAll(c, link, moves).replica.db) == ValuesOf(u.db)
  {
    hide Linked, AllPossible, MovedAll, Passed, ValuesOf, BoundaryValues, Station;
    var d := MovedAll(c, link, moves);
    RunLinked(c, link, moves);
    j := ReplicaAtFrameBoundary(d, link);
    u := c.master;
    if |c.master.replication.backlog| <= j {
      u := RunStation(c, link, moves, j);
      StationValues(u, d.master, link, j);
      StationLength(u, d.master, link, j);
    }
  }

  lemma StationLength(u: State, s: State, link: Link, j: nat)
    requires Station(u, s, link, j)
    ensures |u.replication.backlog| == j
  {
  }

  /** Whenever the replica has applied what the master had sent by an earlier moment, it has the values of that moment. */
  lemma ReplicaReflectsMaster(c: Nodes, link: Link, moves: seq<Move>)
    requires Linked(c, link) && AllPossible(c, link, moves)
    requires link.start <= |c.master.replication.backlog|
    requires MovedAll(c, link, moves).applied == |Sent(c, link)|
    ensures ValuesOf(MovedAll(c, link, moves).replica.db) == ValuesOf(c.master.db)
  {
    hide Linked, MasterSide, AllPossible, MovedAll, CommandsOf, InterpretAll, ValuesOf, FramesAtomic;
    var d := MovedAll(c, link, moves);
    RunLinked(c, link, moves);
    LinkedMaster(c, link);
    LinkedValues(d, link);
    StreamLeads(c.master, link);
    var earlier := c.master.replication.backlog;
    var now := d.master.replication.backlog;
    assert now[link.start..] == earlier[link.start..] + now[|earlier|..];
    CommandsAppend(earlier[link.start..], now[|earlier|..]);
    assert Sent(d, link)[..d.applied] == Sent(c, link);
  }

  /* ---------- The consuming loop ---------- */

  /** The consuming loop never meets a malformed command, and no command it applies is answered with an error. */
  lemma ConsumingNeverFails(c: Nodes, link: Link, id: TaskId, env: Env)
    requires Linked(c, link) && AppendsSucceed(env)
    ensures !ParseCommand(c.buffer).Invalid?
    ensures ParseCommand(c.buffer).Complete? ==>
              var parsed := ParseCommand(c.buffer);
              var after := ProcessTask(c.replica, StreamTask(id, parsed.command, parsed.consumed), env);
              |after.replies| == |c.replica.replies| + 1 && !after.replies[|c.replica.replies|].response.SimpleError?
  {
    hide Linked, MasterSide, ParseCommand, ProcessTask, AppendsSucceed, SerializeCommand, InterpretAll, Interpret,
         CommandsOf;
    if !ParseCommand(c.buffer).Incomplete? {
      LinkedMaster(c, link);
      NextCommand(c, link);
      NextMeans(c.master, link, c.applied);
      LinkedReplica(c, link);
      var m := InterpretAll(Machine(link.values, None), Sent(c, link)[..c.applied]).value;
      StreamTaskApplies(c.replica, id, Sent(c, link)[c.applied], ParseCommand(c.buffer).consumed, env, m);
    }
  }

  lemma LinkedReplica(c: Nodes, link: Link)
    requires Linked(c, link)
    ensures MasterSide(c.master, link) && c.applied <= |Sent(c, link)|
    ensures InterpretAll(Machine(link.values, None), Sent(c, link)[..c.applied]).Some?
    ensures ReplicaAt(c.replica, InterpretAll(Machine(link.values, None), Sent(c, link)[..c.applied]).value)
    ensures c.replica.replication.offset == Origin(c, link) + |SerializeAll(Sent(c, link)[..c.applied])|
  {
    hide Faithful, Invariant, Meaning, Attached, AcksTrue, Answers, CommandsOf, Size, SerializeAll, StreamBytes,
         InterpretAll, ReplicaAt;
  }

  /** Once every byte has arrived, the loop goes on until everything has been applied. */
  lemma ConsumingNeverStuck(c: Nodes, link: Link)
    requires Linked(c, link) && link.start <= |c.master.replication.backlog|
    requires c.delivered == c.master.replication.backlog[link.start..] && c.wire == []
    requires c.applied < |Sent(c, link)|
    ensures ParseCommand(c.buffer).Complete?
  {
    hide Linked, ParseCommand, CommandsOf, SerializeAll, Representable;
    var more := RestOfStream(c, link);
    assert c.buffer + c.wire + more == c.buffer;
    FirstParses(c.buffer, Sent(c, link)[c.applied..]);
  }

  /** The inner loop of the consumer: command after command until the buffer holds none. */
  function ConsumeBuffer(c: Nodes, id: TaskId, envs: nat -> Env): Nodes
    decreases |c.buffer|
  {
    match ParseCommand(c.buffer)
    case Complete(command, consumed) => ConsumeBuffer(Consuming(c, id, command, consumed, envs(id)), id + 1, envs)
    case Incomplete => c
    case Invalid(_) => c
  }

  /** The loop keeps the nodes linked and touches neither the master nor what was sent. */
  lemma {:induction false} ConsumeBufferLinked(c: Nodes, link: Link, id: TaskId, envs: nat -> Env)
    requires Linked(c, link) && forall i :: AppendsSucceed(envs(i))
    ensures var d := ConsumeBuffer(c, id, envs);
            && Linked(d, link) && !ParseCommand(d.buffer).Complete?
            && d.master == c.master && d.delivered == c.delivered && d.wire == c.wire
    decreases |c.buffer|
  {
    hide Linked, ParseCommand, Step, AppendsSucceed;
    match ParseCommand(c.buffer) {
      case Complete(command, consumed) =>
        ConsumeLinked(c, link, id, command, consumed, envs(id));
        ConsumeBufferLinked(Consuming(c, id, command, consumed, envs(id)), link, id + 1, envs);
      case Incomplete =>
      case Invalid(_) =>
    }
  }

  /**
   When everything the master has sent has arrived, one run of the loop brings the replica level: all commands are
   applied, the values are the master's, and so is the offset.
   */
  lemma LoopCatchesUp(c: Nodes, link: Link, id: TaskId, envs: nat -> Env)
    requires Linked(c, link) && forall i :: AppendsSucceed(envs(i))
    requires link.start <= |c.master.replication.backlog|
    requires c.delivered == c.master.replication.backlog[link.start..] && c.wire == []
    ensures var d := ConsumeBuffer(c, id, envs);
            && d.applied == |Sent(c, link)|
            && ValuesOf(d.replica.db) == ValuesOf(c.master.db)
            && d.replica.replication.offset == c.master.replication.offset
  {
    hide Linked, MasterSide, ParseCommand, ConsumeBuffer, AppendsSucceed, CommandsOf, InterpretAll, ValuesOf,
         SerializeAll, Size;
    var d := ConsumeBuffer(c, id, envs);
    ConsumeBufferLinked(c, link, id, envs);
    LinkedMaster(d, link);
    LinkedValues(d, link);
    if d.applied < |Sent(d, link)| {
      ConsumingNeverStuck(d, link);
    }
    assert Sent(d, link)[..d.applied] == Sent(d, link);
    StreamLeads(d.master, link);
    LinkedReplica(d, link);
    WholeStream(d.master, link);
  }

  lemma WholeStream(s: State, link: Link)
    requires MasterSide(s, link)
    ensures s.replication.offset ==
            Size(s.replication.backlog[..link.start]) + |SerializeAll(CommandsOf(s.replication.backlog[link.start..]))|
  {
    hide Faithful, Meaning, CommandsOf, Size, SerializeAll, StreamBytes, FramesAtomic, Mirror, SessionsFollow,
         WritesAtFrameEnds, OffsetsTrue, InterpretAll;
    StreamLeads(s, link);
    var backlog := s.replication.backlog;
    StreamSerialized(backlog[link.start..]);
    SizeIsLength(backlog);
    SizeIsLength(backlog[..link.start]);
    assert backlog == backlog[..link.start] + backlog[link.start..];
    StreamAppend(backlog[..link.start], backlog[link.start..]);
  }

  /* ---------- WAIT ---------- */

  lemma {:induction false} SerializedGrows(commands: seq<Command>, i: nat, j: nat)
    requires i < j <= |commands|
    ensures |SerializeAll(commands[..i])| < |SerializeAll(commands[..j])|
  {
    hide SerializeAll, SerializeCommand;
    OneMore(commands, i);
    SerializedNonempty(commands[i]);
    assert commands[..j] == commands[..i + 1] + commands[i + 1..j];
    SerializeAppend(commands[..i + 1], commands[i + 1..j]);
  }

  lemma FrameEnds(s: State, link: Link, i: nat)
    requires MasterSide(s, link) && link.start <= i < |s.replication.backlog|
    ensures var sent := CommandsOf(s.replication.backlog[link.start..]);
            var k := |CommandsOf(s.replication.backlog[link.start..i + 1])|;
            && k <= |sent|
            && s.replication.backlog[i].endingOffset == Size(s.replication.backlog[..link.start]) + |SerializeAll(sent[..k])|
  {
    hide Faithful, Meaning, CommandsOf, Size, SerializeAll, StreamBytes, FrameAtomic, Mirror, SessionsFollow,
         WritesAtFrameEnds, InterpretAll;
    StreamLeads(s, link);
    var backlog := s.replication.backlog;
    var part := backlog[link.start..i + 1];
    assert backlog[link.start..] == part + backlog[i + 1..];
    CommandsAppend(part, backlog[i + 1..]);
    assert CommandsOf(backlog[link.start..])[..|CommandsOf(part)|] == CommandsOf(part);
    StreamSerialized(part);
    SizeIsLength(backlog[..i + 1]);
    SizeIsLength(backlog[..link.start]);
    assert backlog[..i + 1] == backlog[..link.start] + part;
    StreamAppend(backlog[..link.start], part);
  }

  /** Frames end behind the beginning of the stream. */
  lemma FrameEndsLater(s: State, link: Link, i: nat)
    requires MasterSide(s, link) && link.start <= i < |s.replication.backlog|
    ensures s.replication.backlog[i].endingOffset > 0
  {
    hide MasterSide, CommandsOf, Size, SerializeAll, FrameAtomic;
    FrameEnds(s, link, i);
    StreamLeads(s, link);
    var backlog := s.replication.backlog;
    var part := backlog[link.start..i + 1];
    assert part == backlog[link.start..i] + [backlog[i]];
    CommandsAppend(backlog[link.start..i], [backlog[i]]);
    assert FrameAtomic(backlog[i]);
    SingleCommands(backlog[i]);
    SerializedGrows(CommandsOf(backlog[link.start..]), 0, |CommandsOf(part)|);
  }

  /** A replica that is counted for `target` has applied every frame from its registration up to `target`. */
  lemma WaitSound(c: Nodes, link: Link, target: nat, place: int, i: nat)
    requires Linked(c, link)
    requires place in AtTarget(c.master.replication.sessions, c.master.replication.acknowledged, target)
    requires c.master.replication.sessions[place].client == link.client
    requires link.start <= i < |c.master.replication.backlog| && c.master.replication.backlog[i].endingOffset <= target
    ensures Applied(c, link, i)
  {
    hide MasterSide, Attached, InStep, Answers, CommandsOf, Size, SerializeAll;
    LinkedMaster(c, link);
    LinkedReplica(c, link);
    FrameEnds(c.master, link, i);
    FrameEndsLater(c.master, link, i);
    var k := |CommandsOf(c.master.replication.backlog[link.start..i + 1])|;
    if c.applied < k {
      SerializedGrows(Sent(c, link), c.applied, k);
    }
  }

  /** The requests for acknowledgement between the registration and frame `g`; the reply to `g` is the report of that number. */
  function RequestNumber(c: Nodes, link: Link, g: nat): nat
    requires link.start <= g <= |c.master.replication.backlog|
  {
    AskCount(CommandsOf(c.master.replication.backlog[link.start..g]))
  }

  lemma {:induction false} AskMonotone(commands: seq<Command>, i: nat, j: nat)
    requires i <= j <= |commands|
    ensures AskCount(commands[..i]) <= AskCount(commands[..j])
    decreases j
  {
    if i < j {
      AskMonotone(commands, i, j - 1);
      assert commands[..j][..j - 1] == commands[..j - 1];
    }
  }

  /** The report with the number of request `g` is the answer to it: the offset of everything before it. */
  lemma RequestReport(c: Nodes, link: Link, g: nat)
    requires Linked(c, link) && link.start <= g < |c.master.replication.backlog| && Asks(c.master.replication.backlog[g])
    requires RequestNumber(c, link, g) < |c.reports|
    ensures c.reports[RequestNumber(c, link, g)] == Size(c.master.replication.backlog[..g])
  {
    hide MasterSide, Attached, InStep, AcksTrue, CommandsOf, Size, SerializeAll, AskCount, Asks;
    LinkedMaster(c, link);
    var backlog := c.master.replication.backlog;
    var n := |CommandsOf(backlog[link.start..g])|;
    var sent := Sent(c, link);
    RequestPosition(c.master, link, g);
    RequestNext(c.master, link, g, n);
    assert sent[..n] == CommandsOf(backlog[link.start..g]);
    if c.applied <= n {
      AskMonotone(sent, c.applied, n);
    }
  }

  lemma RequestPosition(s: State, link: Link, g: nat)
    requires MasterSide(s, link) && link.start <= g < |s.replication.backlog| && Asks(s.replication.backlog[g])
    ensures var before := CommandsOf(s.replication.backlog[link.start..g]);
            && |CommandsOf(s.replication.backlog[link.start..g + 1])| == |before| + 1
            && before <= CommandsOf(s.replication.backlog[link.start..])
  {
    hide Faithful, Invariant, Meaning, CommandsOf, UnitOf, Asks, FrameAtomic, InterpretAll;
    StreamLeads(s, link);
    var backlog := s.replication.backlog;
    assert backlog[link.start..g + 1] == backlog[link.start..g] + [backlog[g]];
    CommandsAppend(backlog[link.start..g], [backlog[g]]);
    SingleCommands(backlog[g]);
    GetAckUnit(backlog[g]);
    assert backlog[link.start..] == backlog[link.start..g] + backlog[g..];
    CommandsAppend(backlog[link.start..g], backlog[g..]);
  }

  /**
   A replica that was attached when a request went out counts for what had been written by then, as soon as its
   answer to that request has been processed, whatever else is still under way.
   */
  lemma WaitProgresses(c: Nodes, link: Link, moves: seq<Move>, g: nat, target: nat)
    requires Linked(c, link) && AllPossible(c, link, moves)
    requires link.start <= g < |c.master.replication.backlog| && Asks(c.master.replication.backlog[g])
    requires target <= Size(c.master.replication.backlog[..g])
    requires RequestNumber(c, link, g) < MovedAll(c, link, moves).processed
    ensures var r := MovedAll(c, link, moves).master.replication;
            forall i :: 0 <= i < |r.sessions| && r.sessions[i].client == link.client && r.sessions[i].alive ==>
              i in AtTarget(r.sessions, r.acknowledged, target)
    ensures var known := MovedAll(c, link, moves).master.replication.acknowledged;
            link.client in known && known[link.client] >= target
  {
    hide MasterSide, Attached, InStep, Answers, AllPossible, MovedAll, CommandsOf, Size, Asks, AskCount;
    var d := MovedAll(c, link, moves);
    RunLinked(c, link, moves);
    assert d.master.replication.backlog[..g] == c.master.replication.backlog[..g];
    assert d.master.replication.backlog[link.start..g] == c.master.replication.backlog[link.start..g];
    RequestReport(d, link, g);
  }

  /** A WAIT that blocks puts its request behind every frame its client has written. */
  lemma WaitAsks(s: State, task: Task, env: Env)
    requires s.replication.role.Master? && Accounted(s.replication)
    requires |ProcessWait(s, task, env).pendingWaits| > |s.pendingWaits|
    ensures var t := ProcessWait(s, task, env);
            var g := |s.replication.backlog|;
            && |t.pendingWaits| == |s.pendingWaits| + 1 && |t.replication.backlog| == g + 1
            && Asks(t.replication.backlog[g])
            && t.pendingWaits[|s.pendingWaits|].target == WriteOffset(s.replication, task.client)
            && t.pendingWaits[|s.pendingWaits|].target <= Size(t.replication.backlog[..g])
  {
    hide Size, SessionsFollow, CountReached, ParseWait, EnqueueAll, Live, SerializeCommand;
    var r := s.replication;
    WriteBounded(r, task.client);
    assert ProcessWait(s, task, env).replication.backlog[..|r.backlog|] == r.backlog;
  }

  lemma WriteBounded(r: Replication, client: ClientId)
    requires r.role.Master? && Accounted(r)
    ensures WriteOffset(r, client) <= Size(r.backlog)
  {
    hide Size, SessionsFollow;
    if client in r.writeOffsets {
      assert FrameEnd(r.writeOffsets[client], r.backlog);
      var i :| 0 <= i < |r.backlog| && r.backlog[i].endingOffset == r.writeOffsets[client];
      SizeMonotone(r.backlog, i + 1, |r.backlog|);
      assert r.backlog[..|r.backlog|] == r.backlog;
    }
  }

  /* ---------- Registration ---------- */

  /** The two nodes before the replica registers: equal values, and a connection the master has not heard of. */
  ghost predicate Ready(master: State, replica: State, link: Link) {
    && master.replication.role.Master? && Faithful(master, link.basis) && Invariant(master)
    && link.start == |master.replication.backlog| && link.values == ValuesOf(master.db)
    && link.client !in master.replication.acknowledged
    && ReplicaAt(replica, Machine(link.values, None))
  }

  function Registered(master: State, replica: State, client: ClientId, env: Env, replicaEnv: Env): Nodes {
    Nodes(Step(master, RegisterReplica(client), env),
          Step(replica, InstallReplicationState(master.replication.offset), replicaEnv), [], [], [], 0, [], 0)
  }

  lemma ReadyMaster(master: State, replica: State, link: Link)
    requires Ready(master, replica, link)
    ensures MasterSide(master, link) && master.replication.offset == Size(master.replication.backlog)
  {
    hide Timeless, QueuesPlain, PopsSound, CommandsOf, StreamBytes, InterpretAll, Denotes, FramesAtomic, ReplicaAt,
         ValuesOf, Size, OffsetsTrue, SessionsFollow, WritesAtFrameEnds, Mirror;
    var backlog := master.replication.backlog;
    StreamMeans(backlog, link.basis.values);
    assert backlog[..link.start] == backlog;
  }

  lemma RegisterAttaches(r: Replication, client: ClientId)
    requires r.offset == Size(r.backlog)
    ensures Attached(Register(r, client), client, |r.backlog|, [])
  {
    hide Size;
    var t := Register(r, client);
    assert r.backlog[..|r.backlog|] == r.backlog && r.backlog[|r.backlog|..] == [];
    assert IsAttached(t.sessions[|r.sessions|], t.backlog, client, |r.backlog|, []);
  }

  lemma RegisterStep(s: State, client: ClientId, env: Env)
    requires s.replication.offset == Size(s.replication.backlog)
    ensures var t := Step(s, RegisterReplica(client), env).replication;
            && s.replication.backlog <= t.backlog && t.acknowledged == s.replication.acknowledged
            && Attached(t, client, |s.replication.backlog|, [])
  {
    hide RetryAll, ExpireAll, Evolves, DbOk, Accounted, Mirror, Extends, ProcessTask, LoadEntries, ProcessAof,
         ProcessUnregister, Attached, Size;
    var processed := Process(s, RegisterReplica(client), env);
    SettleStep(processed, env, Terms(false, false, true));
    RegisterAttaches(s.replication, client);
    ExtendsAttached(processed.replication, Step(s, RegisterReplica(client), env).replication, client, |s.replication.backlog|, []);
  }

  lemma InstallStep(s: State, offset: nat, env: Env, m: Machine)
    requires ReplicaAt(s, m)
    ensures var t := Step(s, InstallReplicationState(offset), env); ReplicaAt(t, m) && t.replication.offset == offset
  {
    hide RetryAll, ExpireAll, Matches, ReadOnlyQueues, ProcessTask, LoadEntries, ProcessAof, ProcessUnregister;
    var processed := Process(s, InstallReplicationState(offset), env);
    MatchesSame(s, processed, m);
    ReplicaUnexpiring(processed, m);
    TurnEndsSteady(processed, env);
    SteadyReplica(processed, Step(s, InstallReplicationState(offset), env), m);
  }

  /** Nothing has been applied or reported at the beginning. */
  lemma NothingReported(sent: seq<Command>, origin: nat, acknowledged: map<ClientId, nat>, client: ClientId)
    requires client !in acknowledged
    ensures Answers([], sent, 0, origin) && AcksTrue([], 0, acknowledged, client, origin)
  {
    assert sent[..0] == [];
  }

  lemma StartInStep(c: Nodes, values: Values, sent: seq<Command>, origin: nat)
    requires c.applied == 0 && c.buffer == [] && c.wire == [] && c.delivered == []
    requires ReplicaAt(c.replica, Machine(values, None)) && c.replica.replication.offset == origin
    ensures InStep(c, values, sent, origin)
  {
    hide ReplicaAt, SerializeCommand, Interpret;
    assert sent[..0] == [];
    InterpretNothing(Machine(values, None));
    NoBytes();
  }

  /** Registering a replica with equal values, both empty for instance, links the nodes. */
  lemma RegistrationLinks(master: State, replica: State, link: Link, env: Env, replicaEnv: Env)
    requires Ready(master, replica, link) && Healthy(env)
    ensures Linked(Registered(master, replica, link.client, env, replicaEnv), link)
  {
    hide Faithful, Invariant, ReplicaAt, Attached, Answers, AcksTrue, InStep, Step, Healthy, Size, CommandsOf, MasterSide;
    var c := Registered(master, replica, link.client, env, replicaEnv);
    ReadyMaster(master, replica, link);
    RegisterStep(master, link.client, env);
    MasterSideKept(master, Work(RegisterReplica(link.client), env), link);
    InstallStep(replica, master.replication.offset, replicaEnv, Machine(link.values, None));
    assert c.master.replication.backlog[..link.start] == master.replication.backlog;
    StartInStep(c, link.values, Sent(c, link), Origin(c, link));
    NothingReported(Sent(c, link), Origin(c, link), c.master.replication.acknowledged, link.client);
  }

  /** Two servers that have just started are ready to be linked. */
  lemma FreshNodesReady(masterAccess: bool, replicaAccess: bool, client: ClientId)
    ensures Ready(InitialState(Master, masterAccess), InitialState(Replica, replicaAccess),
                  Link(client, 0, Basis(map[], false), map[]))
  {
    InitialInvariant(Master, masterAccess);
    EmptyFileDenotes();
    assert StreamBytes([]) == [];
    assert ValuesOf(EMPTY_DB) == map[];
    hide Invariant, Denotes, DbOk;
  }
}
