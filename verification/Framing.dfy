/**
 The receive loop of a connection: bytes arrive in arbitrary pieces, are appended to a
 buffer, and complete commands are taken off its front.
 */
module Framing {
  import opened Decimal
  import opened Resp

  /** Why the inner loop stopped looking at the buffer. */
  datatype Stop =
    | NeedsMore   // the buffer holds no complete command
    | Malformed   // the connection is closed
    | Handover    // PSYNC: the connection becomes a replica connection

  datatype Drained = Drained(commands: seq<Command>, consumed: nat, stop: Stop)

  /** What draining the rest of a buffer adds to what was already taken from its front. */
  function After(commands: seq<Command>, consumed: nat, rest: Drained): Drained {
    Drained(commands + rest.commands, consumed + rest.consumed, rest.stop)
  }

  predicate StartsReplication(command: Command) {
    |command| == 3 && command[0] == "PSYNC"
  }

  /** What the loop does to a buffer, read as one piece. */
  function Drain(buffer: Bytes): (d: Drained)
    ensures d.consumed <= |buffer|
    decreases |buffer|
  {
    match ParseCommand(buffer)
    case Incomplete => Drained([], 0, NeedsMore)
    case Invalid(_) => Drained([], 0, Malformed)
    case Complete(command, consumed) =>
      if StartsReplication(command) then Drained([], 0, Handover)
      else After([command], consumed, Drain(buffer[consumed..]))
  }

  /** A connection: bytes kept, commands handed to the processor, bytes used, and whether it still reads. */
  datatype Connection = Connection(buffer: Bytes, commands: seq<Command>, consumed: nat, stop: Stop)

  const FRESH := Connection([], [], 0, NeedsMore)

  /** One receive. A connection that has stopped reads nothing more. */
  function Receive(connection: Connection, chunk: Bytes): Connection {
    if connection.stop != NeedsMore then connection
    else
      var buffer := connection.buffer + chunk;
      var d := Drain(buffer);
      Connection(buffer[d.consumed..], connection.commands + d.commands,
                 connection.consumed + d.consumed, d.stop)
  }

  function ReceiveAll(connection: Connection, chunks: seq<Bytes>): Connection
    decreases |chunks|
  {
    if chunks == [] then connection
    else ReceiveAll(Receive(connection, chunks[0]), chunks[1..])
  }

  function Flatten(chunks: seq<Bytes>): Bytes {
    if chunks == [] then [] else chunks[0] + Flatten(chunks[1..])
  }

  lemma AfterNothing(d: Drained)
    ensures After([], 0, d) == d
  {
    assert [] + d.commands == d.commands;
  }

  lemma AfterEnd(commands: seq<Command>, consumed: nat, stop: Stop)
    ensures After(commands, consumed, Drained([], 0, stop)) == Drained(commands, consumed, stop)
  {
    assert commands + [] == commands;
  }

  lemma AfterAfter(first: seq<Command>, m: nat, second: seq<Command>, n: nat, d: Drained)
    ensures After(first, m, After(second, n, d)) == After(first + second, m + n, d)
  {
    assert first + (second + d.commands) == first + second + d.commands;
  }

  /** Draining a longer buffer first does what draining its prefix does. */
  lemma {:induction false} DrainAppend(first: Bytes, second: Bytes)
    ensures Drain(first).stop != NeedsMore ==> Drain(first + second) == Drain(first)
    ensures Drain(first).stop == NeedsMore ==>
              Drain(first + second) ==
              After(Drain(first).commands, Drain(first).consumed, Drain(first[Drain(first).consumed..] + second))
    decreases |first|
  {
    hide ParseCommand, StartsReplication;
    var outcome := ParseCommand(first);
    var d := Drain(first);
    if outcome.Incomplete? {
      assert first[0..] == first;
      AfterNothing(Drain(first + second));
    } else {
      ParseStable(first, second);
      if outcome.Complete? && !StartsReplication(outcome.command) {
        var n := outcome.consumed;
        assert (first + second)[n..] == first[n..] + second;
        DrainAppend(first[n..], second);
        var rest := Drain(first[n..]);
        assert first[n..][rest.consumed..] == first[d.consumed..];
        AfterAfter([outcome.command], n, rest.commands, rest.consumed, Drain(first[d.consumed..] + second));
      }
    }
  }

  /** `connection` is what one receive of `received` would have produced. */
  predicate Follows(connection: Connection, received: Bytes) {
    var d := Drain(received);
    && connection.commands == d.commands
    && connection.consumed == d.consumed
    && connection.stop == d.stop
    && (d.stop == NeedsMore ==> connection.buffer == received[d.consumed..])
  }

  lemma ReceiveFollows(connection: Connection, received: Bytes, chunk: Bytes)
    requires Follows(connection, received)
    ensures Follows(Receive(connection, chunk), received + chunk)
  {
    hide Drain;
    DrainAppend(received, chunk);
    var d := Drain(received);
    if d.stop == NeedsMore {
      var more := Drain(received[d.consumed..] + chunk);
      assert received[d.consumed..] + chunk == (received + chunk)[d.consumed..];
      assert (received + chunk)[d.consumed..][more.consumed..] == (received + chunk)[d.consumed + more.consumed..];
    }
  }

  lemma {:induction false} ReceiveAllFollows(connection: Connection, received: Bytes, chunks: seq<Bytes>)
    requires Follows(connection, received)
    ensures Follows(ReceiveAll(connection, chunks), received + Flatten(chunks))
    decreases |chunks|
  {
    if chunks == [] {
      assert received + [] == received;
    } else {
      hide Follows;
      ReceiveFollows(connection, received, chunks[0]);
      ReceiveAllFollows(Receive(connection, chunks[0]), received + chunks[0], chunks[1..]);
      assert received + chunks[0] + Flatten(chunks[1..]) == received + Flatten(chunks);
    }
  }

  /** Chunking independence: the same bytes give the same commands and the same stopping point. */
  lemma ChunkingIndependence(chunks: seq<Bytes>, others: seq<Bytes>)
    requires Flatten(chunks) == Flatten(others)
    ensures var a := ReceiveAll(FRESH, chunks);
            var b := ReceiveAll(FRESH, others);
            && a.commands == b.commands == Drain(Flatten(chunks)).commands
            && a.consumed == b.consumed
            && a.stop == b.stop
            && (a.stop == NeedsMore ==> a.buffer == b.buffer)
  {
    assert Follows(FRESH, []);
    assert [] + Flatten(chunks) == Flatten(chunks);
    ReceiveAllFollows(FRESH, [], chunks);
    ReceiveAllFollows(FRESH, [], others);
  }

  /** The loop has taken `commands` off the front of `whole`, `used` bytes, and goes on with the rest. */
  predicate Taken(whole: Bytes, commands: seq<Command>, used: nat) {
    used <= |whole| && Drain(whole) == After(commands, used, Drain(whole[used..]))
  }

  lemma NothingTaken(whole: Bytes)
    ensures Taken(whole, [], 0)
  {
    hide Drain;
    assert whole[0..] == whole;
    AfterNothing(Drain(whole));
  }

  lemma TakenOne(whole: Bytes, commands: seq<Command>, used: nat)
    requires Taken(whole, commands, used)
    requires ParseCommand(whole[used..]).Complete? && !StartsReplication(ParseCommand(whole[used..]).command)
    ensures var parsed := ParseCommand(whole[used..]);
            && Taken(whole, commands + [parsed.command], used + parsed.consumed)
            && whole[used..][parsed.consumed..] == whole[used + parsed.consumed..]
  {
    hide ParseCommand, StartsReplication, After;
    var parsed := ParseCommand(whole[used..]);
    assert whole[used..][parsed.consumed..] == whole[used + parsed.consumed..];
    AfterAfter(commands, used, [parsed.command], parsed.consumed, Drain(whole[used + parsed.consumed..]));
  }

  /** Why the loop stops in front of what it cannot take. */
  function StopAt(rest: Bytes): Stop {
    match ParseCommand(rest)
    case Incomplete => NeedsMore
    case Invalid(_) => Malformed
    case Complete(_, _) => Handover
  }

  lemma TakenAll(whole: Bytes, commands: seq<Command>, used: nat)
    requires Taken(whole, commands, used)
    requires ParseCommand(whole[used..]).Complete? ==> StartsReplication(ParseCommand(whole[used..]).command)
    ensures Drain(whole) == Drained(commands, used, StopAt(whole[used..]))
  {
    hide ParseCommand, StartsReplication, After;
    AfterEnd(commands, used, StopAt(whole[used..]));
  }

  lemma NothingParses()
    ensures ParseCommand([]) == Incomplete
  {
  }

  /** The connection thread's state; its methods are the appending and draining of the input buffer. */
  class ConnectionThread {
    var inputBuffer: Bytes
    var submitted: seq<Command>
    var consumed: nat
    var stop: Stop

    function View(): Connection
      reads this
    {
      Connection(inputBuffer, submitted, consumed, stop)
    }

    constructor ()
      ensures View() == FRESH
    {
      inputBuffer, submitted, consumed, stop := [], [], 0, NeedsMore;
    }

    /** One receive followed by the parse-submit-erase loop. */
    method ReceiveChunk(chunk: Bytes)
      modifies this
      ensures View() == Receive(old(View()), chunk)
    {
      hide ParseCommand, StartsReplication, Drain, Taken;
      if stop != NeedsMore {
        return;
      }
      inputBuffer := inputBuffer + chunk;
      ghost var whole := inputBuffer;
      ghost var taken, used: nat := [], 0;
      NothingTaken(whole);
      NothingParses();
      while inputBuffer != []
        invariant stop == NeedsMore
        invariant Taken(whole, taken, used) && used <= |whole| && inputBuffer == whole[used..]
        invariant consumed == old(consumed) + used && submitted == old(submitted) + taken
        decreases |inputBuffer|
      {
        var outcome := ParseCommandLoop(inputBuffer);
        if outcome.Incomplete? {
          break;
        }
        if outcome.Invalid? {
          stop := Malformed;
          break;
        }
        if StartsReplication(outcome.command) {
          stop := Handover;
          break;
        }
        TakenOne(whole, taken, used);
        submitted := submitted + [outcome.command];
        inputBuffer := inputBuffer[outcome.consumed..];
        consumed := consumed + outcome.consumed;
        taken, used := taken + [outcome.command], used + outcome.consumed;
      }
      TakenAll(whole, taken, used);
    }
  }
}
