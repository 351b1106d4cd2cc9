/** The session object between the worker, which enqueues frames, and the thread that sends them. */
module ReplicaSessions {
  import opened Wrappers
  import opened Decimal
  import opened Resp
  import opened Channels
  import opened ReplicationStream

  class ReplicaSession {
    const client: ClientId
    const startingOffset: nat
    var pending: seq<Frame>
    var closed: bool
    /** The frames that have been handed to the sending thread. */
    ghost var delivered: seq<Frame>

    ghost function View(): Session
      reads this
    {
      Session(client, startingOffset, delivered, pending, closed, true)
    }

    constructor (client: ClientId, startingOffset: nat)
      ensures View() == Session(client, startingOffset, [], [], false, true)
    {
      this.client, this.startingOffset := client, startingOffset;
      pending, closed, delivered := [], false, [];
    }

    /** A closed session takes no more frames. */
    method Push(frame: Frame)
      modifies this
      ensures View() == Enqueue(old(View()), frame)
    {
      if closed {
        return;
      }
      pending := pending + [frame];
    }

    /** wait_for_frame, once its wait is over: the front frame, unless the session was closed or is to stop. */
    method WaitForFrame(stopping: bool) returns (frame: Option<Frame>)
      requires stopping || closed || pending != []
      modifies this
      ensures frame.None? <==> stopping || old(closed)
      ensures frame.None? ==> View() == old(View())
      ensures frame.Some? ==> View() == StepSession(old(View()), DeliverFrame) && delivered == old(delivered) + [frame.value]
    {
      if stopping || closed {
        return None;
      }
      frame := Some(pending[0]);
      delivered := delivered + [pending[0]];
      pending := pending[1..];
    }

    method Close()
      modifies this
      ensures View() == StepSession(old(View()), CloseSession)
    {
      closed := true;
    }
  }

  /* ---------- Acknowledgements on the wire ---------- */

  const REPLCONF: Bytes := "REPLCONF"
  const ACK: Bytes := "ACK"

  function AckCommand(offset: nat): Command {
    [REPLCONF, ACK, Print(offset)]
  }

  /** What the master takes from a replica's answer; None ends the connection. */
  function ReadAck(command: Command): Option<nat> {
    if |command| != 3 || command[0] != REPLCONF || command[1] != ACK then None else ParseU64(command[2])
  }

  /** An offset that the replica reports arrives unchanged, whatever follows it. */
  lemma AckRoundTrip(offset: nat, tail: Bytes)
    requires offset < U64_LIMIT
    ensures var bytes := SerializeCommand(AckCommand(offset));
            && ParseCommand(bytes + tail) == Complete(AckCommand(offset), |bytes|)
            && ReadAck(AckCommand(offset)) == Some(offset)
  {
    hide Print, SerializeCommand, ParseCommand, ParseUnsigned;
    PrintParse(offset, U64_LIMIT);
    PrintU64Length(offset);
    RoundTrip(AckCommand(offset), tail);
  }
}
