/** The Pub/Sub hand-over: a locked queue and an event counter between the worker and a connection thread. */
module Wakeup {
  import opened Wrappers
  import opened Decimal

  /** The largest value an eventfd counter takes; a write that would exceed it reports EAGAIN. */
  const COUNTER_MAX: nat := 0xFFFF_FFFF_FFFF_FFFE

  /** The worker: outside enqueue, or inside it, holding the lock, with the frame pushed and the write to come. */
  datatype Producer = Idle | Notifying(frame: Bytes)

  /** The connection thread: anywhere but in send_pending_pubsub_frames, or at one of its steps. */
  datatype Consumer = Outside | Clearing | Draining | Sending(frame: Bytes) | Closed

  /** `accepted` lists the frames whose enqueue has succeeded, `sent` those written to the socket. */
  datatype Protocol = Protocol(
    queue: seq<Bytes>, counter: nat, producer: Producer, consumer: Consumer, sent: seq<Bytes>, accepted: seq<Bytes>)

  datatype Action =
    | Push(frame: Bytes)
    | NotifyWritten
    | NotifyFull
    | NotifyFailed
    | Wake
    | Clear
    | ClearFailed
    | Pop
    | SendSucceeds
    | SendFails

  const START := Protocol([], 0, Idle, Outside, [], [])

  /** What may happen next; pushing and popping need the lock. */
  predicate Enabled(p: Protocol, action: Action) {
    match action
    case Push(_) => p.producer.Idle?
    case NotifyWritten => p.producer.Notifying? && p.counter < COUNTER_MAX
    case NotifyFull => p.producer.Notifying? && p.counter == COUNTER_MAX
    case NotifyFailed => p.producer.Notifying?
    case Wake => p.consumer.Outside?
    case Clear => p.consumer.Clearing?
    case ClearFailed => p.consumer.Clearing?
    case Pop => p.consumer.Draining? && p.producer.Idle?
    case SendSucceeds => p.consumer.Sending?
    case SendFails => p.consumer.Sending?
  }

  function Pushed(p: Protocol, frame: Bytes): Protocol {
    var longer := p.(queue := p.queue + [frame]);
    if p.queue == [] then longer.(producer := Notifying(frame)) else longer.(accepted := p.accepted + [frame])
  }

  /** A failed write takes the frame back from the end of the queue. */
  function Settled(p: Protocol, ok: bool): Protocol
    requires p.producer.Notifying? && (!ok ==> p.queue != [])
  {
    if ok then p.(producer := Idle, accepted := p.accepted + [p.producer.frame])
    else p.(producer := Idle, queue := p.queue[..|p.queue| - 1])
  }

  function Popped(p: Protocol): Protocol {
    if p.queue == [] then p.(consumer := Outside) else p.(queue := p.queue[1..], consumer := Sending(p.queue[0]))
  }

  function Act(p: Protocol, action: Action): Protocol
    requires Enabled(p, action) && Sound(p)
  {
    match action
    case Push(frame) => Pushed(p, frame)
    case NotifyWritten => Settled(p.(counter := p.counter + 1), true)
    case NotifyFull => Settled(p, true)
    case NotifyFailed => Settled(p, false)
    case Wake => p.(consumer := Clearing)
    case Clear => p.(counter := 0, consumer := Draining)
    case ClearFailed => p.(consumer := Closed)
    case Pop => Popped(p)
    case SendSucceeds => p.(sent := p.sent + [p.consumer.frame], consumer := Draining)
    case SendFails => p.(consumer := Closed)
  }

  /** The frame popped and not yet sent. */
  function Underway(p: Protocol): seq<Bytes> {
    if p.consumer.Sending? then [p.consumer.frame] else []
  }

  /** The frame pushed and not yet accepted. */
  function Undecided(p: Protocol): seq<Bytes> {
    if p.producer.Notifying? then [p.producer.frame] else []
  }

  /**
   Nothing is lost or doubled while the connection is open, the undecided frame is alone in the queue, and a
   consumer that is not about to drain a non-empty queue has a notification waiting.
   */
  predicate Sound(p: Protocol) {
    && p.counter <= COUNTER_MAX
    && (p.producer.Notifying? ==> p.queue == [p.producer.frame])
    && (!p.consumer.Closed? ==> p.sent + Underway(p) + p.queue == p.accepted + Undecided(p))
    && (p.consumer.Outside? && p.producer.Idle? && p.queue != [] ==> p.counter > 0)
    && p.sent <= p.accepted
  }

  lemma PushSound(p: Protocol, frame: Bytes)
    requires Sound(p) && p.producer.Idle?
    ensures Sound(Pushed(p, frame))
  {
    assert p.sent + Underway(p) + (p.queue + [frame]) == p.sent + Underway(p) + p.queue + [frame];
  }

  lemma SettleSound(p: Protocol, ok: bool)
    requires Sound(p) && p.producer.Notifying? && (ok ==> p.counter > 0)
    ensures Sound(Settled(p, ok))
  {
    if !p.consumer.Closed? {
      assert (p.sent + Underway(p) + p.queue)[..|p.sent + Underway(p)|] == p.accepted;
    }
  }

  lemma PopSound(p: Protocol)
    requires Sound(p) && p.consumer.Draining? && p.producer.Idle?
    ensures Sound(Popped(p))
  {
    if p.queue != [] {
      assert p.queue == [p.queue[0]] + p.queue[1..];
      assert p.sent + [p.queue[0]] + p.queue[1..] == p.sent + p.queue;
    }
  }

  lemma SendSound(p: Protocol)
    requires Sound(p) && p.consumer.Sending?
    ensures Sound(Act(p, SendSucceeds))
  {
    var q := Act(p, SendSucceeds);
    assert q.sent + Underway(q) + q.queue == p.sent + Underway(p) + p.queue;
    assert q.sent + q.queue == p.accepted + Undecided(p);
    if p.producer.Notifying? {
      assert (q.sent + q.queue)[..|q.sent|] == p.accepted;
    } else {
      assert p.accepted + [] == p.accepted;
    }
  }

  /** Every interleaved step keeps the hand-over sound. */
  lemma ActSound(p: Protocol, action: Action)
    requires Sound(p) && Enabled(p, action)
    ensures Sound(Act(p, action))
  {
    match action {
      case Push(frame) => PushSound(p, frame);
      case NotifyWritten => SettleSound(p.(counter := p.counter + 1), true);
      case NotifyFull => SettleSound(p, true);
      case NotifyFailed => SettleSound(p, false);
      case Pop => PopSound(p);
      case SendSucceeds => SendSound(p);
      case Wake =>
      case Clear =>
      case ClearFailed =>
      case SendFails =>
    }
  }

  predicate AllEnabled(p: Protocol, actions: seq<Action>)
    requires Sound(p)
    decreases |actions|
  {
    actions != [] ==>
      && Enabled(p, actions[0])
      && (ActSound(p, actions[0]); AllEnabled(Act(p, actions[0]), actions[1..]))
  }

  function ActAll(p: Protocol, actions: seq<Action>): (q: Protocol)
    requires Sound(p) && AllEnabled(p, actions)
    ensures Sound(q)
    decreases |actions|
  {
    if actions == [] then p else ActSound(p, actions[0]); ActAll(Act(p, actions[0]), actions[1..])
  }

  /** No wake-up is missed: whenever the consumer polls over a non-empty queue, the poll returns. */
  lemma NoMissedWakeup(actions: seq<Action>)
    requires AllEnabled(START, actions)
    ensures var p := ActAll(START, actions);
            && (p.consumer.Outside? && p.producer.Idle? && p.queue != [] ==> p.counter > 0)
            && (p.consumer.Outside? && p.producer.Notifying? ==>
                  forall action :: Enabled(p, action) && (action.NotifyWritten? || action.NotifyFull? || action.NotifyFailed?) ==>
                    Act(p, action).queue == [] || Act(p, action).counter > 0)
  {
  }

  /** Frames reach the socket in the order in which they were accepted, none twice, none left out. */
  lemma DeliveredInOrder(actions: seq<Action>)
    requires AllEnabled(START, actions)
    ensures var p := ActAll(START, actions);
            && p.sent <= p.accepted
            && (!p.consumer.Closed? && !p.consumer.Sending? && p.producer.Idle? ==> p.sent + p.queue == p.accepted)
  {
    var p := ActAll(START, actions);
    assert p.sent + [] + p.queue == p.sent + p.queue;
    assert p.accepted + [] == p.accepted;
  }

  /** The rest of send_pending_pubsub_frames when nothing comes in between. */
  function Drained(p: Protocol): (q: Protocol)
    requires Sound(p) && p.producer.Idle? && p.consumer.Draining?
    ensures Sound(q) && q.producer.Idle? && q.consumer.Outside? && q.queue == [] && q.accepted == p.accepted
    decreases |p.queue|
  {
    PopSound(p);
    var popped := Popped(p);
    if p.queue == [] then popped
    else
      SendSound(popped);
      Drained(Act(popped, SendSucceeds))
  }

  /** A woken consumer sends everything that was accepted. */
  lemma WokenDeliversAll(p: Protocol)
    requires Sound(p) && p.producer.Idle? && p.consumer.Clearing?
    ensures Drained(Act(p, Clear)).sent == p.accepted
  {
    var q := Drained(Act(p, Clear));
    assert q.sent + [] + [] == q.sent;
    assert q.accepted + [] == q.accepted;
  }

  /* ---------- The session object ---------- */

  /** What the system call that adds to the counter reports. */
  datatype WriteResult = Added | CounterFull | WriteError

  /** A session as the methods see it, each under the lock. */
  class PubSubSession {
    var pending: seq<Bytes>
    var counter: nat

    constructor ()
      ensures pending == [] && counter == 0
    {
      pending := [];
      counter := 0;
    }

    /** The session between two calls, as a state of the protocol with an idle worker and a polling thread. */
    ghost predicate Ready()
      reads this
    {
      pending != [] ==> counter > 0
    }

    method Enqueue(frame: Bytes, result: WriteResult) returns (ok: bool)
      requires result.CounterFull? ==> counter == COUNTER_MAX
      modifies this
      ensures ok <==> old(pending) != [] || !result.WriteError?
      ensures pending == if ok then old(pending) + [frame] else old(pending)
      ensures counter == old(counter) + (if old(pending) == [] && result.Added? then 1 else 0)
      ensures old(Ready()) ==> Ready()
    {
      var notificationNeeded := pending == [];
      pending := pending + [frame];
      if !notificationNeeded {
        return true;
      }
      match result {
        case Added =>
          counter := counter + 1;
          return true;
        case CounterFull => return true;
        case WriteError =>
          pending := pending[..|pending| - 1];
          return false;
      }
    }

    method PopFrame() returns (frame: Option<Bytes>)
      modifies this`pending
      ensures frame.None? <==> old(pending) == []
      ensures frame.None? ==> pending == []
      ensures frame.Some? ==> [frame.value] + pending == old(pending)
    {
      if pending == [] {
        return None;
      }
      frame := Some(pending[0]);
      pending := pending[1..];
    }

    /** A read takes the whole count; one at zero, which reports EAGAIN, is left alone. */
    method ClearNotification(readable: bool) returns (ok: bool)
      modifies this`counter
      ensures ok == readable
      ensures counter == if ok then 0 else old(counter)
    {
      if readable {
        counter := 0;
      }
      return readable;
    }
  }

  /** send_pending_pubsub_frames on a socket that takes at most `capacity` more frames. */
  method SendPending(session: PubSubSession, readable: bool, capacity: nat) returns (sent: seq<Bytes>, ok: bool)
    modifies session
    ensures session.counter == if readable then 0 else old(session.counter)
    ensures ok <==> readable && |old(session.pending)| <= capacity
    ensures ok ==> sent == old(session.pending) && session.pending == []
    ensures !readable ==> sent == [] && session.pending == old(session.pending)
    ensures readable && !ok ==>
              sent == old(session.pending)[..capacity] && session.pending == old(session.pending)[capacity + 1..]
  {
    var cleared := session.ClearNotification(readable);
    sent := [];
    if !cleared {
      return sent, false;
    }
    var frame := session.PopFrame();
    while frame.Some?
      invariant session.counter == 0 && |sent| <= capacity
      invariant frame.Some? ==> sent + [frame.value] + session.pending == old(session.pending)
      invariant frame.None? ==> sent == old(session.pending) && session.pending == []
      decreases |session.pending|, frame.Some?
    {
      if |sent| == capacity {
        assert old(session.pending)[capacity + 1..] == session.pending;
        return sent, false;
      }
      sent := sent + [frame.value];
      ghost var rest := session.pending;
      frame := session.PopFrame();
      if frame.Some? {
        assert sent + [frame.value] + session.pending == sent + rest;
      }
    }
    return sent, true;
  }
}
