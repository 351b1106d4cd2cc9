/** The two Pub/Sub indexes: the subscribers of each channel and the channels of each client. */
module Channels {
  import opened Decimal

  type ClientId = nat

  datatype Hub = Hub(channels: map<Bytes, set<ClientId>>, subscriptions: map<ClientId, set<Bytes>>)

  const EMPTY_HUB := Hub(map[], map[])

  function SubscribersOf(hub: Hub, channel: Bytes): set<ClientId> {
    if channel in hub.channels then hub.channels[channel] else {}
  }

  function ChannelsOf(hub: Hub, client: ClientId): set<Bytes> {
    if client in hub.subscriptions then hub.subscriptions[client] else {}
  }

  /** A set stored under a key, or no key when the set is empty. */
  function Store<K, V>(index: map<K, set<V>>, key: K, members: set<V>): map<K, set<V>> {
    if members == {} then index - {key} else index[key := members]
  }

  function Join(hub: Hub, client: ClientId, channel: Bytes): Hub {
    Hub(hub.channels[channel := SubscribersOf(hub, channel) + {client}],
        hub.subscriptions[client := ChannelsOf(hub, client) + {channel}])
  }

  function JoinAll(hub: Hub, client: ClientId, channels: seq<Bytes>): Hub
    decreases |channels|
  {
    if channels == [] then hub else JoinAll(Join(hub, client, channels[0]), client, channels[1..])
  }

  /** The counts that SUBSCRIBE reports, one per argument. */
  function JoinCounts(hub: Hub, client: ClientId, channels: seq<Bytes>): seq<nat>
    decreases |channels|
  {
    if channels == [] then []
    else
      var joined := Join(hub, client, channels[0]);
      [|ChannelsOf(joined, client)|] + JoinCounts(joined, client, channels[1..])
  }

  /** remove_subscription: nothing happens for a client without subscriptions. */
  function Leave(hub: Hub, client: ClientId, channel: Bytes): Hub {
    if client !in hub.subscriptions then hub
    else
      var mine := hub.subscriptions[client];
      var channels := if channel in mine && channel in hub.channels
                      then Store(hub.channels, channel, hub.channels[channel] - {client})
                      else hub.channels;
      Hub(channels, Store(hub.subscriptions, client, mine - {channel}))
  }

  function LeaveAll(hub: Hub, client: ClientId, channels: seq<Bytes>): Hub
    decreases |channels|
  {
    if channels == [] then hub else LeaveAll(Leave(hub, client, channels[0]), client, channels[1..])
  }

  /** The counts that UNSUBSCRIBE reports, one per argument. */
  function LeaveCounts(hub: Hub, client: ClientId, channels: seq<Bytes>): seq<nat>
    decreases |channels|
  {
    if channels == [] then []
    else
      var left := Leave(hub, client, channels[0]);
      [|ChannelsOf(left, client)|] + LeaveCounts(left, client, channels[1..])
  }

  /** A client leaves all its channels at once. */
  function Forget(hub: Hub, client: ClientId): Hub {
    var mine := ChannelsOf(hub, client);
    Hub(map channel | channel in hub.channels && !(channel in mine && hub.channels[channel] <= {client})
          :: if channel in mine then hub.channels[channel] - {client} else hub.channels[channel],
        hub.subscriptions - {client})
  }

  /** PUBLISH drops the subscribers whose session is gone, from this channel only. */
  function DropFrom(hub: Hub, channel: Bytes, dead: set<ClientId>): Hub {
    if channel !in hub.channels then hub
    else
      Hub(Store(hub.channels, channel, hub.channels[channel] - dead),
          map client | client in hub.subscriptions
                       && !(client in dead && client in hub.channels[channel] && hub.subscriptions[client] <= {channel})
            :: if client in dead && client in hub.channels[channel]
               then hub.subscriptions[client] - {channel} else hub.subscriptions[client])
  }

  function Names(channels: seq<Bytes>): set<Bytes> {
    set channel | channel in channels
  }

  /** The indexes are mirror images of each other, and neither stores an empty set. */
  ghost predicate Mirror(hub: Hub) {
    && (forall channel, client :: client in SubscribersOf(hub, channel) <==> channel in ChannelsOf(hub, client))
    && (forall channel :: channel in hub.channels ==> hub.channels[channel] != {})
    && (forall client :: client in hub.subscriptions ==> hub.subscriptions[client] != {})
  }

  lemma JoinMirror(hub: Hub, client: ClientId, channel: Bytes)
    requires Mirror(hub)
    ensures Mirror(Join(hub, client, channel))
    ensures ChannelsOf(Join(hub, client, channel), client) == ChannelsOf(hub, client) + {channel}
  {
    var after := Join(hub, client, channel);
    forall other, c
      ensures c in SubscribersOf(after, other) <==> other in ChannelsOf(after, c)
    {
      assert c in SubscribersOf(hub, other) <==> other in ChannelsOf(hub, c);
    }
  }

  /** SUBSCRIBE keeps the mirror and adds exactly its arguments to the client's channels. */
  lemma {:induction false} JoinAllMirror(hub: Hub, client: ClientId, channels: seq<Bytes>)
    requires Mirror(hub)
    ensures Mirror(JoinAll(hub, client, channels))
    ensures ChannelsOf(JoinAll(hub, client, channels), client)
         == ChannelsOf(hub, client) + Names(channels)
    decreases |channels|
  {
    hide Mirror;
    if channels != [] {
      JoinMirror(hub, client, channels[0]);
      JoinAllMirror(Join(hub, client, channels[0]), client, channels[1..]);
    }
  }

  lemma LeaveMirror(hub: Hub, client: ClientId, channel: Bytes)
    requires Mirror(hub)
    ensures Mirror(Leave(hub, client, channel))
    ensures ChannelsOf(Leave(hub, client, channel), client) == ChannelsOf(hub, client) - {channel}
  {
    var after := Leave(hub, client, channel);
    assert client in SubscribersOf(hub, channel) <==> channel in ChannelsOf(hub, client);
    forall other, c
      ensures c in SubscribersOf(after, other) <==> other in ChannelsOf(after, c)
    {
      assert c in SubscribersOf(hub, other) <==> other in ChannelsOf(hub, c);
    }
  }

  /** UNSUBSCRIBE keeps the mirror and removes exactly its arguments. */
  lemma {:induction false} LeaveAllMirror(hub: Hub, client: ClientId, channels: seq<Bytes>)
    requires Mirror(hub)
    ensures Mirror(LeaveAll(hub, client, channels))
    ensures ChannelsOf(LeaveAll(hub, client, channels), client)
         == ChannelsOf(hub, client) - Names(channels)
    decreases |channels|
  {
    hide Mirror;
    if channels != [] {
      LeaveMirror(hub, client, channels[0]);
      LeaveAllMirror(Leave(hub, client, channels[0]), client, channels[1..]);
    }
  }

  /** Each count that SUBSCRIBE reports is the size the arguments so far give the subscription set. */
  lemma {:induction false} JoinCountsTrue(hub: Hub, client: ClientId, channels: seq<Bytes>, i: nat)
    requires Mirror(hub) && i < |channels|
    ensures |JoinCounts(hub, client, channels)| == |channels|
    ensures JoinCounts(hub, client, channels)[i]
         == |ChannelsOf(hub, client) + Names(channels[..i + 1])|
    decreases |channels|
  {
    hide Join, ChannelsOf, Mirror, Names;
    JoinMirror(hub, client, channels[0]);
    var joined := Join(hub, client, channels[0]);
    if i == 0 {
      FirstName(channels);
      if |channels| > 1 {
        JoinCountsTrue(joined, client, channels[1..], 0);
      }
    } else {
      JoinCountsTrue(joined, client, channels[1..], i - 1);
      PrefixSet(channels, i);
      SetUnion(ChannelsOf(hub, client), {channels[0]}, Names(channels[1..][..i]));
    }
  }

  /** Each count that UNSUBSCRIBE reports is the number of channels the arguments so far leave. */
  lemma {:induction false} LeaveCountsTrue(hub: Hub, client: ClientId, channels: seq<Bytes>, i: nat)
    requires Mirror(hub) && i < |channels|
    ensures |LeaveCounts(hub, client, channels)| == |channels|
    ensures LeaveCounts(hub, client, channels)[i]
         == |ChannelsOf(hub, client) - Names(channels[..i + 1])|
    decreases |channels|
  {
    hide Leave, ChannelsOf, Mirror, Names;
    LeaveMirror(hub, client, channels[0]);
    var left := Leave(hub, client, channels[0]);
    if i == 0 {
      FirstName(channels);
      if |channels| > 1 {
        LeaveCountsTrue(left, client, channels[1..], 0);
      }
    } else {
      LeaveCountsTrue(left, client, channels[1..], i - 1);
      PrefixSet(channels, i);
      SetDifference(ChannelsOf(hub, client), {channels[0]}, Names(channels[1..][..i]));
    }
  }

  lemma SetDifference(all: set<Bytes>, first: set<Bytes>, later: set<Bytes>)
    ensures all - first - later == all - (first + later)
  {
  }

  lemma SetUnion(all: set<Bytes>, first: set<Bytes>, later: set<Bytes>)
    ensures all + first + later == all + (first + later)
  {
  }

  lemma FirstName(channels: seq<Bytes>)
    requires channels != []
    ensures Names(channels[..1]) == {channels[0]}
  {
    assert channels[..1] == [channels[0]];
  }

  lemma PrefixSet(channels: seq<Bytes>, i: nat)
    requires 0 < i < |channels|
    ensures Names(channels[..i + 1])
         == {channels[0]} + Names(channels[1..][..i])
  {
    assert channels[..i + 1] == [channels[0]] + channels[1..][..i];
  }

  /* ---------- UNSUBSCRIBE without arguments ---------- */

  predicate NoEmptySets(subscriptions: map<ClientId, set<Bytes>>) {
    forall client :: client in subscriptions ==> subscriptions[client] != {}
  }

  /** The elements of a set, each once. */
  predicate Enumerates(order: seq<Bytes>, names: set<Bytes>) {
    Names(order) == names && forall i, j :: 0 <= i < j < |order| ==> order[i] != order[j]
  }

  /** What is reported when the channels are left in the given order: one 0 if there is none. */
  function LeaveAllCounts(hub: Hub, client: ClientId, order: seq<Bytes>): seq<nat> {
    if order == [] then [0] else LeaveCounts(hub, client, order)
  }

  lemma EnumeratesMore(order: seq<Bytes>, names: set<Bytes>, name: Bytes)
    requires Enumerates(order, names) && name !in names
    ensures Enumerates(order + [name], names + {name})
  {
    assert Names(order + [name]) == names + {name};
    assert forall i :: 0 <= i < |order| ==> order[i] in Names(order);
  }

  lemma {:induction false} EnumeratedSize(order: seq<Bytes>, names: set<Bytes>)
    requires Enumerates(order, names)
    ensures |order| == |names|
    decreases |order|
  {
    if order != [] {
      var n := |order| - 1;
      assert order == order[..n] + [order[n]];
      assert Names(order) == Names(order[..n]) + {order[n]};
      EnumeratedSize(order[..n], Names(order[..n]));
    }
  }

  /** The i-th of the reported counts is the number of channels still left: one less each time, down to 0. */
  lemma LeaveAllCountsTrue(hub: Hub, client: ClientId, order: seq<Bytes>, i: nat)
    requires Mirror(hub) && Enumerates(order, ChannelsOf(hub, client)) && i < |order|
    ensures |order| == |ChannelsOf(hub, client)| == |LeaveAllCounts(hub, client, order)|
    ensures LeaveAllCounts(hub, client, order)[i] == |ChannelsOf(hub, client) - Names(order[..i + 1])| == |order| - 1 - i
  {
    hide Mirror, ChannelsOf, LeaveCounts;
    var mine := ChannelsOf(hub, client);
    LeaveCountsTrue(hub, client, order, i);
    EnumeratedSize(order, mine);
    EnumeratedSize(order[..i + 1], Names(order[..i + 1]));
    assert Names(order[..i + 1]) <= mine;
  }

  lemma LeaveForgets(hub: Hub, client: ClientId, channel: Bytes)
    requires channel in ChannelsOf(hub, client)
    ensures Forget(Leave(hub, client, channel), client) == Forget(hub, client)
    ensures ChannelsOf(Leave(hub, client, channel), client) == ChannelsOf(hub, client) - {channel}
  {
    var left := Leave(hub, client, channel);
    assert ChannelsOf(left, client) == ChannelsOf(hub, client) - {channel};
    assert Forget(left, client).channels == Forget(hub, client).channels;
  }

  lemma ForgetsNothing(hub: Hub, client: ClientId)
    requires ChannelsOf(hub, client) == {} && NoEmptySets(hub.subscriptions)
    ensures Forget(hub, client) == hub
  {
  }

  /** Leaving every channel, in whatever order, forgets the client. */
  lemma {:induction false} LeaveAllForgets(hub: Hub, client: ClientId, order: seq<Bytes>)
    requires NoEmptySets(hub.subscriptions) && Enumerates(order, ChannelsOf(hub, client))
    ensures LeaveAll(hub, client, order) == Forget(hub, client)
    decreases |order|
  {
    hide Forget, ChannelsOf;
    if order == [] {
      ForgetsNothing(hub, client);
    } else {
      assert order[0] in Names(order);
      LeaveForgets(hub, client, order[0]);
      LeaveFills(hub, client, order[0]);
      assert Names(order[1..]) == Names(order) - {order[0]};
      LeaveAllForgets(Leave(hub, client, order[0]), client, order[1..]);
    }
  }

  lemma LeaveFills(hub: Hub, client: ClientId, channel: Bytes)
    requires NoEmptySets(hub.subscriptions)
    ensures NoEmptySets(Leave(hub, client, channel).subscriptions)
  {
  }

  /** Unregistering a client, or UNSUBSCRIBE without arguments, leaves no trace of it. */
  lemma ForgetMirror(hub: Hub, client: ClientId)
    requires Mirror(hub)
    ensures Mirror(Forget(hub, client))
    ensures ChannelsOf(Forget(hub, client), client) == {}
    ensures forall channel :: client !in SubscribersOf(Forget(hub, client), channel)
  {
    var after := Forget(hub, client);
    forall channel, other
      ensures other in SubscribersOf(after, channel) <==> other in SubscribersOf(hub, channel) && other != client
    {
      assert client in SubscribersOf(hub, channel) <==> channel in ChannelsOf(hub, client);
    }
    forall channel, other
      ensures other in SubscribersOf(after, channel) <==> channel in ChannelsOf(after, other)
    {
      assert other in SubscribersOf(hub, channel) <==> channel in ChannelsOf(hub, other);
    }
  }

  /** PUBLISH with dead sessions keeps the mirror and leaves every other channel alone. */
  lemma DropMirror(hub: Hub, channel: Bytes, dead: set<ClientId>)
    requires Mirror(hub)
    ensures Mirror(DropFrom(hub, channel, dead))
    ensures SubscribersOf(DropFrom(hub, channel, dead), channel) == SubscribersOf(hub, channel) - dead
    ensures forall other :: other != channel ==>
              SubscribersOf(DropFrom(hub, channel, dead), other) == SubscribersOf(hub, other)
  {
    var after := DropFrom(hub, channel, dead);
    forall other, client
      ensures client in SubscribersOf(after, other) <==> other in ChannelsOf(after, client)
    {
      assert client in SubscribersOf(hub, other) <==> other in ChannelsOf(hub, client);
      assert client in SubscribersOf(hub, channel) <==> channel in ChannelsOf(hub, client);
    }
  }
}
