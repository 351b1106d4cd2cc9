/** The command processor as the object it is; every method does to its fields what the state machine says. */
module CommandProcessing {
  import opened Wrappers
  import opened Decimal
  import opened Resp
  import opened Aof
  import opened Responses
  import opened Keyspace
  import opened Commands
  import opened Channels
  import opened ReplicationStream
  import opened Snapshot
  import opened Processor
  import opened Store
  import opened Handlers
  import opened StreamReplies

  class CommandProcessor {
    const database: Database
    const role: Role
    var file: Option<Bytes>
    var offset: nat
    var backlog: seq<Frame>
    var sessions: seq<Session>
    var acknowledged: map<ClientId, nat>
    var writeOffsets: map<ClientId, nat>
    var transactions: map<ClientId, Transaction>
    var watched: map<ClientId, map<Bytes, nat>>
    var clients: map<ClientId, bool>
    var openAccess: bool
    var channels: map<Bytes, set<ClientId>>
    var subscriptions: map<ClientId, set<Bytes>>
    var pendingPops: seq<PendingPop>
    var pendingReads: seq<PendingRead>
    var pendingWaits: seq<PendingWait>
    var replies: seq<Reply>

    function Stream(): Replication
      reads this
    {
      Replication(role, offset, backlog, sessions, acknowledged, writeOffsets)
    }

    /** The fields as a state of the machine. */
    function View(): State
      reads this, database
    {
      State(database.View(), file, Stream(), transactions, watched, clients, openAccess, Hub(channels, subscriptions),
            pendingPops, pendingReads, pendingWaits, replies)
    }

    ghost predicate Valid()
      reads this, database
    {
      database.Valid() && NoEmptySets(subscriptions)
    }

    constructor (role: Role, openAccess: bool)
      ensures Valid() && fresh(database)
      ensures View() == InitialState(role, openAccess)
    {
      database := new Database();
      this.role := role;
      file := None;
      offset, backlog, sessions, acknowledged, writeOffsets := 0, [], [], map[], map[];
      transactions, watched, clients, this.openAccess := map[], map[], map[], openAccess;
      channels, subscriptions := map[], map[];
      pendingPops, pendingReads, pendingWaits, replies := [], [], [], [];
    }

    /** Fulfils the promise of a task. */
    method Fulfil(task: Task, response: Response)
      modifies this`replies
      ensures View() == Answer(old(View()), task, response)
    {
      replies := replies + [Reply(task.id, response)];
    }

    /* ---------- The replication stream ---------- */

    /** Hands a frame to every session; dropped sessions are erased in place on the way. */
    method HandOut(frame: Frame)
      modifies this`sessions
      ensures sessions == EnqueueAll(old(sessions), frame)
    {
      var i := 0;
      assert sessions[0..] == sessions && [] + EnqueueAll(sessions, frame) == EnqueueAll(sessions, frame);
      while i < |sessions|
        invariant i <= |sessions|
        invariant sessions[..i] + EnqueueAll(sessions[i..], frame) == EnqueueAll(old(sessions), frame)
        decreases |sessions| - i
      {
        ghost var done, rest := sessions[..i], sessions[i + 1..];
        assert sessions[i..][0] == sessions[i] && sessions[i..][1..] == rest;
        if !sessions[i].alive {
          sessions := sessions[..i] + sessions[i + 1..];
          assert sessions[..i] == done && sessions[i..] == rest;
        } else {
          ghost var longer := Enqueue(sessions[i], frame);
          if !sessions[i].closed {
            sessions := sessions[i := sessions[i].(pending := sessions[i].pending + [frame])];
          }
          assert sessions[..i + 1] == done + [longer] && sessions[i + 1..] == rest;
          assert done + ([longer] + EnqueueAll(rest, frame)) == done + [longer] + EnqueueAll(rest, frame);
          i := i + 1;
        }
      }
      assert sessions[..i] == sessions && sessions + [] == sessions;
    }

    /** append_replication_frame. */
    method AppendReplicationFrame(payload: Bytes)
      modifies this`offset, this`backlog, this`sessions
      ensures View() == old(View()).(replication := AppendFrame(old(Stream()), payload))
    {
      hide EnqueueAll;
      offset := offset + |payload|;
      var frame := Frame(payload, offset);
      backlog := backlog + [frame];
      HandOut(frame);
    }

    method AppendClientReplicationFrame(client: ClientId, payload: Bytes)
      modifies this`offset, this`backlog, this`sessions, this`writeOffsets
      ensures View() == old(View()).(replication := AppendClientFrame(old(Stream()), client, payload))
    {
      AppendReplicationFrame(payload);
      writeOffsets := writeOffsets[client := offset];
    }

    /** The file comes first; only then does the write reach the stream. */
    method RecordWrite(client: ClientId, source: Source, payload: Bytes, env: Env) returns (ok: bool)
      modifies this`file, this`offset, this`backlog, this`sessions, this`writeOffsets
      ensures Recorded(View(), ok) == Record(old(View()), client, source, payload, env)
    {
      hide AppendClientFrame;
      if file.Some? && !source.FromAof? {
        match env.append(|file.value|) {
          case Written => file := Some(file.value + payload);
          case Cut(count) =>
            file := Some(file.value + payload[..if count < |payload| then count else |payload|]);
            return false;
        }
      }
      if role.Master? && source.FromClient? {
        AppendClientReplicationFrame(client, payload);
      }
      return true;
    }

    /** count_acknowledged_replicas: dropped sessions are erased in place while the others are counted. */
    method CountAcknowledged(target: nat) returns (count: nat)
      modifies this`sessions
      ensures sessions == Live(old(sessions))
      ensures count == CountReached(old(sessions), acknowledged, target)
      ensures count == |AtTarget(old(sessions), acknowledged, target)|
    {
      hide Live, CountReached, AtTarget;
      var known := acknowledged;
      ghost var all := sessions;
      count := 0;
      var i := 0;
      assert sessions[0..] == all && sessions[..0] + Live(all) == Live(all);
      while i < |sessions|
        invariant i <= |sessions|
        invariant sessions[..i] + Live(sessions[i..]) == Live(all)
        invariant count + CountReached(sessions[i..], known, target) == CountReached(all, known, target)
        decreases |sessions| - i
      {
        ghost var done, rest := sessions[..i], sessions[i + 1..];
        var session := sessions[i];
        assert sessions[i..] == [session] + rest;
        CountStep(done, session, rest, known, target);
        if !session.alive {
          sessions := sessions[..i] + sessions[i + 1..];
          assert sessions[..i] == done && sessions[i..] == rest;
        } else {
          if target == 0 || (session.client in known && known[session.client] >= target) {
            count := count + 1;
          }
          assert sessions[..i + 1] == done + [session];
          i := i + 1;
        }
      }
      CountEnd(known, target);
      CountIsExact(all, known, target);
      assert sessions[..i] == sessions && sessions[i..] == [] && sessions + [] == sessions;
    }

    /* ---------- Pub/Sub ---------- */

    function Indexes(): Hub
      reads this
    {
      Hub(channels, subscriptions)
    }

    method AddSubscription(client: ClientId, channel: Bytes) returns (count: nat)
      requires NoEmptySets(subscriptions)
      modifies this`channels, this`subscriptions
      ensures NoEmptySets(subscriptions)
      ensures Indexes() == Join(old(Indexes()), client, channel)
      ensures count == |ChannelsOf(Indexes(), client)|
    {
      hide NoEmptySets;
      JoinFills(Indexes(), client, channel);
      var mine := ChannelsOf(Indexes(), client) + {channel};
      subscriptions := subscriptions[client := mine];
      channels := channels[channel := SubscribersOf(Indexes(), channel) + {client}];
      return |mine|;
    }

    /** The loop of subscribe; `counts` is what it reports for each channel. */
    method SubscribeTo(client: ClientId, names: seq<Bytes>) returns (counts: seq<nat>)
      requires NoEmptySets(subscriptions)
      modifies this`channels, this`subscriptions
      ensures NoEmptySets(subscriptions)
      ensures Indexes() == JoinAll(old(Indexes()), client, names)
      ensures counts == JoinCounts(old(Indexes()), client, names)
    {
      hide Join, NoEmptySets;
      counts := [];
      assert names[0..] == names && [] + JoinCounts(Indexes(), client, names) == JoinCounts(Indexes(), client, names);
      for i := 0 to |names|
        invariant NoEmptySets(subscriptions)
        invariant JoinAll(Indexes(), client, names[i..]) == JoinAll(old(Indexes()), client, names)
        invariant counts + JoinCounts(Indexes(), client, names[i..]) == JoinCounts(old(Indexes()), client, names)
      {
        assert names[i..][0] == names[i] && names[i..][1..] == names[i + 1..];
        var count := AddSubscription(client, names[i]);
        ghost var rest := JoinCounts(Indexes(), client, names[i + 1..]);
        assert counts + ([count] + rest) == counts + [count] + rest;
        counts := counts + [count];
      }
      assert counts + [] == counts;
    }

    /** remove_subscription. */
    method RemoveSubscription(client: ClientId, channel: Bytes) returns (remaining: nat)
      requires NoEmptySets(subscriptions)
      modifies this`channels, this`subscriptions
      ensures NoEmptySets(subscriptions)
      ensures Indexes() == Leave(old(Indexes()), client, channel)
      ensures remaining == |ChannelsOf(Indexes(), client)|
    {
      if client !in subscriptions {
        return 0;
      }
      var mine := subscriptions[client];
      if channel in mine && channel in channels {
        var members := channels[channel] - {client};
        channels := if members == {} then channels - {channel} else channels[channel := members];
      }
      var left := mine - {channel};
      subscriptions := if left == {} then subscriptions - {client} else subscriptions[client := left];
      return |left|;
    }

    /** unsubscribe with channels named. */
    method UnsubscribeFrom(client: ClientId, names: seq<Bytes>) returns (counts: seq<nat>)
      requires NoEmptySets(subscriptions)
      modifies this`channels, this`subscriptions
      ensures NoEmptySets(subscriptions)
      ensures Indexes() == LeaveAll(old(Indexes()), client, names)
      ensures counts == LeaveCounts(old(Indexes()), client, names)
    {
      hide Leave, NoEmptySets;
      counts := [];
      assert names[0..] == names && [] + LeaveCounts(Indexes(), client, names) == LeaveCounts(Indexes(), client, names);
      for i := 0 to |names|
        invariant NoEmptySets(subscriptions)
        invariant LeaveAll(Indexes(), client, names[i..]) == LeaveAll(old(Indexes()), client, names)
        invariant counts + LeaveCounts(Indexes(), client, names[i..]) == LeaveCounts(old(Indexes()), client, names)
      {
        assert names[i..][0] == names[i] && names[i..][1..] == names[i + 1..];
        var remaining := RemoveSubscription(client, names[i]);
        ghost var rest := LeaveCounts(Indexes(), client, names[i + 1..]);
        assert counts + ([remaining] + rest) == counts + [remaining] + rest;
        counts := counts + [remaining];
      }
      assert counts + [] == counts;
    }

    /**
     unsubscribe without arguments: the channels are listed, then left one after the other. `counts` is what is
     reported for each of them; a client without subscriptions is told 0 once.
     */
    method UnsubscribeFromAll(client: ClientId) returns (order: seq<Bytes>, counts: seq<nat>)
      requires NoEmptySets(subscriptions)
      modifies this`channels, this`subscriptions
      ensures NoEmptySets(subscriptions)
      ensures Enumerates(order, ChannelsOf(old(Indexes()), client))
      ensures counts == LeaveAllCounts(old(Indexes()), client, order)
      ensures Indexes() == LeaveAll(old(Indexes()), client, order) == Forget(old(Indexes()), client)
    {
      hide LeaveAll, Forget, NoEmptySets, Enumerates;
      order := ListOf(ChannelsOf(Indexes(), client));
      LeaveAllForgets(Indexes(), client, order);
      counts := UnsubscribeFrom(client, order);
      if order == [] {
        counts := [0];
      }
    }

    /** The subscriptions of a client that goes away. */
    method DropSubscriptions(client: ClientId)
      requires NoEmptySets(subscriptions)
      modifies this`channels, this`subscriptions
      ensures NoEmptySets(subscriptions)
      ensures Indexes() == Forget(old(Indexes()), client)
    {
      hide Without, Forget;
      var left, gone := ChannelsOf(Indexes(), client), {};
      WithoutNothing(channels, client);
      while left != {}
        invariant left + gone == ChannelsOf(old(Indexes()), client) && left !! gone
        invariant subscriptions == old(subscriptions)
        invariant channels == Without(old(channels), client, gone)
        decreases |left|
      {
        var channel :| channel in left;
        WithoutMore(old(channels), client, gone, channel);
        if channel in channels {
          var members := channels[channel] - {client};
          channels := Channels.Store(channels, channel, members);
        }
        left, gone := left - {channel}, gone + {channel};
      }
      assert gone == ChannelsOf(old(Indexes()), client);
      ForgetIs(old(Indexes()), client);
      subscriptions := subscriptions - {client};
    }

    function Audience(): Board
      reads this
    {
      Board(clients, channels, subscriptions)
    }

    /** One subscriber: it gets the frame, or it has no session, leaves the channel and is forgotten. */
    method Visit(client: ClientId, channel: Bytes, env: Env) returns (delivered: bool)
      requires channel in channels
      modifies this`channels, this`subscriptions, this`clients
      ensures Audience() == Visited(old(Audience()), client, channel, env)
      ensures delivered == (Alive(old(clients), client, env) && env.session(client).Accepting?)
    {
      if client in clients && !env.session(client).Gone? {
        return env.session(client).Accepting?;
      }
      if client in subscriptions {
        var mine := subscriptions[client] - {channel};
        subscriptions := if mine == {} then subscriptions - {client} else subscriptions[client := mine];
      }
      clients := clients - {client};
      channels := channels[channel := channels[channel] - {client}];
      return false;
    }

    /** publish: subscribers without a session are erased on the way. */
    method PublishTo(channel: Bytes, env: Env) returns (recipients: nat)
      requires NoEmptySets(subscriptions) && channel in channels
      modifies this`channels, this`subscriptions, this`clients
      ensures NoEmptySets(subscriptions)
      ensures var dead := Dead(old(clients), old(channels)[channel], env);
              && Indexes() == DropFrom(old(Indexes()), channel, dead)
              && clients == old(clients) - dead
              && recipients == |Accepted(old(channels)[channel] - dead, env)|
    {
      hide DropFrom, NoEmptySets, Dead, Accepted, Midway, Visited, Alive;
      recipients := 0;
      var left := channels[channel];
      ghost var all := left;
      assert all - left == {};
      MidwayStart(Audience(), channel, env);
      while left != {}
        invariant left <= all && channel in channels
        invariant Midway(old(Audience()), Audience(), channel, all - left, recipients, env)
        decreases |left|
      {
        var client :| client in left;
        MidwayVisit(old(Audience()), Audience(), channel, all - left, recipients, client, env);
        var delivered := Visit(client, channel, env);
        if delivered {
          recipients := recipients + 1;
        }
        OneLess(all, left, client);
        left := left - {client};
      }
      assert all - {} == all;
      MidwayEnd(old(Audience()), Audience(), channel, recipients, env);
      if channels[channel] == {} {
        channels := channels - {channel};
      }
    }

    /* ---------- Sessions ---------- */

    /** lock() on the Pub/Sub session of a client; a client whose session is gone is forgotten. */
    method LockSession(client: ClientId, env: Env) returns (there: bool)
      modifies this`clients
      ensures there == SessionThere(old(View()), client, env)
      ensures View() == TouchSession(old(View()), client, env)
    {
      if client !in clients {
        return false;
      }
      if env.session(client).Gone? {
        clients := clients - {client};
        return false;
      }
      return true;
    }

    method Subscribe(client: ClientId, command: Command, env: Env) returns (response: Response)
      requires Valid()
      modifies this
      ensures Valid()
      ensures Processed(View(), response) == DoSubscribe(old(View()), client, command, env)
    {
      hide JoinAll, NoEmptySets;
      if |command| < 2 {
        return ERR;
      }
      var there := LockSession(client, env);
      if !there {
        return ERR;
      }
      var counts := SubscribeTo(client, command[1..]);
      return QueuedOr(client, env);
    }

    method Unsubscribe(client: ClientId, command: Command, env: Env) returns (response: Response)
      requires Valid() && command != []
      modifies this
      ensures Valid()
      ensures Processed(View(), response) == DoUnsubscribe(old(View()), client, command, env)
    {
      hide LeaveAll, Forget, NoEmptySets;
      var there := LockSession(client, env);
      if !there {
        return ERR;
      }
      if |command| == 1 {
        var order, counts := UnsubscribeFromAll(client);
      } else {
        var counts := UnsubscribeFrom(client, command[1..]);
      }
      return QueuedOr(client, env);
    }

    method Publish(command: Command, env: Env) returns (response: Response)
      requires Valid()
      modifies this
      ensures Valid()
      ensures Processed(View(), response) == DoPublish(old(View()), command, env)
    {
      hide DropFrom, NoEmptySets;
      if |command| != 3 {
        return ERR;
      }
      if command[1] !in channels {
        return Integer(0);
      }
      PublishNames(View(), command[1], env);
      var recipients := PublishTo(command[1], env);
      return Integer(recipients);
    }

    /** enqueue_pubsub_response. */
    method DeflectTo(client: ClientId, env: Env) returns (response: Response)
      requires Valid()
      modifies this
      ensures Valid()
      ensures Processed(View(), response) == Deflect(old(View()), client, env)
    {
      hide NoEmptySets;
      var there := LockSession(client, env);
      return if there && env.session(client).Accepting? then NoResponse else ERR;
    }

    /* ---------- Transactions ---------- */

    /** The loop of WATCH. */
    method RememberRevisions(keys: seq<Bytes>, before: map<Bytes, nat>, now: nat) returns (after: map<Bytes, nat>)
      requires database.Valid()
      modifies database
      ensures database.Valid()
      ensures Watching(database.View(), after) == WatchKeys(old(database.View()), before, keys, now)
    {
      hide Settle, Revision, StreamsOrdered;
      after := before;
      assert keys[0..] == keys;
      for i := 0 to |keys|
        invariant database.Valid()
        invariant WatchKeys(database.View(), after, keys[i..], now) == WatchKeys(old(database.View()), before, keys, now)
      {
        assert keys[i..][0] == keys[i] && keys[i..][1..] == keys[i + 1..];
        if keys[i] !in after {
          var revision := database.KeyRevision(keys[i], now);
          after := after[keys[i] := revision];
        }
      }
    }

    method Watch(client: ClientId, command: Command, env: Env) returns (response: Response)
      requires Valid()
      modifies this, database
      ensures Valid()
      ensures Processed(View(), response) == DoWatch(old(View()), client, command, env)
    {
      hide WatchKeys, StreamsOrdered, NoEmptySets;
      if |command| < 2 || client in transactions {
        return ERR;
      }
      var before := if client in watched then watched[client] else map[];
      var after := RememberRevisions(command[1..], before, env.now);
      watched := watched[client := after];
      return OK;
    }

    /** EXEC compares the revisions of the watched keys until one differs. */
    method CompareRevisions(remembered: map<Bytes, nat>, order: seq<Bytes>, now: nat) returns (changed: bool)
      requires database.Valid()
      modifies database
      ensures database.Valid()
      ensures Checked(database.View(), changed) == CheckWatched(old(database.View()), remembered, order, now)
    {
      hide Settle, Revision, StreamsOrdered;
      assert order[0..] == order;
      for i := 0 to |order|
        invariant database.Valid()
        invariant CheckWatched(database.View(), remembered, order[i..], now) ==
                  CheckWatched(old(database.View()), remembered, order, now)
      {
        assert order[i..][0] == order[i] && order[i..][1..] == order[i + 1..];
        if order[i] in remembered {
          var revision := database.KeyRevision(order[i], now);
          if revision != remembered[order[i]] {
            return true;
          }
        }
      }
      return false;
    }

    /** The loop over the queued commands, with the normalised writes it collects. */
    method RunCommands(commands: seq<Command>, env: Env) returns (responses: seq<Response>, logged: seq<Command>)
      requires database.Valid()
      modifies database
      ensures database.Valid()
      ensures Ran(database.View(), responses, logged) == RunQueue(old(database.View()), commands, 0, env)
    {
      hide Dispatch, IsWrite, Modified, Normalize, StreamsOrdered;
      responses, logged := [], [];
      assert commands[0..] == commands;
      RanNothing(RunQueue(database.View(), commands, 0, env));
      for i := 0 to |commands|
        invariant database.Valid()
        invariant RanFirst(responses, logged, RunQueue(database.View(), commands[i..], i, env)) ==
                  RunQueue(old(database.View()), commands, 0, env)
      {
        assert commands[i..][0] == commands[i] && commands[i..][1..] == commands[i + 1..];
        var response := Execute(database, commands[i], env.context(i));
        ghost var rest := RunQueue(database.View(), commands[i + 1..], i + 1, env);
        var more: seq<Command> := [];
        if IsWrite(commands[i]) && Modified(commands[i], response) {
          more := [Normalize(commands[i], response)];
        }
        RanMore(responses, logged, response, more, rest);
        responses, logged := responses + [response], logged + more;
      }
      assert responses + [] == responses && logged + [] == logged;
    }

    method RunQueued(client: ClientId, commands: seq<Command>, source: Source, env: Env) returns (response: Response)
      requires Valid()
      modifies this, database
      ensures Valid()
      ensures Processed(View(), response) == RunTransaction(old(View()), client, commands, source, env)
    {
      hide RunQueue, Record, SerializeAll, StreamsOrdered, NoEmptySets;
      var responses, logged := RunCommands(commands, env);
      if logged == [] {
        return ResponseArray(responses);
      }
      var ok := RecordWrite(client, source, SerializeAll(Bracketed(logged)), env);
      return if ok then ResponseArray(responses) else MISCONF;
    }

    /** execute_transaction. */
    method Exec(client: ClientId, source: Source, env: Env) returns (response: Response)
      requires Valid()
      modifies this, database
      ensures Valid()
      ensures Processed(View(), response) == ExecuteTransaction(old(View()), client, source, env)
    {
      hide RunTransaction, CheckWatched, StreamsOrdered, NoEmptySets;
      if client !in transactions {
        return ERR;
      }
      var transaction := transactions[client];
      var changed := CompareRevisions(if client in watched then watched[client] else map[], env.watchOrder, env.now);
      transactions := transactions - {client};
      watched := watched - {client};
      if transaction.hasError {
        return EXECABORT;
      }
      if changed {
        return NullArray;
      }
      if transaction.commands == [] {
        return EmptyArray;
      }
      response := RunQueued(client, transaction.commands, source, env);
    }

    /* ---------- Commands ---------- */

    method Multi(client: ClientId) returns (response: Response)
      modifies this`transactions
      ensures Processed(View(), response) == DoMulti(old(View()), client)
    {
      if client in transactions {
        return ERR;
      }
      transactions := transactions[client := Transaction([], false)];
      return OK;
    }

    method Discard(client: ClientId) returns (response: Response)
      modifies this`transactions, this`watched
      ensures Processed(View(), response) == DoDiscard(old(View()), client)
    {
      if client !in transactions {
        return ERR;
      }
      transactions := transactions - {client};
      watched := watched - {client};
      return OK;
    }

    method Authenticate(client: ClientId, env: Env) returns (response: Response)
      modifies this`clients
      ensures Processed(View(), response) == DoAuth(old(View()), client, env)
    {
      if client in clients && env.credentials {
        clients := clients[client := true];
        return OK;
      }
      return ERR;
    }

    method Administer(client: ClientId, command: Command, env: Env) returns (response: Response)
      modifies this`watched, this`openAccess
      ensures Processed(View(), response) == ProcessAdministrative(old(View()), client, command, env)
    {
      hide VerbOf;
      var verb := VerbOf(command);
      if verb.Unwatch? {
        if |command| != 1 {
          return ERR;
        }
        watched := watched - {client};
        return OK;
      }
      if verb.Replconf? {
        return if |command| == 3 then OK else ERR;
      }
      if verb.Psync? {
        return if |command| == 3 then SimpleString("FULLRESYNC") else ERR;
      }
      if verb.Acl? {
        openAccess := env.openAccess;
      }
      return env.admin;
    }

    /** A command of the table: queued inside a transaction, run at once outside. */
    method QueueOrExecute(client: ClientId, command: Command, env: Env) returns (response: Response)
      requires Valid()
      modifies this`transactions, database
      ensures Valid()
      ensures Processed(View(), response) == QueueOrRun(old(View()), client, command, env)
    {
      hide Dispatch, StreamsOrdered, NoEmptySets;
      if client in transactions {
        var transaction := transactions[client];
        transactions := transactions[client := transaction.(commands := transaction.commands + [command])];
        return SimpleString("QUEUED");
      }
      response := Execute(database, command, env.context(0));
    }

    method Immediate(client: ClientId, command: Command, source: Source, env: Env) returns (response: Response)
      requires Valid() && command != []
      modifies this, database
      ensures Valid()
      ensures Processed(View(), response) == ProcessImmediate(old(View()), client, command, source, env)
    {
      hide VerbOf, ExecuteTransaction, DoSubscribe, DoUnsubscribe, DoPublish, DoWatch, DoMulti, DoDiscard, DoAuth,
           ProcessAdministrative, StreamsOrdered, NoEmptySets;
      var verb := VerbOf(command);
      if verb.Exec? {
        response := Exec(client, source, env);
      } else if verb.Subscribe? {
        response := Subscribe(client, command, env);
      } else if verb.Unsubscribe? {
        response := Unsubscribe(client, command, env);
      } else if verb.Publish? {
        response := Publish(command, env);
      } else if verb.Watch? {
        response := Watch(client, command, env);
      } else if verb.Multi? {
        response := Multi(client);
      } else if verb.Discard? {
        response := Discard(client);
      } else if verb.Auth? {
        response := Authenticate(client, env);
      } else {
        response := Administer(client, command, env);
      }
    }

    /** process_command. */
    method Perform(client: ClientId, command: Command, source: Source, env: Env) returns (response: Response)
      requires Valid()
      modifies this, database
      ensures Valid()
      ensures Processed(View(), response) == ProcessCommand(old(View()), client, command, source, env)
    {
      hide VerbOf, ProcessImmediate, QueueOrRun, StreamsOrdered, NoEmptySets;
      if command == [] {
        return ERR;
      }
      var verb := VerbOf(command);
      if ImmediateVerb(verb) {
        response := Immediate(client, command, source, env);
      } else if verb.Ping? && client in subscriptions {
        response := if |command| > 2 then ERR else Array(["pong", if |command| == 2 then command[1] else []]);
      } else {
        response := QueueOrExecute(client, command, env);
      }
    }

    /* ---------- Blocking commands ---------- */

    /** try_list_pop: pop, record, fulfil. */
    method TryPop(task: Task, key: Bytes, env: Env) returns (served: bool)
      requires Valid()
      modifies this`file, this`offset, this`backlog, this`sessions, this`writeOffsets, this`replies, database
      ensures Valid()
      ensures Attempt(View(), served) == AttemptPop(old(View()), task, key, env)
    {
      hide Settle, Look, Apply, PopOne, Record, SerializeCommand, StreamsOrdered, NoEmptySets;
      var item := database.PopListElement(key, env.now);
      match item {
        case Success(value) =>
          var ok := RecordWrite(task.client, task.source, SerializeCommand(["LPOP", key]), env);
          Fulfil(task, if ok then Array([key, value]) else MISCONF);
          return true;
        case Failure(error) =>
          if error.KeyNotFound? {
            return false;
          }
          Fulfil(task, WRONGTYPE);
          return true;
      }
    }

    method Blpop(task: Task, env: Env)
      requires Valid()
      modifies this, database
      ensures Valid()
      ensures View() == ProcessBlpop(old(View()), task, env)
    {
      hide AttemptPop, StreamsOrdered, NoEmptySets;
      if |task.command| != 3 || env.context(0).timeout(task.command[2]).None? {
        Fulfil(task, ERR);
        return;
      }
      var served := TryPop(task, task.command[1], env);
      if !served {
        var timeout := env.context(0).timeout(task.command[2]).value;
        var deadline := if timeout.Forever? then None else Some(env.now + timeout.milliseconds);
        pendingPops := pendingPops + [PendingPop(task, task.command[1], deadline)];
      }
    }

    method Xread(task: Task, env: Env)
      requires Valid()
      modifies this, database
      ensures Valid()
      ensures View() == ProcessXread(old(View()), task, env)
    {
      hide ParseXread, ReadStreams, XreadResponse, StreamsOrdered, NoEmptySets;
      var parsed := ReadXread(task.command);
      if parsed.None? {
        Fulfil(task, ERR);
        return;
      }
      var resolved, results := database.ReadFrom(parsed.value.requests, env.now);
      if results.Failure? {
        Fulfil(task, WRONGTYPE);
      } else if results.value != [] {
        var response := BuildReadResponse(results.value);
        Fulfil(task, response);
      } else if parsed.value.mode.Immediate? {
        Fulfil(task, NullArray);
      } else {
        var mode := parsed.value.mode;
        var deadline := if mode.BlockFor? then Some(env.now + mode.milliseconds) else None;
        pendingReads := pendingReads + [PendingRead(task, resolved, deadline)];
      }
    }

    method Wait(task: Task, env: Env)
      requires Valid()
      modifies this
      ensures Valid()
      ensures View() == ProcessWait(old(View()), task, env)
    {
      hide ParseWait, CountReached, Live, AppendFrame, SerializeCommand, NoEmptySets;
      if !role.Master? || ParseWait(task.command).None? {
        Fulfil(task, ERR);
        return;
      }
      var request := ParseWait(task.command).value;
      var target := if task.client in writeOffsets then writeOffsets[task.client] else 0;
      var count := CountAcknowledged(target);
      if target == 0 || count >= request.required {
        Fulfil(task, Integer(count));
        return;
      }
      AppendReplicationFrame(SerializeCommand(GETACK_COMMAND));
      var deadline := if request.timeout.Forever? then None else Some(env.now + request.timeout.milliseconds);
      pendingWaits := pendingWaits + [PendingWait(task, request.required, target, deadline)];
    }

    /* ---------- One command task ---------- */

    method RefuseTask(task: Task, response: Response, env: Env)
      requires Valid()
      modifies this
      ensures Valid()
      ensures View() == Refuse(old(View()), task, response, env)
    {
      hide Deflect, NoEmptySets;
      if task.client in subscriptions {
        var deflected := DeflectTo(task.client, env);
        Fulfil(task, deflected);
      } else {
        Fulfil(task, response);
      }
    }

    method RefuseWriteTask(task: Task)
      requires Valid()
      modifies this
      ensures Valid()
      ensures View() == RefuseWrite(old(View()), task)
    {
      hide NoEmptySets;
      if task.client in transactions {
        transactions := transactions[task.client := transactions[task.client].(hasError := true)];
      }
      Fulfil(task, READONLY);
    }

    method Finish(task: Task, succeeded: bool, response: Response, env: Env)
      requires Valid()
      modifies this
      ensures Valid()
      ensures View() == Conclude(old(View()), task, succeeded, response, env)
    {
      hide Deflect, NoEmptySets;
      if task.source.FromMaster? && succeeded {
        offset := offset + task.bytes;
      }
      if task.source.FromClient? && task.client in subscriptions && !response.NoResponse? {
        var deflected := DeflectTo(task.client, env);
        Fulfil(task, deflected);
      } else {
        Fulfil(task, response);
      }
    }

    method Direct(task: Task, env: Env)
      requires Valid()
      modifies this, database
      ensures Valid()
      ensures View() == ProcessDirect(old(View()), task, env)
    {
      hide ProcessCommand, Record, Conclude, IsWrite, Modified, Normalize, SerializeCommand, StreamsOrdered,
           NoEmptySets;
      var write := task.client !in transactions && IsWrite(task.command);
      var response := Perform(task.client, task.command, task.source, env);
      var succeeded := !response.SimpleError?;
      if write && Modified(task.command, response) {
        var ok := RecordWrite(task.client, task.source, SerializeCommand(Normalize(task.command, response)), env);
        if !ok {
          response := MISCONF;
        }
      }
      Finish(task, succeeded, response, env);
    }

    method Admitted(task: Task, env: Env)
      requires Valid()
      modifies this, database
      ensures Valid()
      ensures View() == ProcessAdmitted(old(View()), task, env)
    {
      hide VerbOf, ProcessDirect, ProcessBlpop, ProcessXread, ProcessWait, StreamsOrdered, NoEmptySets;
      var verb := VerbOf(task.command);
      if task.client in transactions {
        Direct(task, env);
      } else if verb.Blpop? {
        Blpop(task, env);
      } else if verb.Xread? {
        Xread(task, env);
      } else if verb.Wait? {
        Wait(task, env);
      } else {
        Direct(task, env);
      }
    }

    /** process_task. */
    method TakeCommand(task: Task, env: Env)
      requires Valid()
      modifies this, database
      ensures Valid()
      ensures View() == ProcessTask(old(View()), task, env)
    {
      hide VerbOf, IsWrite, Refuse, RefuseWrite, ProcessAdmitted, StreamsOrdered, NoEmptySets;
      var verb := VerbOf(task.command);
      var fromClient := task.source.FromClient?;
      if fromClient && !verb.Auth? && !(task.client in clients && clients[task.client]) {
        RefuseTask(task, NOAUTH, env);
      } else if fromClient && task.client in subscriptions && !verb.Subscribe? && !verb.Unsubscribe? && !verb.Ping? {
        RefuseTask(task, ERR, env);
      } else if role.Replica? && fromClient && IsWrite(task.command) {
        RefuseWriteTask(task);
      } else {
        Admitted(task, env);
      }
    }

    /* ---------- Cancelling, retrying and expiring: each loop erases in place ---------- */

    method CancelPendingPops(client: ClientId)
      modifies this`pendingPops, this`replies
      ensures View() == CancelPops(old(View()), old(pendingPops), [], client)
    {
      var i := 0;
      assert pendingPops[0..] == pendingPops && pendingPops[..0] == [];
      while i < |pendingPops|
        invariant i <= |pendingPops|
        invariant CancelPops(View().(pendingPops := old(pendingPops)), pendingPops[i..], pendingPops[..i], client) ==
                  CancelPops(old(View()), old(pendingPops), [], client)
        decreases |pendingPops| - i
      {
        assert pendingPops[i..][0] == pendingPops[i] && pendingPops[i..][1..] == pendingPops[i + 1..];
        if pendingPops[i].task.client != client {
          assert pendingPops[..i + 1] == pendingPops[..i] + [pendingPops[i]];
          i := i + 1;
        } else {
          Fulfil(pendingPops[i].task, NoResponse);
          ghost var done, rest := pendingPops[..i], pendingPops[i + 1..];
          pendingPops := pendingPops[..i] + pendingPops[i + 1..];
          assert pendingPops[..i] == done && pendingPops[i..] == rest;
        }
      }
      assert pendingPops[..i] == pendingPops;
    }

    method CancelPendingReads(client: ClientId)
      modifies this`pendingReads, this`replies
      ensures View() == CancelReads(old(View()), old(pendingReads), [], client)
    {
      var i := 0;
      assert pendingReads[0..] == pendingReads && pendingReads[..0] == [];
      while i < |pendingReads|
        invariant i <= |pendingReads|
        invariant CancelReads(View().(pendingReads := old(pendingReads)), pendingReads[i..], pendingReads[..i], client) ==
                  CancelReads(old(View()), old(pendingReads), [], client)
        decreases |pendingReads| - i
      {
        assert pendingReads[i..][0] == pendingReads[i] && pendingReads[i..][1..] == pendingReads[i + 1..];
        if pendingReads[i].task.client != client {
          assert pendingReads[..i + 1] == pendingReads[..i] + [pendingReads[i]];
          i := i + 1;
        } else {
          Fulfil(pendingReads[i].task, NoResponse);
          ghost var done, rest := pendingReads[..i], pendingReads[i + 1..];
          pendingReads := pendingReads[..i] + pendingReads[i + 1..];
          assert pendingReads[..i] == done && pendingReads[i..] == rest;
        }
      }
      assert pendingReads[..i] == pendingReads;
    }

    method CancelPendingWaits(client: ClientId)
      modifies this`pendingWaits, this`replies
      ensures View() == CancelWaits(old(View()), old(pendingWaits), [], client)
    {
      var i := 0;
      assert pendingWaits[0..] == pendingWaits && pendingWaits[..0] == [];
      while i < |pendingWaits|
        invariant i <= |pendingWaits|
        invariant CancelWaits(View().(pendingWaits := old(pendingWaits)), pendingWaits[i..], pendingWaits[..i], client) ==
                  CancelWaits(old(View()), old(pendingWaits), [], client)
        decreases |pendingWaits| - i
      {
        assert pendingWaits[i..][0] == pendingWaits[i] && pendingWaits[i..][1..] == pendingWaits[i + 1..];
        if pendingWaits[i].task.client != client {
          assert pendingWaits[..i + 1] == pendingWaits[..i] + [pendingWaits[i]];
          i := i + 1;
        } else {
          Fulfil(pendingWaits[i].task, NoResponse);
          ghost var done, rest := pendingWaits[..i], pendingWaits[i + 1..];
          pendingWaits := pendingWaits[..i] + pendingWaits[i + 1..];
          assert pendingWaits[..i] == done && pendingWaits[i..] == rest;
        }
      }
      assert pendingWaits[..i] == pendingWaits;
    }

    method RetryPendingPops(env: Env)
      requires Valid()
      modifies this`file, this`offset, this`backlog, this`sessions, this`writeOffsets, this`replies, this`pendingPops, database
      ensures Valid()
      ensures View() == RetryPops(old(View()), old(pendingPops), [], env)
    {
      hide RetryPops, AttemptPop, StreamsOrdered, NoEmptySets;
      var i := 0;
      assert pendingPops[0..] == pendingPops && pendingPops[..0] == [];
      while i < |pendingPops|
        invariant i <= |pendingPops| && Valid()
        invariant RetryPops(View().(pendingPops := old(pendingPops)), pendingPops[i..], pendingPops[..i], env) ==
                  RetryPops(old(View()), old(pendingPops), [], env)
        decreases |pendingPops| - i
      {
        assert pendingPops[i..][0] == pendingPops[i] && pendingPops[i..][1..] == pendingPops[i + 1..];
        PopsStep(View().(pendingPops := old(pendingPops)), pendingPops[i..], pendingPops[..i], env);
        AttemptElsewhere(View(), old(pendingPops), pendingPops[i].task, pendingPops[i].key, env);
        var served := TryPop(pendingPops[i].task, pendingPops[i].key, env);
        if !served {
          assert pendingPops[..i + 1] == pendingPops[..i] + [pendingPops[i]];
          i := i + 1;
        } else {
          ghost var done, rest := pendingPops[..i], pendingPops[i + 1..];
          pendingPops := pendingPops[..i] + pendingPops[i + 1..];
          assert pendingPops[..i] == done && pendingPops[i..] == rest;
        }
      }
      assert pendingPops[..i] == pendingPops && pendingPops[i..] == [];
      PopsEnd(View().(pendingPops := old(pendingPops)), pendingPops, env);
    }

    method TryRead(pending: PendingRead, env: Env) returns (answered: bool, requests: seq<ReadRequest>)
      requires Valid()
      modifies this`replies, database
      ensures Valid()
      ensures ReadTry(View(), answered, requests) == TryOneRead(old(View()), pending, env)
    {
      hide ReadStreams, XreadResponse, StreamsOrdered, NoEmptySets;
      var results: Result<seq<ReadResult>>;
      requests, results := database.ReadFrom(pending.requests, env.now);
      if results.Success? && results.value == [] {
        return false, requests;
      }
      var response := WRONGTYPE;
      if results.Success? {
        response := BuildReadResponse(results.value);
      }
      Fulfil(pending.task, response);
      return true, requests;
    }

    method RetryPendingReads(env: Env)
      requires Valid()
      modifies this`pendingReads, this`replies, database
      ensures Valid()
      ensures View() == RetryReads(old(View()), old(pendingReads), [], env)
    {
      hide RetryReads, TryOneRead, StreamsOrdered, NoEmptySets;
      var i := 0;
      assert pendingReads[0..] == pendingReads && pendingReads[..0] == [];
      while i < |pendingReads|
        invariant i <= |pendingReads| && Valid()
        invariant RetryReads(View().(pendingReads := old(pendingReads)), pendingReads[i..], pendingReads[..i], env) ==
                  RetryReads(old(View()), old(pendingReads), [], env)
        decreases |pendingReads| - i
      {
        ghost var done, rest := pendingReads[..i], pendingReads[i + 1..];
        assert pendingReads[i..][0] == pendingReads[i] && pendingReads[i..][1..] == rest;
        ReadsStep(View().(pendingReads := old(pendingReads)), pendingReads[i..], done, env);
        ReadElsewhere(View(), old(pendingReads), pendingReads[i], env);
        var answered, requests := TryRead(pendingReads[i], env);
        if !answered {
          pendingReads := pendingReads[i := pendingReads[i].(requests := requests)];
          assert pendingReads[..i + 1] == done + [pendingReads[i]] && pendingReads[i + 1..] == rest;
          i := i + 1;
        } else {
          pendingReads := pendingReads[..i] + pendingReads[i + 1..];
          assert pendingReads[..i] == done && pendingReads[i..] == rest;
        }
      }
      assert pendingReads[..i] == pendingReads && pendingReads[i..] == [];
      ReadsEnd(View().(pendingReads := old(pendingReads)), pendingReads, env);
    }

    method TryWait(pending: PendingWait) returns (answered: bool)
      modifies this`replies, this`sessions
      ensures WaitTry(View(), answered) == TryOneWait(old(View()), pending)
    {
      hide CountReached, Live;
      var count := CountAcknowledged(pending.target);
      if count < pending.required {
        return false;
      }
      Fulfil(pending.task, Integer(count));
      return true;
    }

    method RetryPendingWaits()
      modifies this`pendingWaits, this`replies, this`sessions
      ensures View() == RetryWaits(old(View()), old(pendingWaits), [])
    {
      hide RetryWaits, TryOneWait;
      var i := 0;
      assert pendingWaits[0..] == pendingWaits && pendingWaits[..0] == [];
      while i < |pendingWaits|
        invariant i <= |pendingWaits|
        invariant RetryWaits(View().(pendingWaits := old(pendingWaits)), pendingWaits[i..], pendingWaits[..i]) ==
                  RetryWaits(old(View()), old(pendingWaits), [])
        decreases |pendingWaits| - i
      {
        ghost var done, rest := pendingWaits[..i], pendingWaits[i + 1..];
        assert pendingWaits[i..][0] == pendingWaits[i] && pendingWaits[i..][1..] == rest;
        WaitsStep(View().(pendingWaits := old(pendingWaits)), pendingWaits[i..], done);
        WaitElsewhere(View(), old(pendingWaits), pendingWaits[i]);
        var answered := TryWait(pendingWaits[i]);
        if !answered {
          assert pendingWaits[..i + 1] == pendingWaits[..i] + [pendingWaits[i]];
          i := i + 1;
        } else {
          pendingWaits := pendingWaits[..i] + pendingWaits[i + 1..];
          assert pendingWaits[..i] == done && pendingWaits[i..] == rest;
        }
      }
      assert pendingWaits[..i] == pendingWaits && pendingWaits[i..] == [];
      WaitsEnd(View().(pendingWaits := old(pendingWaits)), pendingWaits);
    }

    method ExpirePendingPops(now: nat)
      modifies this`pendingPops, this`replies
      ensures View() == ExpirePops(old(View()), old(pendingPops), [], now)
    {
      var i := 0;
      assert pendingPops[0..] == pendingPops && pendingPops[..0] == [];
      while i < |pendingPops|
        invariant i <= |pendingPops|
        invariant ExpirePops(View().(pendingPops := old(pendingPops)), pendingPops[i..], pendingPops[..i], now) ==
                  ExpirePops(old(View()), old(pendingPops), [], now)
        decreases |pendingPops| - i
      {
        assert pendingPops[i..][0] == pendingPops[i] && pendingPops[i..][1..] == pendingPops[i + 1..];
        if pendingPops[i].deadline.None? || now < pendingPops[i].deadline.value {
          assert pendingPops[..i + 1] == pendingPops[..i] + [pendingPops[i]];
          i := i + 1;
        } else {
          Fulfil(pendingPops[i].task, NullArray);
          ghost var done, rest := pendingPops[..i], pendingPops[i + 1..];
          pendingPops := pendingPops[..i] + pendingPops[i + 1..];
          assert pendingPops[..i] == done && pendingPops[i..] == rest;
        }
      }
      assert pendingPops[..i] == pendingPops;
    }

    method ExpirePendingReads(now: nat)
      modifies this`pendingReads, this`replies
      ensures View() == ExpireReads(old(View()), old(pendingReads), [], now)
    {
      var i := 0;
      assert pendingReads[0..] == pendingReads && pendingReads[..0] == [];
      while i < |pendingReads|
        invariant i <= |pendingReads|
        invariant ExpireReads(View().(pendingReads := old(pendingReads)), pendingReads[i..], pendingReads[..i], now) ==
                  ExpireReads(old(View()), old(pendingReads), [], now)
        decreases |pendingReads| - i
      {
        assert pendingReads[i..][0] == pendingReads[i] && pendingReads[i..][1..] == pendingReads[i + 1..];
        if pendingReads[i].deadline.None? || now < pendingReads[i].deadline.value {
          assert pendingReads[..i + 1] == pendingReads[..i] + [pendingReads[i]];
          i := i + 1;
        } else {
          Fulfil(pendingReads[i].task, NullArray);
          ghost var done, rest := pendingReads[..i], pendingReads[i + 1..];
          pendingReads := pendingReads[..i] + pendingReads[i + 1..];
          assert pendingReads[..i] == done && pendingReads[i..] == rest;
        }
      }
      assert pendingReads[..i] == pendingReads;
    }

    method TimeOutWait(pending: PendingWait)
      modifies this`replies, this`sessions
      ensures View() == TimedOut(old(View()), pending)
    {
      hide CountReached, Live;
      var count := CountAcknowledged(pending.target);
      Fulfil(pending.task, Integer(count));
    }

    method ExpirePendingWaits(now: nat)
      modifies this`pendingWaits, this`replies, this`sessions
      ensures View() == ExpireWaits(old(View()), old(pendingWaits), [], now)
    {
      hide ExpireWaits, TimedOut;
      var i := 0;
      assert pendingWaits[0..] == pendingWaits && pendingWaits[..0] == [];
      while i < |pendingWaits|
        invariant i <= |pendingWaits|
        invariant ExpireWaits(View().(pendingWaits := old(pendingWaits)), pendingWaits[i..], pendingWaits[..i], now) ==
                  ExpireWaits(old(View()), old(pendingWaits), [], now)
        decreases |pendingWaits| - i
      {
        ghost var done, rest := pendingWaits[..i], pendingWaits[i + 1..];
        assert pendingWaits[i..][0] == pendingWaits[i] && pendingWaits[i..][1..] == rest;
        OverdueStep(View().(pendingWaits := old(pendingWaits)), pendingWaits[i..], done, now);
        if pendingWaits[i].deadline.None? || now < pendingWaits[i].deadline.value {
          assert pendingWaits[..i + 1] == pendingWaits[..i] + [pendingWaits[i]];
          i := i + 1;
        } else {
          TimedOutElsewhere(View(), old(pendingWaits), pendingWaits[i]);
          TimeOutWait(pendingWaits[i]);
          pendingWaits := pendingWaits[..i] + pendingWaits[i + 1..];
          assert pendingWaits[..i] == done && pendingWaits[i..] == rest;
        }
      }
      assert pendingWaits[..i] == pendingWaits && pendingWaits[i..] == [];
      OverdueEnd(View().(pendingWaits := old(pendingWaits)), pendingWaits, now);
    }

    /* ---------- The other tasks ---------- */

    /** load_rdb: expired entries are skipped. */
    method LoadSnapshot(snapshot: seq<StringEntry>, unixNow: int, now: nat)
      requires database.Valid()
      modifies database
      ensures database.Valid()
      ensures database.View() == LoadEntries(old(database.View()), snapshot, unixNow, now)
    {
      hide Apply, StreamsOrdered;
      assert snapshot[0..] == snapshot;
      for i := 0 to |snapshot|
        invariant database.Valid()
        invariant LoadEntries(database.View(), snapshot[i..], unixNow, now) == LoadEntries(old(database.View()), snapshot, unixNow, now)
      {
        assert snapshot[i..][0] == snapshot[i] && snapshot[i..][1..] == snapshot[i + 1..];
        var expiry := snapshot[i].expiresAtUnix;
        if expiry.None? {
          database.Set(snapshot[i].key, snapshot[i].value, None, now);
        } else if unixNow >= 0 && expiry.value > unixNow {
          var remaining := expiry.value - unixNow;
          database.Set(snapshot[i].key, snapshot[i].value, Some(if remaining < I64_LIMIT then remaining else I64_LIMIT - 1), now);
        }
      }
    }

    /** The loop that replays the file until a command fails. */
    method ReplayLog(commands: seq<Command>, env: Env) returns (ok: bool)
      requires Valid()
      modifies this, database
      ensures Valid()
      ensures Replayed(View(), ok) == ReplayCommands(old(View()), commands, env)
    {
      hide ProcessCommand, StreamsOrdered, NoEmptySets;
      assert commands[0..] == commands;
      for i := 0 to |commands|
        invariant Valid()
        invariant ReplayCommands(View(), commands[i..], env) == ReplayCommands(old(View()), commands, env)
      {
        assert commands[i..][0] == commands[i] && commands[i..][1..] == commands[i + 1..];
        var response := Perform(AOF_CLIENT, commands[i], FromAof, env);
        if response.SimpleError? {
          return false;
        }
      }
      return true;
    }

    /** process_aof_initialization. */
    method OpenLog(contents: Bytes, commands: seq<Command>, env: Env)
      requires Valid()
      modifies this, database
      ensures Valid()
      ensures View() == ProcessAof(old(View()), contents, commands, env)
    {
      hide ReplayCommands, StreamsOrdered, NoEmptySets;
      var ok := ReplayLog(commands, env);
      if ok && AOF_CLIENT !in transactions {
        file := Some(contents);
      }
      transactions := transactions - {AOF_CLIENT};
      watched := watched - {AOF_CLIENT};
    }

    /** cancel_pending_commands. */
    method CancelPending(client: ClientId)
      modifies this`pendingPops, this`pendingReads, this`pendingWaits, this`replies
      ensures View() == AllCancelled(old(View()), client)
    {
      hide CancelPops, CancelReads, CancelWaits;
      OtherQueues(View(), client);
      CancelPendingPops(client);
      CancelPendingReads(client);
      CancelPendingWaits(client);
    }

    method EraseOffsets(client: ClientId)
      modifies this`writeOffsets, this`acknowledged
      ensures Stream() == ReplicationStream.Unregister(old(Stream()), client)
    {
      writeOffsets := writeOffsets - {client};
      acknowledged := acknowledged - {client};
    }

    method EraseClient(client: ClientId)
      modifies this`clients, this`transactions, this`watched, this`writeOffsets, this`acknowledged
      ensures clients == old(clients) - {client}
      ensures transactions == old(transactions) - {client}
      ensures watched == old(watched) - {client}
      ensures Stream() == ReplicationStream.Unregister(old(Stream()), client)
    {
      hide ReplicationStream.Unregister;
      clients := clients - {client};
      transactions := transactions - {client};
      watched := watched - {client};
      EraseOffsets(client);
    }

    /** process_client_unregistration. */
    method Unregister(client: ClientId)
      requires Valid()
      modifies this
      ensures Valid()
      ensures View() == ProcessUnregister(old(View()), client)
    {
      hide AllCancelled, Forget, NoEmptySets, ProcessUnregister, StreamsOrdered, ReplicationStream.Unregister;
      CancelPending(client);
      DropSubscriptions(client);
      EraseClient(client);
      UnregisterIs(old(View()), client);
    }

    method RegisterReplicaSession(client: ClientId) returns (startingOffset: nat)
      modifies this`sessions
      ensures View() == old(View()).(replication := Register(old(Stream()), client))
      ensures startingOffset == offset
    {
      sessions := sessions + [Session(client, offset, [], [], false, true)];
      return offset;
    }

    method TakeAcknowledgement(client: ClientId, reported: nat)
      modifies this`acknowledged
      ensures View() == old(View()).(replication := Acknowledge(old(Stream()), client, reported))
    {
      var known := if client in acknowledged then acknowledged[client] else 0;
      acknowledged := acknowledged[client := if known < reported then reported else known];
    }

    method Take(t: ProcessorTask, env: Env)
      requires Valid()
      modifies this, database
      ensures Valid()
      ensures View() == Process(old(View()), t, env)
    {
      hide ProcessTask, LoadEntries, ProcessAof, ProcessUnregister, StreamsOrdered, NoEmptySets, Acknowledge,
           Register;
      match t {
        case CommandTask(task) => TakeCommand(task, env);
        case RegisterReplica(client) => var start := RegisterReplicaSession(client);
        case InstallReplicationState(installed) => offset := installed;
        case GetReplicationOffset =>
        case AcknowledgeReplica(client, reported) => TakeAcknowledgement(client, reported);
        case LoadRdb(snapshot, unixNow) => LoadSnapshot(snapshot, unixNow, env.now);
        case InitializeAof(contents, commands) => OpenLog(contents, commands, env);
        case RegisterClient(client) => clients := clients[client := openAccess];
        case UnregisterClient(client) => Unregister(client);
      }
    }

    method RetryPending(env: Env)
      requires Valid()
      modifies this, database
      ensures Valid()
      ensures View() == RetryAll(old(View()), env)
    {
      hide RetryPops, RetryReads, RetryWaits, StreamsOrdered, NoEmptySets;
      RetryPendingPops(env);
      RetryPendingReads(env);
      RetryPendingWaits();
    }

    method ExpirePending(now: nat)
      requires Valid()
      modifies this
      ensures Valid()
      ensures View() == ExpireAll(old(View()), now)
    {
      hide ExpirePops, ExpireReads, ExpireWaits, StreamsOrdered, NoEmptySets;
      ExpirePendingPops(now);
      ExpirePendingReads(now);
      ExpirePendingWaits(now);
    }

    /** One turn of the worker, or one move of a connection thread. */
    method Handle(event: Event)
      requires Valid()
      modifies this, database
      ensures Valid()
      ensures View() == Next(old(View()), event)
    {
      hide Process, RetryAll, ExpireAll, StepSession, StreamsOrdered, NoEmptySets;
      match event {
        case Work(t, env) =>
          Take(t, env);
          RetryPending(env);
          ExpirePending(env.now);
        case Tick(now) => ExpirePending(now);
        case Connection(index, step) =>
          if index < |sessions| {
            sessions := sessions[index := StepSession(sessions[index], step)];
          }
      }
    }

    /** run(): one event after the other. */
    method HandleAll(events: seq<Event>)
      requires Valid()
      modifies this, database
      ensures Valid()
      ensures View() == Run(old(View()), events)
    {
      hide Next, StreamsOrdered, NoEmptySets;
      assert events[0..] == events;
      for i := 0 to |events|
        invariant Valid()
        invariant Run(View(), events[i..]) == Run(old(View()), events)
      {
        assert events[i..][0] == events[i] && events[i..][1..] == events[i + 1..];
        Handle(events[i]);
      }
    }
  }

  function AllCancelled(s: State, client: ClientId): State {
    CancelWaits(CancelReads(CancelPops(s, s.pendingPops, [], client), s.pendingReads, [], client), s.pendingWaits, [], client)
  }

  function Erased(s: State, client: ClientId): State {
    s.(clients := s.clients - {client}, transactions := s.transactions - {client}, watched := s.watched - {client},
       replication := ReplicationStream.Unregister(s.replication, client))
  }

  lemma UnregisterIs(s: State, client: ClientId)
    ensures var c := AllCancelled(s, client); ProcessUnregister(s, client) == Erased(c.(hub := Forget(c.hub, client)), client)
  {
    hide CancelPops, CancelReads, CancelWaits, Forget;
  }

  /** Cancelling in one queue leaves the other two alone. */
  lemma OtherQueues(s: State, client: ClientId)
    ensures var a := CancelPops(s, s.pendingPops, [], client);
            && a.pendingReads == s.pendingReads && a.pendingWaits == s.pendingWaits
            && CancelReads(a, s.pendingReads, [], client).pendingWaits == s.pendingWaits
  {
    CancelPopsOthers(s, s.pendingPops, [], client);
    CancelReadsOthers(CancelPops(s, s.pendingPops, [], client), s.pendingReads, [], client);
  }

  /** The elements of a set in some order. */
  method ListOf(names: set<Bytes>) returns (order: seq<Bytes>)
    ensures Enumerates(order, names)
  {
    order := [];
    var left := names;
    while left != {}
      invariant left <= names && Enumerates(order, names - left)
      decreases |left|
    {
      var name :| name in left;
      EnumeratesMore(order, names - left, name);
      assert names - (left - {name}) == names - left + {name};
      order := order + [name];
      left := left - {name};
    }
    assert names - {} == names;
  }

  /* ---------- One turn of each loop ---------- */

  lemma BroadcastElsewhere(s: State, queue: seq<PendingPop>, client: ClientId, source: Source, payload: Bytes)
    ensures Broadcast(s, client, source, payload).pendingPops == s.pendingPops
    ensures Broadcast(s.(pendingPops := queue), client, source, payload) ==
            Broadcast(s, client, source, payload).(pendingPops := queue)
  {
    hide AppendClientFrame;
  }

  lemma RecordElsewhere(s: State, queue: seq<PendingPop>, client: ClientId, source: Source, payload: Bytes, env: Env)
    ensures var recorded := Record(s, client, source, payload, env);
            && recorded.state.pendingPops == s.pendingPops
            && Record(s.(pendingPops := queue), client, source, payload, env) ==
               recorded.(state := recorded.state.(pendingPops := queue))
  {
    hide Broadcast;
    BroadcastElsewhere(s, queue, client, source, payload);
    if s.file.Some? {
      BroadcastElsewhere(s.(file := Some(s.file.value + payload)), queue, client, source, payload);
    }
  }

  /** An attempt does not look at the queue it is made from. */
  lemma AttemptElsewhere(s: State, queue: seq<PendingPop>, task: Task, key: Bytes, env: Env)
    ensures var attempt := AttemptPop(s, task, key, env);
            && attempt.state.pendingPops == s.pendingPops
            && AttemptPop(s.(pendingPops := queue), task, key, env) ==
               attempt.(state := attempt.state.(pendingPops := queue))
  {
    hide Settle, Look, Apply, PopOne, SerializeCommand, Record;
    var settled := Settle(s.db, key, env.now);
    var after := s.(db := Apply(settled, key, PopOne(Look(settled, key)).change));
    RecordElsewhere(after, queue, task.client, task.source, SerializeCommand(["LPOP", key]), env);
  }

  lemma PopsStep(s: State, queue: seq<PendingPop>, kept: seq<PendingPop>, env: Env)
    requires queue != []
    ensures var attempt := AttemptPop(s, queue[0].task, queue[0].key, env);
            RetryPops(s, queue, kept, env) ==
            RetryPops(attempt.state, queue[1..], if attempt.served then kept else kept + [queue[0]], env)
  {
    hide AttemptPop;
  }

  lemma PopsEnd(s: State, kept: seq<PendingPop>, env: Env)
    ensures RetryPops(s, [], kept, env) == s.(pendingPops := kept)
  {
    hide AttemptPop;
  }

  datatype ReadTry = ReadTry(state: State, answered: bool, requests: seq<ReadRequest>)

  function TryOneRead(s: State, pending: PendingRead, env: Env): ReadTry {
    var reading := ReadStreams(s.db, pending.requests, env.now);
    var after := s.(db := reading.db);
    if reading.results.None? then ReadTry(Answer(after, pending.task, WRONGTYPE), true, reading.requests)
    else if reading.results.value == [] then ReadTry(after, false, reading.requests)
    else ReadTry(Answer(after, pending.task, XreadResponse(reading.results.value)), true, reading.requests)
  }

  lemma ReadsStep(s: State, queue: seq<PendingRead>, kept: seq<PendingRead>, env: Env)
    requires queue != []
    ensures var tried := TryOneRead(s, queue[0], env);
            RetryReads(s, queue, kept, env) ==
            RetryReads(tried.state, queue[1..], if tried.answered then kept else kept + [queue[0].(requests := tried.requests)], env)
  {
    hide ReadStreams, XreadResponse;
  }

  lemma ReadsEnd(s: State, kept: seq<PendingRead>, env: Env)
    ensures RetryReads(s, [], kept, env) == s.(pendingReads := kept)
  {
  }

  lemma ReadElsewhere(s: State, queue: seq<PendingRead>, pending: PendingRead, env: Env)
    ensures var tried := TryOneRead(s, pending, env);
            && tried.state.pendingReads == s.pendingReads
            && TryOneRead(s.(pendingReads := queue), pending, env) == tried.(state := tried.state.(pendingReads := queue))
  {
    hide ReadStreams, XreadResponse;
  }

  datatype WaitTry = WaitTry(state: State, answered: bool)

  function TryOneWait(s: State, pending: PendingWait): WaitTry {
    var count := CountReached(s.replication.sessions, s.replication.acknowledged, pending.target);
    var pruned := s.(replication := Prune(s.replication));
    if count < pending.required then WaitTry(pruned, false) else WaitTry(Answer(pruned, pending.task, Integer(count)), true)
  }

  lemma WaitsStep(s: State, queue: seq<PendingWait>, kept: seq<PendingWait>)
    requires queue != []
    ensures var tried := TryOneWait(s, queue[0]);
            RetryWaits(s, queue, kept) == RetryWaits(tried.state, queue[1..], if tried.answered then kept else kept + [queue[0]])
  {
    hide CountReached, Prune;
  }

  lemma WaitsEnd(s: State, kept: seq<PendingWait>)
    ensures RetryWaits(s, [], kept) == s.(pendingWaits := kept)
  {
  }

  lemma WaitElsewhere(s: State, queue: seq<PendingWait>, pending: PendingWait)
    ensures var tried := TryOneWait(s, pending);
            && tried.state.pendingWaits == s.pendingWaits
            && TryOneWait(s.(pendingWaits := queue), pending) == tried.(state := tried.state.(pendingWaits := queue))
  {
    hide CountReached, Prune;
  }

  function TimedOut(s: State, pending: PendingWait): State {
    var count := CountReached(s.replication.sessions, s.replication.acknowledged, pending.target);
    Answer(s.(replication := Prune(s.replication)), pending.task, Integer(count))
  }

  lemma OverdueStep(s: State, queue: seq<PendingWait>, kept: seq<PendingWait>, now: nat)
    requires queue != []
    ensures ExpireWaits(s, queue, kept, now) ==
            if Overdue(queue[0].deadline, now) then ExpireWaits(TimedOut(s, queue[0]), queue[1..], kept, now)
            else ExpireWaits(s, queue[1..], kept + [queue[0]], now)
  {
    hide CountReached, Prune, Overdue;
  }

  lemma OverdueEnd(s: State, kept: seq<PendingWait>, now: nat)
    ensures ExpireWaits(s, [], kept, now) == s.(pendingWaits := kept)
  {
  }

  lemma TimedOutElsewhere(s: State, queue: seq<PendingWait>, pending: PendingWait)
    ensures var after := TimedOut(s, pending);
            && after.pendingWaits == s.pendingWaits
            && TimedOut(s.(pendingWaits := queue), pending) == after.(pendingWaits := queue)
  {
    hide CountReached, Prune;
  }

  lemma PublishNames(s: State, channel: Bytes, env: Env)
    requires channel in s.hub.channels
    ensures var subscribers := s.hub.channels[channel];
            var dead := set client | client in subscribers && !SessionThere(s, client, env);
            && Dead(s.clients, subscribers, env) == dead
            && Accepted(subscribers - dead, env) == set client | client in subscribers - dead && env.session(client).Accepting?
  {
  }

  /** A run that follows what was already done. */
  function RanFirst(responses: seq<Response>, logged: seq<Command>, rest: Ran): Ran {
    Ran(rest.db, responses + rest.responses, logged + rest.logged)
  }

  lemma RanNothing(rest: Ran)
    ensures RanFirst([], [], rest) == rest
  {
    assert [] + rest.responses == rest.responses && [] + rest.logged == rest.logged;
  }

  lemma RanMore(responses: seq<Response>, logged: seq<Command>, response: Response, more: seq<Command>, rest: Ran)
    ensures RanFirst(responses + [response], logged + more, rest) ==
            RanFirst(responses, logged, Ran(rest.db, [response] + rest.responses, more + rest.logged))
  {
    assert responses + [response] + rest.responses == responses + ([response] + rest.responses);
    assert logged + more + rest.logged == logged + (more + rest.logged);
  }

  lemma CountStep(done: seq<Session>, session: Session, rest: seq<Session>, acknowledged: map<ClientId, nat>, target: nat)
    ensures done + Live([session] + rest) == (if session.alive then done + [session] else done) + Live(rest)
    ensures CountReached([session] + rest, acknowledged, target) ==
            (if session.alive && Reached(session, acknowledged, target) then 1 else 0) + CountReached(rest, acknowledged, target)
  {
    assert ([session] + rest)[1..] == rest;
    assert done + ([session] + Live(rest)) == done + [session] + Live(rest);
  }

  lemma CountEnd(acknowledged: map<ClientId, nat>, target: nat)
    ensures Live([]) == [] && CountReached([], acknowledged, target) == 0
  {
  }

  /** What publish works on. */
  datatype Board = Board(clients: map<ClientId, bool>, channels: map<Bytes, set<ClientId>>, subscriptions: map<ClientId, set<Bytes>>)

  predicate Alive(clients: map<ClientId, bool>, client: ClientId, env: Env) {
    client in clients && !env.session(client).Gone?
  }

  function Dropped(board: Board, client: ClientId, channel: Bytes): Board
    requires channel in board.channels
  {
    Board(board.clients - {client}, board.channels[channel := board.channels[channel] - {client}],
          WithoutOne(board.subscriptions, client, channel))
  }

  function Visited(board: Board, client: ClientId, channel: Bytes, env: Env): (b: Board)
    requires channel in board.channels
    ensures channel in b.channels
  {
    if Alive(board.clients, client, env) then board else Dropped(board, client, channel)
  }

  /** The subscribers in `seen` have been visited. */
  predicate Midway(before: Board, now: Board, channel: Bytes, seen: set<ClientId>, recipients: nat, env: Env) {
    && channel in before.channels && NoEmptySets(now.subscriptions)
    && var dead := Dead(before.clients, seen, env);
    && now.channels == before.channels[channel := before.channels[channel] - dead]
    && now.clients == before.clients - dead
    && now.subscriptions == WithoutChannel(before.subscriptions, channel, dead)
    && recipients == |Accepted(seen - dead, env)|
  }

  lemma JoinFills(hub: Hub, client: ClientId, channel: Bytes)
    requires NoEmptySets(hub.subscriptions)
    ensures NoEmptySets(Join(hub, client, channel).subscriptions)
  {
  }

  lemma OneLess(all: set<ClientId>, left: set<ClientId>, client: ClientId)
    requires client in left && left <= all
    ensures all - (left - {client}) == all - left + {client}
  {
  }

  lemma MidwayStart(before: Board, channel: Bytes, env: Env)
    requires channel in before.channels && NoEmptySets(before.subscriptions)
    ensures Midway(before, before, channel, {}, 0, env)
  {
    assert Dead(before.clients, {}, env) == {};
    assert Accepted({} - {}, env) == {};
    assert before.channels[channel] - {} == before.channels[channel];
    assert before.clients - {} == before.clients;
    assert WithoutChannel(before.subscriptions, channel, {}) == before.subscriptions;
  }

  lemma MidwayAlive(before: Board, now: Board, channel: Bytes, seen: set<ClientId>, recipients: nat, client: ClientId, env: Env)
    requires Midway(before, now, channel, seen, recipients, env) && client !in seen
    requires client in now.clients && !env.session(client).Gone?
    ensures channel in now.channels
    ensures Midway(before, now, channel, seen + {client}, recipients + if env.session(client).Accepting? then 1 else 0, env)
  {
    hide WithoutChannel, Accepted, NoEmptySets;
    var dead := Dead(before.clients, seen, env);
    DeadMore(before.clients, seen, client, env);
    assert dead + {} == dead;
    assert seen + {client} - dead == seen - dead + {client};
    AcceptedMore(seen - dead, client, env);
  }

  lemma MidwayDead(before: Board, now: Board, channel: Bytes, seen: set<ClientId>, recipients: nat, client: ClientId, env: Env)
    requires Midway(before, now, channel, seen, recipients, env) && client !in seen
    requires client !in now.clients || env.session(client).Gone?
    ensures channel in now.channels && channel in Dropped(now, client, channel).channels
    ensures Midway(before, Dropped(now, client, channel), channel, seen + {client}, recipients, env)
  {
    hide WithoutChannel, Accepted;
    var dead := Dead(before.clients, seen, env);
    DeadMore(before.clients, seen, client, env);
    assert before.channels[channel] - dead - {client} == before.channels[channel] - (dead + {client});
    assert before.clients - dead - {client} == before.clients - (dead + {client});
    assert seen + {client} - (dead + {client}) == seen - dead;
    WithoutChannelMore(before.subscriptions, channel, dead, client);
  }

  lemma MidwayVisit(before: Board, now: Board, channel: Bytes, seen: set<ClientId>, recipients: nat, client: ClientId, env: Env)
    requires Midway(before, now, channel, seen, recipients, env) && client !in seen && channel in now.channels
    ensures var delivered := Alive(now.clients, client, env) && env.session(client).Accepting?;
            Midway(before, Visited(now, client, channel, env), channel, seen + {client}, recipients + if delivered then 1 else 0, env)
  {
    hide Midway;
    if Alive(now.clients, client, env) {
      MidwayAlive(before, now, channel, seen, recipients, client, env);
    } else {
      MidwayDead(before, now, channel, seen, recipients, client, env);
    }
  }

  lemma MidwayEnd(before: Board, now: Board, channel: Bytes, recipients: nat, env: Env)
    requires channel in before.channels && Midway(before, now, channel, before.channels[channel], recipients, env)
    ensures channel in now.channels && NoEmptySets(now.subscriptions)
    ensures var dead := Dead(before.clients, before.channels[channel], env);
            && now.clients == before.clients - dead
            && recipients == |Accepted(before.channels[channel] - dead, env)|
            && DropFrom(Hub(before.channels, before.subscriptions), channel, dead) ==
               Hub(if now.channels[channel] == {} then now.channels - {channel} else now.channels, now.subscriptions)
  {
    hide WithoutChannel, Accepted, NoEmptySets, DropFrom;
    var dead := Dead(before.clients, before.channels[channel], env);
    DropFromIs(Hub(before.channels, before.subscriptions), channel, dead);
    assert before.channels[channel := before.channels[channel] - dead] - {channel} == before.channels - {channel};
  }

  /** The channels once a client has left those in `gone`. */
  function Without(channels: map<Bytes, set<ClientId>>, client: ClientId, gone: set<Bytes>): map<Bytes, set<ClientId>> {
    map channel | channel in channels && !(channel in gone && channels[channel] <= {client})
      :: if channel in gone then channels[channel] - {client} else channels[channel]
  }

  /** The subscriptions once the clients in `dead` have left a channel. */
  function WithoutChannel(subscriptions: map<ClientId, set<Bytes>>, channel: Bytes, dead: set<ClientId>): map<ClientId, set<Bytes>> {
    map client | client in subscriptions && !(client in dead && subscriptions[client] <= {channel})
      :: if client in dead then subscriptions[client] - {channel} else subscriptions[client]
  }

  function Dead(clients: map<ClientId, bool>, members: set<ClientId>, env: Env): set<ClientId> {
    set client | client in members && !(client in clients && !env.session(client).Gone?)
  }

  function Accepted(members: set<ClientId>, env: Env): set<ClientId> {
    set client | client in members && env.session(client).Accepting?
  }

  function WithoutOne(subscriptions: map<ClientId, set<Bytes>>, client: ClientId, channel: Bytes): map<ClientId, set<Bytes>> {
    if client in subscriptions then Channels.Store(subscriptions, client, subscriptions[client] - {channel}) else subscriptions
  }

  lemma WithoutNothing(channels: map<Bytes, set<ClientId>>, client: ClientId)
    ensures Without(channels, client, {}) == channels
  {
  }

  lemma WithoutMore(channels: map<Bytes, set<ClientId>>, client: ClientId, gone: set<Bytes>, channel: Bytes)
    requires channel !in gone
    ensures var now := Without(channels, client, gone);
            Without(channels, client, gone + {channel}) ==
            if channel in now then Channels.Store(now, channel, now[channel] - {client}) else now
  {
  }

  lemma ForgetIs(hub: Hub, client: ClientId)
    ensures Forget(hub, client) == Hub(Without(hub.channels, client, ChannelsOf(hub, client)), hub.subscriptions - {client})
  {
  }

  lemma WithoutChannelMore(subscriptions: map<ClientId, set<Bytes>>, channel: Bytes, dead: set<ClientId>, client: ClientId)
    requires client !in dead
    ensures WithoutChannel(subscriptions, channel, dead + {client}) ==
            WithoutOne(WithoutChannel(subscriptions, channel, dead), client, channel)
  {
  }

  lemma DropFromIs(hub: Hub, channel: Bytes, dead: set<ClientId>)
    requires channel in hub.channels && dead <= hub.channels[channel]
    ensures DropFrom(hub, channel, dead) ==
            Hub(Channels.Store(hub.channels, channel, hub.channels[channel] - dead), WithoutChannel(hub.subscriptions, channel, dead))
  {
  }

  lemma DeadMore(clients: map<ClientId, bool>, seen: set<ClientId>, client: ClientId, env: Env)
    ensures Dead(clients, seen + {client}, env) ==
            Dead(clients, seen, env) + if client in clients && !env.session(client).Gone? then {} else {client}
  {
  }

  lemma AcceptedMore(members: set<ClientId>, client: ClientId, env: Env)
    requires client !in members
    ensures |Accepted(members + {client}, env)| == |Accepted(members, env)| + if env.session(client).Accepting? then 1 else 0
  {
    if env.session(client).Accepting? {
      assert Accepted(members + {client}, env) == Accepted(members, env) + {client};
    } else {
      assert Accepted(members + {client}, env) == Accepted(members, env);
    }
  }
}
