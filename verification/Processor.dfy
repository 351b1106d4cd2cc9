/**
 The command processor as a state machine. One worker owns all state, so a run is a sequence of
 atomic steps: take a task, process it, retry the blocked commands, expire the overdue ones.
 */
module Processor {
  import opened Wrappers
  import opened Decimal
  import opened Resp
  import opened Aof
  import opened Responses
  import opened Keyspace
  import opened Commands
  import opened Channels
  import opened ReplicationStream
  import opened Snapshot

  type TaskId = nat

  /** The client id under which replicated commands run. Connections are numbered from 1. */
  const MASTER_CLIENT: ClientId := 0

  /** The client id under which the append-only file is replayed. */
  const AOF_CLIENT: ClientId := U64_LIMIT - 1

  datatype Source = FromClient | FromMaster | FromAof

  /** A submitted command; `id` stands for its promise. */
  datatype Task = Task(id: TaskId, client: ClientId, command: Command, source: Source, bytes: nat)

  /** One fulfilment of a promise. */
  datatype Reply = Reply(id: TaskId, response: Response)

  datatype Transaction = Transaction(commands: seq<Command>, hasError: bool)

  datatype PendingPop = PendingPop(task: Task, key: Bytes, deadline: Option<nat>)

  datatype PendingRead = PendingRead(task: Task, requests: seq<ReadRequest>, deadline: Option<nat>)

  datatype PendingWait = PendingWait(task: Task, required: nat, target: nat, deadline: Option<nat>)

  datatype State = State(
    db: Db,
    file: Option<Bytes>,
    replication: Replication,
    transactions: map<ClientId, Transaction>,
    watched: map<ClientId, map<Bytes, nat>>,
    clients: map<ClientId, bool>,
    openAccess: bool,
    hub: Hub,
    pendingPops: seq<PendingPop>,
    pendingReads: seq<PendingRead>,
    pendingWaits: seq<PendingWait>,
    replies: seq<Reply>)

  /** An append that fails leaves a prefix of its payload in the file. */
  datatype AppendResult = Written | Cut(count: nat)

  /** What the Pub/Sub session of a client does with a frame. */
  datatype SessionStatus = Gone | Refusing | Accepting

  /**
   Everything the worker learns from outside while it handles one task: the monotone clock, what the
   handler of the i-th command sees, how an append to a file of a given length ends, the state of the
   Pub/Sub sessions, the order in which watched keys are visited, and the outcome of the
   administrative commands.
   */
  datatype Env = Env(
    now: nat,
    context: nat -> Context,
    append: nat -> AppendResult,
    session: ClientId -> SessionStatus,
    watchOrder: seq<Bytes>,
    credentials: bool,
    admin: Response,
    openAccess: bool)

  const MISCONF := SimpleError("MISCONF")
  const NOAUTH := SimpleError("NOAUTH")
  const READONLY := SimpleError("READONLY")
  const EXECABORT := SimpleError("EXECABORT")

  const MULTI_COMMAND: Command := ["MULTI"]
  const EXEC_COMMAND: Command := ["EXEC"]
  const GETACK_COMMAND: Command := ["REPLCONF", "GETACK", "*"]

  function InitialState(role: Role, openAccess: bool): State {
    State(EMPTY_DB, None, Replication(role, 0, [], [], map[], map[]), map[], map[], map[], openAccess,
          EMPTY_HUB, [], [], [], [])
  }

  /** Fulfils the promise of a task. */
  function Answer(s: State, task: Task, response: Response): State {
    s.(replies := s.replies + [Reply(task.id, response)])
  }

  /* ---------- Recording a write in the file and in the replication stream ---------- */

  datatype Recorded = Recorded(state: State, ok: bool)

  /** Only a master streams, and only what its own clients write. */
  function Broadcast(s: State, client: ClientId, source: Source, payload: Bytes): State {
    if s.replication.role.Master? && source.FromClient? then
      s.(replication := AppendClientFrame(s.replication, client, payload))
    else s
  }

  /** The file comes first; a failed append keeps the write out of the stream. */
  function Record(s: State, client: ClientId, source: Source, payload: Bytes, env: Env): Recorded {
    if s.file.Some? && !source.FromAof? then
      match env.append(|s.file.value|)
      case Written => Recorded(Broadcast(s.(file := Some(s.file.value + payload)), client, source, payload), true)
      case Cut(count) =>
        var cut := if count < |payload| then count else |payload|;
        Recorded(s.(file := Some(s.file.value + payload[..cut])), false)
    else Recorded(Broadcast(s, client, source, payload), true)
  }

  /* ---------- Transactions ---------- */

  datatype Processed = Processed(state: State, response: Response)

  datatype Watching = Watching(db: Db, watched: map<Bytes, nat>)

  /** WATCH remembers the revision of every key it does not watch yet. */
  function WatchKeys(db: Db, watched: map<Bytes, nat>, keys: seq<Bytes>, now: nat): Watching
    decreases |keys|
  {
    if keys == [] then Watching(db, watched)
    else if keys[0] in watched then WatchKeys(db, watched, keys[1..], now)
    else
      var settled := Settle(db, keys[0], now);
      WatchKeys(settled, watched[keys[0] := Revision(settled, keys[0])], keys[1..], now)
  }

  datatype Checked = Checked(db: Db, changed: bool)

  /** EXEC compares revisions until one differs. */
  function CheckWatched(db: Db, watched: map<Bytes, nat>, order: seq<Bytes>, now: nat): Checked
    decreases |order|
  {
    if order == [] then Checked(db, false)
    else if order[0] !in watched then CheckWatched(db, watched, order[1..], now)
    else
      var settled := Settle(db, order[0], now);
      if Revision(settled, order[0]) != watched[order[0]] then Checked(settled, true)
      else CheckWatched(settled, watched, order[1..], now)
  }

  datatype Ran = Ran(db: Db, responses: seq<Response>, logged: seq<Command>)

  /** The commands of a transaction one after the other; `logged` are the normalised writes. */
  function RunQueue(db: Db, commands: seq<Command>, i: nat, env: Env): Ran
    decreases |commands|
  {
    if commands == [] then Ran(db, [], [])
    else
      var outcome := Dispatch(db, commands[0], env.context(i));
      var rest := RunQueue(outcome.db, commands[1..], i + 1, env);
      var logged := if IsWrite(commands[0]) && Modified(commands[0], outcome.response)
                    then [Normalize(commands[0], outcome.response)] else [];
      Ran(rest.db, [outcome.response] + rest.responses, logged + rest.logged)
  }

  /** A transaction in the log: its writes between MULTI and EXEC. */
  function Bracketed(logged: seq<Command>): seq<Command> {
    [MULTI_COMMAND] + logged + [EXEC_COMMAND]
  }

  function WatchedBy(s: State, client: ClientId): map<Bytes, nat> {
    if client in s.watched then s.watched[client] else map[]
  }

  /** Runs a queue and records its writes as one unit. */
  function RunTransaction(s: State, client: ClientId, commands: seq<Command>, source: Source, env: Env): Processed {
    var ran := RunQueue(s.db, commands, 0, env);
    var after := s.(db := ran.db);
    if ran.logged == [] then Processed(after, ResponseArray(ran.responses))
    else
      var recorded := Record(after, client, source, SerializeAll(Bracketed(ran.logged)), env);
      Processed(recorded.state, if recorded.ok then ResponseArray(ran.responses) else MISCONF)
  }

  function ExecuteTransaction(s: State, client: ClientId, source: Source, env: Env): Processed {
    if client !in s.transactions then Processed(s, ERR)
    else
      var transaction := s.transactions[client];
      var checked := CheckWatched(s.db, WatchedBy(s, client), env.watchOrder, env.now);
      var ended := s.(db := checked.db, transactions := s.transactions - {client}, watched := s.watched - {client});
      if transaction.hasError then Processed(ended, EXECABORT)
      else if checked.changed then Processed(ended, NullArray)
      else if transaction.commands == [] then Processed(ended, EmptyArray)
      else RunTransaction(ended, client, transaction.commands, source, env)
  }

  /* ---------- Pub/Sub and administration ---------- */

  /** lock() on the session of a client: the client is forgotten when the session is gone. */
  function TouchSession(s: State, client: ClientId, env: Env): State {
    if client in s.clients && env.session(client).Gone? then s.(clients := s.clients - {client}) else s
  }

  predicate SessionThere(s: State, client: ClientId, env: Env) {
    client in s.clients && !env.session(client).Gone?
  }

  function QueuedOr(client: ClientId, env: Env): Response {
    if env.session(client).Accepting? then NoResponse else ERR
  }

  function DoSubscribe(s: State, client: ClientId, command: Command, env: Env): Processed {
    if |command| < 2 then Processed(s, ERR)
    else if !SessionThere(s, client, env) then Processed(TouchSession(s, client, env), ERR)
    else Processed(s.(hub := JoinAll(s.hub, client, command[1..])), QueuedOr(client, env))
  }

  function DoUnsubscribe(s: State, client: ClientId, command: Command, env: Env): Processed
    requires command != []
  {
    if !SessionThere(s, client, env) then Processed(TouchSession(s, client, env), ERR)
    else
      var hub := if |command| == 1 then Forget(s.hub, client) else LeaveAll(s.hub, client, command[1..]);
      Processed(s.(hub := hub), QueuedOr(client, env))
  }

  function DoPublish(s: State, command: Command, env: Env): Processed {
    if |command| != 3 then Processed(s, ERR)
    else if command[1] !in s.hub.channels then Processed(s, Integer(0))
    else
      var subscribers := s.hub.channels[command[1]];
      var dead := set client | client in subscribers && !SessionThere(s, client, env);
      var reached := set client | client in subscribers - dead && env.session(client).Accepting?;
      Processed(s.(hub := DropFrom(s.hub, command[1], dead), clients := s.clients - dead), Integer(|reached|))
  }

  function DoAuth(s: State, client: ClientId, env: Env): Processed {
    if client in s.clients && env.credentials then Processed(s.(clients := s.clients[client := true]), OK)
    else Processed(s, ERR)
  }

  /** enqueue_pubsub_response: a subscribed client gets its response through its session. */
  function Deflect(s: State, client: ClientId, env: Env): Processed {
    Processed(TouchSession(s, client, env),
              if SessionThere(s, client, env) && env.session(client).Accepting? then NoResponse else ERR)
  }

  /* ---------- Commands ---------- */

  function DoWatch(s: State, client: ClientId, command: Command, env: Env): Processed {
    if |command| < 2 || client in s.transactions then Processed(s, ERR)
    else
      var watching := WatchKeys(s.db, WatchedBy(s, client), command[1..], env.now);
      Processed(s.(db := watching.db, watched := s.watched[client := watching.watched]), OK)
  }

  function DoMulti(s: State, client: ClientId): Processed {
    if client in s.transactions then Processed(s, ERR)
    else Processed(s.(transactions := s.transactions[client := Transaction([], false)]), OK)
  }

  function DoDiscard(s: State, client: ClientId): Processed {
    if client !in s.transactions then Processed(s, ERR)
    else Processed(s.(transactions := s.transactions - {client}, watched := s.watched - {client}), OK)
  }

  /** A command of the table: queued inside a transaction, run at once outside. */
  function QueueOrRun(s: State, client: ClientId, command: Command, env: Env): Processed {
    if client in s.transactions then
      var transaction := s.transactions[client];
      var longer := transaction.(commands := transaction.commands + [command]);
      Processed(s.(transactions := s.transactions[client := longer]), SimpleString("QUEUED"))
    else
      var outcome := Dispatch(s.db, command, env.context(0));
      Processed(s.(db := outcome.db), outcome.response)
  }

  /** Commands that are handled even inside a transaction. */
  predicate ImmediateVerb(verb: Verb) {
    verb.Subscribe? || verb.Unsubscribe? || verb.Publish? || verb.Auth? || verb.Acl? || verb.Info? || verb.Config?
    || verb.Replconf? || verb.Psync? || verb.Watch? || verb.Unwatch? || verb.Multi? || verb.Exec? || verb.Discard?
  }

  function ProcessAdministrative(s: State, client: ClientId, command: Command, env: Env): Processed {
    var verb := VerbOf(command);
    if verb.Unwatch? then
      if |command| == 1 then Processed(s.(watched := s.watched - {client}), OK) else Processed(s, ERR)
    else if verb.Replconf? then Processed(s, if |command| == 3 then OK else ERR)
    else if verb.Psync? then Processed(s, if |command| == 3 then SimpleString("FULLRESYNC") else ERR)
    else if verb.Acl? then Processed(s.(openAccess := env.openAccess), env.admin)
    else Processed(s, env.admin)
  }

  function ProcessImmediate(s: State, client: ClientId, command: Command, source: Source, env: Env): Processed
    requires command != []
  {
    var verb := VerbOf(command);
    if verb.Exec? then ExecuteTransaction(s, client, source, env)
    else if verb.Subscribe? then DoSubscribe(s, client, command, env)
    else if verb.Unsubscribe? then DoUnsubscribe(s, client, command, env)
    else if verb.Publish? then DoPublish(s, command, env)
    else if verb.Watch? then DoWatch(s, client, command, env)
    else if verb.Multi? then DoMulti(s, client)
    else if verb.Discard? then DoDiscard(s, client)
    else if verb.Auth? then DoAuth(s, client, env)
    else ProcessAdministrative(s, client, command, env)
  }

  function ProcessCommand(s: State, client: ClientId, command: Command, source: Source, env: Env): Processed {
    if command == [] then Processed(s, ERR)
    else if ImmediateVerb(VerbOf(command)) then ProcessImmediate(s, client, command, source, env)
    else if VerbOf(command).Ping? && client in s.hub.subscriptions then
      Processed(s, if |command| > 2 then ERR else Array(["pong", if |command| == 2 then command[1] else []]))
    else QueueOrRun(s, client, command, env)
  }

  /* ---------- Blocking commands ---------- */

  datatype Attempt = Attempt(state: State, served: bool)

  /** Tries to serve a blocking pop: pop, record, fulfil. */
  function AttemptPop(s: State, task: Task, key: Bytes, env: Env): Attempt {
    var settled := Settle(s.db, key, env.now);
    var popped := PopOne(Look(settled, key));
    var after := s.(db := Apply(settled, key, popped.change));
    match popped.outcome
    case Element(value) =>
      var recorded := Record(after, task.client, task.source, SerializeCommand(["LPOP", key]), env);
      Attempt(Answer(recorded.state, task, if recorded.ok then Array([key, value]) else MISCONF), true)
    case NotAList => Attempt(Answer(after, task, WRONGTYPE), true)
    case NothingThere => Attempt(after, false)
  }

  function Deadline(now: nat, timeout: Timeout): Option<nat> {
    match timeout
    case Forever => None
    case Within(milliseconds) => Some(now + milliseconds)
  }

  function ProcessBlpop(s: State, task: Task, env: Env): State {
    if |task.command| != 3 || env.context(0).timeout(task.command[2]).None? then Answer(s, task, ERR)
    else
      var key := task.command[1];
      var attempt := AttemptPop(s, task, key, env);
      if attempt.served then attempt.state
      else
        var deadline := Deadline(env.now, env.context(0).timeout(task.command[2]).value);
        attempt.state.(pendingPops := attempt.state.pendingPops + [PendingPop(task, key, deadline)])
  }

  function ReadDeadline(mode: ReadMode, now: nat): Option<nat> {
    match mode
    case BlockFor(milliseconds) => Some(now + milliseconds)
    case _ => None
  }

  /** Answers a read that has something to say, blocks one that has not. */
  function AnswerOrBlock(s: State, task: Task, mode: ReadMode, reading: Reading, now: nat): State {
    if reading.results.None? then Answer(s, task, WRONGTYPE)
    else if reading.results.value != [] then Answer(s, task, XreadResponse(reading.results.value))
    else if mode.Immediate? then Answer(s, task, NullArray)
    else s.(pendingReads := s.pendingReads + [PendingRead(task, reading.requests, ReadDeadline(mode, now))])
  }

  function ProcessXread(s: State, task: Task, env: Env): State {
    match ParseXread(task.command)
    case None => Answer(s, task, ERR)
    case Some(read) =>
      var reading := ReadStreams(s.db, read.requests, env.now);
      AnswerOrBlock(s.(db := reading.db), task, read.mode, reading, env.now)
  }

  datatype WaitRequest = WaitRequest(required: nat, timeout: Timeout)

  function ParseWait(command: Command): Option<WaitRequest> {
    if |command| != 3 then None
    else match (ParseU64(command[1]), ParseU64(command[2]))
      case (Some(required), Some(timeout)) =>
        if timeout >= I64_LIMIT then None
        else Some(WaitRequest(required, if timeout == 0 then Forever else Within(timeout)))
      case _ => None
  }

  function WriteOffset(r: Replication, client: ClientId): nat {
    if client in r.writeOffsets then r.writeOffsets[client] else 0
  }

  /** Asks the replicas for their offsets and waits. */
  function AskAndWait(s: State, task: Task, request: WaitRequest, target: nat, now: nat): State {
    s.(replication := AppendFrame(s.replication, SerializeCommand(GETACK_COMMAND)),
       pendingWaits := s.pendingWaits + [PendingWait(task, request.required, target, Deadline(now, request.timeout))])
  }

  function ProcessWait(s: State, task: Task, env: Env): State {
    if !s.replication.role.Master? || ParseWait(task.command).None? then Answer(s, task, ERR)
    else
      var request := ParseWait(task.command).value;
      var target := WriteOffset(s.replication, task.client);
      var count := CountReached(s.replication.sessions, s.replication.acknowledged, target);
      var pruned := s.(replication := Prune(s.replication));
      if target == 0 || count >= request.required then Answer(pruned, task, Integer(count))
      else AskAndWait(pruned, task, request, target, env.now)
  }

  /* ---------- One command task ---------- */

  predicate Authenticated(s: State, client: ClientId) {
    client in s.clients && s.clients[client]
  }

  predicate AllowedWhileSubscribed(verb: Verb) {
    verb.Subscribe? || verb.Unsubscribe? || verb.Ping?
  }

  /** A refusal, which a subscribed client receives through its session. */
  function Refuse(s: State, task: Task, response: Response, env: Env): State {
    if task.client in s.hub.subscriptions then
      var deflected := Deflect(s, task.client, env);
      Answer(deflected.state, task, deflected.response)
    else Answer(s, task, response)
  }

  function RefuseWrite(s: State, task: Task): State {
    var flagged := if task.client in s.transactions
                   then s.(transactions := s.transactions[task.client := s.transactions[task.client].(hasError := true)])
                   else s;
    Answer(flagged, task, READONLY)
  }

  /** What is left to do once a command has run: advance a replica's offset, deliver the response. */
  function Conclude(s: State, task: Task, succeeded: bool, response: Response, env: Env): State {
    var advanced := if task.source.FromMaster? && succeeded
                    then s.(replication := s.replication.(offset := s.replication.offset + task.bytes)) else s;
    if task.source.FromClient? && task.client in s.hub.subscriptions && !response.NoResponse? then
      var deflected := Deflect(advanced, task.client, env);
      Answer(deflected.state, task, deflected.response)
    else Answer(advanced, task, response)
  }

  /** Runs a command and records it when it is a write that changed something. */
  function ProcessDirect(s: State, task: Task, env: Env): State {
    var write := task.client !in s.transactions && IsWrite(task.command);
    var processed := ProcessCommand(s, task.client, task.command, task.source, env);
    var succeeded := !processed.response.SimpleError?;
    if write && Modified(task.command, processed.response) then
      var payload := SerializeCommand(Normalize(task.command, processed.response));
      var recorded := Record(processed.state, task.client, task.source, payload, env);
      Conclude(recorded.state, task, succeeded, if recorded.ok then processed.response else MISCONF, env)
    else Conclude(processed.state, task, succeeded, processed.response, env)
  }

  /** A command that passed all gates. */
  function ProcessAdmitted(s: State, task: Task, env: Env): State {
    var verb := VerbOf(task.command);
    if task.client in s.transactions then ProcessDirect(s, task, env)
    else if verb.Blpop? then ProcessBlpop(s, task, env)
    else if verb.Xread? then ProcessXread(s, task, env)
    else if verb.Wait? then ProcessWait(s, task, env)
    else ProcessDirect(s, task, env)
  }

  function ProcessTask(s: State, task: Task, env: Env): State {
    var verb := VerbOf(task.command);
    if task.source.FromClient? && !verb.Auth? && !Authenticated(s, task.client) then Refuse(s, task, NOAUTH, env)
    else if task.source.FromClient? && task.client in s.hub.subscriptions && !AllowedWhileSubscribed(verb) then
      Refuse(s, task, ERR, env)
    else if s.replication.role.Replica? && task.source.FromClient? && IsWrite(task.command) then RefuseWrite(s, task)
    else ProcessAdmitted(s, task, env)
  }

  /** A command that passes the gates and is not queued in a transaction. */
  predicate Admitted(s: State, task: Task) {
    && (task.source.FromClient? ==> Authenticated(s, task.client) && task.client !in s.hub.subscriptions)
    && !(s.replication.role.Replica? && task.source.FromClient? && IsWrite(task.command))
    && task.client !in s.transactions
  }

  /* ---------- The other tasks ---------- */

  datatype ProcessorTask =
    | CommandTask(task: Task)
    | RegisterReplica(client: ClientId)
    | InstallReplicationState(offset: nat)
    | GetReplicationOffset
    | AcknowledgeReplica(client: ClientId, offset: nat)
    | LoadRdb(entries: seq<StringEntry>, unixNow: int)
    | InitializeAof(contents: Bytes, commands: seq<Command>)
    | RegisterClient(client: ClientId)
    | UnregisterClient(client: ClientId)

  /** Entries that have expired by now are skipped; others get the rest of their time. */
  function LoadEntries(db: Db, entries: seq<StringEntry>, unixNow: int, now: nat): Db
    decreases |entries|
  {
    if entries == [] then db
    else
      var entry := entries[0];
      if entry.expiresAtUnix.Some? && (unixNow < 0 || entry.expiresAtUnix.value <= unixNow) then
        LoadEntries(db, entries[1..], unixNow, now)
      else
        var left := if entry.expiresAtUnix.None? then None
                    else
                      var remaining := entry.expiresAtUnix.value - unixNow;
                      Some(now + if remaining < I64_LIMIT then remaining else I64_LIMIT - 1);
        LoadEntries(Apply(db, entry.key, Put(Entry(Text(entry.value), left))), entries[1..], unixNow, now)
  }

  datatype Replayed = Replayed(state: State, ok: bool)

  /** Runs the commands of the file until one of them fails. */
  function ReplayCommands(s: State, commands: seq<Command>, env: Env): Replayed
    decreases |commands|
  {
    if commands == [] then Replayed(s, true)
    else
      var processed := ProcessCommand(s, AOF_CLIENT, commands[0], FromAof, env);
      if processed.response.SimpleError? then Replayed(processed.state, false)
      else ReplayCommands(processed.state, commands[1..], env)
  }

  /** The file is opened for appending only if all of it was replayed. */
  function ProcessAof(s: State, contents: Bytes, commands: seq<Command>, env: Env): State {
    var replayed := ReplayCommands(s, commands, env);
    var ended := replayed.state.(transactions := replayed.state.transactions - {AOF_CLIENT},
                                 watched := replayed.state.watched - {AOF_CLIENT});
    if replayed.ok && AOF_CLIENT !in replayed.state.transactions then ended.(file := Some(contents)) else ended
  }

  /* Cancelling one queue leaves the other two alone. */

  lemma {:induction false} CancelPopsOthers(s: State, queue: seq<PendingPop>, kept: seq<PendingPop>, client: ClientId)
    ensures var t := CancelPops(s, queue, kept, client);
            t.pendingReads == s.pendingReads && t.pendingWaits == s.pendingWaits
    decreases |queue|
  {
    if queue != [] {
      CancelPopsOthers(s, queue[1..], kept + [queue[0]], client);
      CancelPopsOthers(Answer(s, queue[0].task, NoResponse), queue[1..], kept, client);
    }
  }

  lemma {:induction false} CancelReadsOthers(s: State, queue: seq<PendingRead>, kept: seq<PendingRead>, client: ClientId)
    ensures var t := CancelReads(s, queue, kept, client);
            t.pendingPops == s.pendingPops && t.pendingWaits == s.pendingWaits
    decreases |queue|
  {
    if queue != [] {
      CancelReadsOthers(s, queue[1..], kept + [queue[0]], client);
      CancelReadsOthers(Answer(s, queue[0].task, NoResponse), queue[1..], kept, client);
    }
  }

  function ProcessUnregister(s: State, client: ClientId): State {
    var cancelled := CancelWaits(CancelReads(CancelPops(s, s.pendingPops, [], client), s.pendingReads, [], client), s.pendingWaits, [], client);
    cancelled.(hub := Forget(cancelled.hub, client),
               clients := cancelled.clients - {client},
               transactions := cancelled.transactions - {client},
               watched := cancelled.watched - {client},
               replication := Unregister(cancelled.replication, client))
  }

  function Process(s: State, t: ProcessorTask, env: Env): State {
    match t
    case CommandTask(task) => ProcessTask(s, task, env)
    case RegisterReplica(client) => s.(replication := Register(s.replication, client))
    case InstallReplicationState(offset) => s.(replication := s.replication.(offset := offset))
    case GetReplicationOffset => s
    case AcknowledgeReplica(client, offset) => s.(replication := Acknowledge(s.replication, client, offset))
    case LoadRdb(entries, unixNow) => s.(db := LoadEntries(s.db, entries, unixNow, env.now))
    case InitializeAof(contents, commands) => ProcessAof(s, contents, commands, env)
    case RegisterClient(client) => s.(clients := s.clients[client := s.openAccess])
    case UnregisterClient(client) => ProcessUnregister(s, client)
  }

  /* ---------- Cancelling, retrying and expiring ---------- */

  /* Each loop walks its queue once; `kept` are the entries it has passed by. */

  function CancelPops(s: State, queue: seq<PendingPop>, kept: seq<PendingPop>, client: ClientId): State
    decreases |queue|
  {
    if queue == [] then s.(pendingPops := kept)
    else if queue[0].task.client != client then CancelPops(s, queue[1..], kept + [queue[0]], client)
    else CancelPops(Answer(s, queue[0].task, NoResponse), queue[1..], kept, client)
  }

  function CancelReads(s: State, queue: seq<PendingRead>, kept: seq<PendingRead>, client: ClientId): State
    decreases |queue|
  {
    if queue == [] then s.(pendingReads := kept)
    else if queue[0].task.client != client then CancelReads(s, queue[1..], kept + [queue[0]], client)
    else CancelReads(Answer(s, queue[0].task, NoResponse), queue[1..], kept, client)
  }

  function CancelWaits(s: State, queue: seq<PendingWait>, kept: seq<PendingWait>, client: ClientId): State
    decreases |queue|
  {
    if queue == [] then s.(pendingWaits := kept)
    else if queue[0].task.client != client then CancelWaits(s, queue[1..], kept + [queue[0]], client)
    else CancelWaits(Answer(s, queue[0].task, NoResponse), queue[1..], kept, client)
  }

  function RetryPops(s: State, queue: seq<PendingPop>, kept: seq<PendingPop>, env: Env): State
    decreases |queue|
  {
    if queue == [] then s.(pendingPops := kept)
    else
      var attempt := AttemptPop(s, queue[0].task, queue[0].key, env);
      RetryPops(attempt.state, queue[1..], if attempt.served then kept else kept + [queue[0]], env)
  }

  function RetryReads(s: State, queue: seq<PendingRead>, kept: seq<PendingRead>, env: Env): State
    decreases |queue|
  {
    if queue == [] then s.(pendingReads := kept)
    else
      var reading := ReadStreams(s.db, queue[0].requests, env.now);
      var after := s.(db := reading.db);
      if reading.results.None? then RetryReads(Answer(after, queue[0].task, WRONGTYPE), queue[1..], kept, env)
      else if reading.results.value == [] then
        RetryReads(after, queue[1..], kept + [queue[0].(requests := reading.requests)], env)
      else RetryReads(Answer(after, queue[0].task, XreadResponse(reading.results.value)), queue[1..], kept, env)
  }

  function RetryWaits(s: State, queue: seq<PendingWait>, kept: seq<PendingWait>): State
    decreases |queue|
  {
    if queue == [] then s.(pendingWaits := kept)
    else
      var count := CountReached(s.replication.sessions, s.replication.acknowledged, queue[0].target);
      var pruned := s.(replication := Prune(s.replication));
      if count < queue[0].required then RetryWaits(pruned, queue[1..], kept + [queue[0]])
      else RetryWaits(Answer(pruned, queue[0].task, Integer(count)), queue[1..], kept)
  }

  predicate Overdue(deadline: Option<nat>, now: nat) {
    deadline.Some? && now >= deadline.value
  }

  function ExpirePops(s: State, queue: seq<PendingPop>, kept: seq<PendingPop>, now: nat): State
    decreases |queue|
  {
    if queue == [] then s.(pendingPops := kept)
    else if !Overdue(queue[0].deadline, now) then ExpirePops(s, queue[1..], kept + [queue[0]], now)
    else ExpirePops(Answer(s, queue[0].task, NullArray), queue[1..], kept, now)
  }

  function ExpireReads(s: State, queue: seq<PendingRead>, kept: seq<PendingRead>, now: nat): State
    decreases |queue|
  {
    if queue == [] then s.(pendingReads := kept)
    else if !Overdue(queue[0].deadline, now) then ExpireReads(s, queue[1..], kept + [queue[0]], now)
    else ExpireReads(Answer(s, queue[0].task, NullArray), queue[1..], kept, now)
  }

  function ExpireWaits(s: State, queue: seq<PendingWait>, kept: seq<PendingWait>, now: nat): State
    decreases |queue|
  {
    if queue == [] then s.(pendingWaits := kept)
    else if !Overdue(queue[0].deadline, now) then ExpireWaits(s, queue[1..], kept + [queue[0]], now)
    else
      var count := CountReached(s.replication.sessions, s.replication.acknowledged, queue[0].target);
      var pruned := s.(replication := Prune(s.replication));
      ExpireWaits(Answer(pruned, queue[0].task, Integer(count)), queue[1..], kept, now)
  }

  function RetryAll(s: State, env: Env): State {
    var a := RetryPops(s, s.pendingPops, [], env);
    var b := RetryReads(a, a.pendingReads, [], env);
    RetryWaits(b, b.pendingWaits, [])
  }

  function ExpireAll(s: State, now: nat): State {
    var a := ExpirePops(s, s.pendingPops, [], now);
    var b := ExpireReads(a, a.pendingReads, [], now);
    ExpireWaits(b, b.pendingWaits, [], now)
  }

  /** One turn of the worker with a task. */
  function Step(s: State, t: ProcessorTask, env: Env): State {
    ExpireAll(RetryAll(Process(s, t, env), env), env.now)
  }

  /** Everything that can happen to the processor. */
  datatype Event =
    | Work(t: ProcessorTask, env: Env)                // the worker takes a task
    | Tick(now: nat)                                  // the worker wakes up for a deadline
    | Connection(index: nat, step: SessionStep)       // a replica's connection thread moves

  function Next(s: State, event: Event): State {
    match event
    case Work(t, env) => Step(s, t, env)
    case Tick(now) => ExpireAll(s, now)
    case Connection(index, step) => s.(replication := StepSessions(s.replication, index, step))
  }

  function Run(s: State, events: seq<Event>): State
    decreases |events|
  {
    if events == [] then s else Run(Next(s, events[0]), events[1..])
  }

  lemma RunFirst(s: State, event: Event, events: seq<Event>)
    ensures Run(s, [event] + events) == Run(Next(s, event), events)
  {
    hide Next;
    assert ([event] + events)[1..] == events;
  }

  lemma RunShifted(s: State, events: seq<Event>, k: nat)
    requires k + 1 <= |events|
    ensures Run(s, events[..k + 1]) == Run(Next(s, events[0]), events[1..][..k])
  {
    hide Next;
    assert events[..k + 1][1..] == events[1..][..k];
  }

  lemma {:induction false} RunAppend(s: State, first: seq<Event>, second: seq<Event>)
    ensures Run(s, first + second) == Run(Run(s, first), second)
    decreases |first|
  {
    hide Next;
    if first == [] {
      assert first + second == second;
    } else {
      assert (first + second)[1..] == first[1..] + second && (first + second)[0] == first[0];
      RunAppend(Next(s, first[0]), first[1..], second);
    }
  }

  /** A run in three parts: up to an event, the event, and the rest. */
  lemma RunParts(s: State, events: seq<Event>, i: nat)
    requires i < |events|
    ensures Run(s, events[..i + 1]) == Next(Run(s, events[..i]), events[i])
    ensures Run(s, events) == Run(Run(s, events[..i + 1]), events[i + 1..])
  {
    hide Next, Run;
    assert events[..i + 1] == events[..i] + ([events[i]] + []);
    assert events == events[..i + 1] + events[i + 1..];
    RunAppend(s, events[..i], [events[i]] + []);
    RunFirst(Run(s, events[..i]), events[i], []);
    RunAppend(s, events[..i + 1], events[i + 1..]);
    RunNothing(Next(Run(s, events[..i]), events[i]));
  }

  lemma RunNothing(s: State)
    ensures Run(s, []) == s
  {
  }
}
