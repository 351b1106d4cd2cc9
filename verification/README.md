# A Dafny model of a Redis-like server

The server keeps all mutable state in one command processor. A single worker takes a task, processes it, retries the
blocked commands and expires the overdue ones, so a run is a sequence of atomic steps. Around the worker stand the
connection threads that frame bytes into commands, the senders that stream frames to replicas, the loop with which a
replica consumes that stream, and the hand-over of Pub/Sub frames.

The project models these parts twice where the source changes state in place. The state machine (`Processor.dfy`,
`Keyspace.dfy`, `Commands.dfy`, `Channels.dfy`, `ReplicationStream.dfy`) says what each step does to a value of type
`State`; the theorems are about it. The objects (`Store.dfy`, `Handlers.dfy`, `StreamReplies.dfy`,
`CommandProcessing.dfy`, `ReplicaSessions.dfy`, `RdbReader.dfy`, and the classes in `Framing.dfy`, `Aof.dfy` and
`Wakeup.dfy`) have the source's fields and loops, erase in place where the source does, and are proved to do to their
fields exactly what the state machine says. `CommandProcessing.CommandProcessor.HandleAll` is the top of that chain: an
object that handles a list of events ends in the state `Run` gives.

What lies outside the worker is a parameter. `Env` carries the clocks, the outcome of each append to the file, the state
of the Pub/Sub sessions, the order in which hash tables are visited and the answers of the administrative commands. A
theorem without a condition on `Env` holds whatever these are.

## The theorems

**The log means the live state** (`LogMeaning.dfy`, `Replay.dfy`, `Recovery.dfy`, `TornAppends.dfy`,
`ExpiryReplay.dfy`). `Machine` and `Interpret` give a log a meaning without mentioning the processor: writes one after
the other, some of them grouped. In every run of tasks without expiring SETs, with appends that succeed and clocks that
are set, the file, the replication stream and the live keys and values agree after every event, direct writes,
transactions, immediate and delayed pops included (`RunFaithful`). Starting again from the file therefore succeeds and
restores exactly these values (`RestartRestoresValues`). The side conditions are where they must be. A start from a file
that ends with an expiring SET gives the key the rest of its time anew, which is what the live key had if and only if
the file is replayed at the time of the original (`ExpiringSetReplayed`). An append of a unit, one write or a whole
transaction, may fail after any number of bytes: the file means the old values, the new values, the old values under an
open transaction, or cannot be read, depending on exactly where the cut falls (`TornAppend`), and no start from it ever
has half a transaction (`TornRestart`).

**A replica follows its master** (`Follower.dfy`, `StreamUnits.dfy`, `Stations.dfy`, `Cluster.dfy`,
`ReplicaTheorems.dfy`, `WriteOffsets.dfy`). Two complete processors, the frames handed out, the bytes on the wire, the replica's input
buffer and the acknowledgements under way make one system that moves in any order. `MoveLinked` shows one invariant for
every move. From it: the replica's values are those of the last frame boundary it has passed, never of half a
transaction (`ReplicaAtFrameBoundary`), and every boundary is a database that the master itself passed through, if need
be in the middle of a turn (`ReplicaHoldsMasterState`); when it has applied what the master had sent by some moment it
has the master's values of that moment (`ReplicaReflectsMaster`); its own clients change nothing (`OwnEventSteady`); its
loop never meets a malformed command or an error (`ConsumingNeverFails`) and, once the bytes have arrived, brings it
level with the master (`LoopCatchesUp`). WAIT is sound: it counts exactly the live sessions whose acknowledgement is at
its target (`CountIsExact`), and each replica among them has applied every frame up to it (`WaitSound`). It progresses
(`WaitAsks`, `WaitProgresses`): each request is answered by the report of its own number (`RequestReport`), whatever
else is under way, and then the replica is among those counted. Over every run the target is the end of the client's
latest frame (`WriteOffsetIsLatest`), and what counts for a replica is the greatest offset it has reported
(`AcknowledgedIsGreatest`).

**Replication accounting.** On a master, in every reachable state, the offset is the size of the backlog, every frame
carries its prefix sum, every open session has seen exactly the backlog from its start on, and every client's write
offset is the end of a frame (`RunInvariant`).

**Blocking commands** (`Blocking.dfy`, `Growth.dfy`, `Arrival.dfy`, `ReadPositions.dfy`, `Outcomes.dfy`,
`PopOutcomes.dfy`, `ReadOutcomes.dfy`, `WaitOutcomes.dfy`, `BlockedRuns.dfy`, `ReadBack.dfy`, `Requests.dfy`,
`BlockingCommands.dfy`, `Timeouts.dfy`). Between two turns no blocked pop, read or WAIT could be served (`RunQuiet`) and
none is overdue (`TurnLeavesNothingOverdue`). BLPOP is first come, first served over whole runs: of two clients that
wait for a key the later is served only after the earlier has been answered (`FirstComeFirstServed`), and so is a client
that arrives while another waits (`NewcomerWaitsItsTurn`); one retry hands out the elements in order (`ServedInOrder`).
Whatever a BLPOP, XREAD or WAIT is answered with, in its own turn or after blocking through any run, `BlockingAnswered`
says by which event and why. A timeout is reported only by an event whose clock has reached the deadline, never without
one, and only while the key does not exist (`BlpopTimesOutInTime`) or nothing is due (`ReadsWhatWasAsked`) at the end of
that event. The entries of an XREAD are exactly those above the requested positions in the database at the end of the
turn that answers; under `$` that is above all that the stream held when the command was taken, a missing stream
included (`DollarReadsOnlyNew`). They are what a client reads from the reply with a reader defined apart from the
builders: keys, identifiers, names and values, each in its place (`XreadReadsBack`, `ReadsOnlyOne`); and what the server
takes the command to ask for is what a client means by writing it (`XreadRoundTrip`, `WaitRoundTrip`). The number a WAIT
is answered with is that of the replicas that have reached what its client had written when it was taken: enough of
them, or its time is up (`WaitAnsweredTruly`). None waits longer than it asked for: once the worker has taken a turn or
woken up at the end of that time, the command has been answered (`AnsweredInTime`).

**WATCH and EXEC** (`Watch.dfy`, `WatchRuns.dfy`, `Writes.dfy`, `Aborts.dfy`). Over every run in which the client does
not end its watches, EXEC either answers with the null array or finds under each watched key what the client saw when it
watched it (`ExecSeesWhatWasWatched`). `EventWrites` lists the keys that an event writes: successful writes of direct
commands and of transactions, served pops, entries of a dump, replayed writes. An event renews the revision of a key it
writes and of no other key whose entry has not expired (`NextTraced`). Hence, over every run with any number of WATCHes,
EXEC is aborted exactly when some key was written since the client first watched it, or what the client saw under it
then has expired (`ExecAbortsExactly`), and an abort names the key, its WATCH and the event that wrote it
(`AbortHasCause`). EXEC, DISCARD and UNWATCH leave their client without watches (`WatchesEnd`).

**Transactions** (`Transactions.dfy`). Over every run that leaves it open, a transaction queues exactly what its client
sent, in order, and is marked exactly when a write of the client was refused (`RunGrown`). An EXEC that is not aborted
and whose writes are recorded answers with as many responses as commands were sent, the k-th being that of the k-th
command on the database that the first k have left (`TransactionAnswered`).

**Commands** (`CommandLaws.dfy`, `TextRuns.dfy`, `Loading.dfy`). One law for each command that works on a key says, in terms
of what is visible under its key, which elements, entries or numbers it leaves where and what it answers: for RPUSH every
old and new element at its index, for XADD every name and value and the chosen identifier. A GET answers with what a SET
stored, through every run in which nobody writes the key, until the time of the SET has passed and then no more
(`GetReturnsWhatWasSet`). A dump leaves under each key its last entry that has not expired, with the rest of its time
(`LastValidWins`).

**Access** (`Access.dfy`). A client that has not been let in, by the right password or by connecting while none is asked
for, stays outside over every run (`StaysOutside`), and its commands change nothing (`StrangerChangesNothing`).

**Exactly-once replies** (`Ledger.dfy`, `Departure.dfy`). Every submitted command has been answered once or sits in
exactly one queue (`ExactlyOnce`); a client that was unregistered never has anything pending again (`StaysDeparted`).

**Database** (`Keyspace.dfy`, `Effects.dfy`, `Streams.dfy`, `Lists.dfy`). Lazy expiry gives the responses of eager
expiry over every run (`LazyIsEager`); stream identifiers stay strictly increasing and above 0-0 under 64-bit
wrap-around, and an automatic one is the least that is possible, refused only when there is none (`AutomaticIdIsLeast`,
`AutomaticSequenceIsLeast`); binary search returns what a plain filter returns, list commands do what independent
definitions say, and a range whose bounds cross is exactly the case the source leaves undefined (`RangeCrosses`).

**Codecs** (`Resp.dfy`, `Framing.dfy`, `Aof.dfy`, `Responses.dfy`, `Rdb.dfy`). The command parser accepts exactly a
grammar that is defined apart from it; serialising and parsing undo each other; chunking does not matter; responses are
uniquely decodable; the dump decoder accepts exactly the valid dumps and returns what they mean.

**Pub/Sub** (`Channels.dfy`, `Subscriptions.dfy`, `Wakeup.dfy`). A subscription lasts over every run until its client
ends it or goes, and every PUBLISH in between counts the client if and only if its session takes the message
(`SubscriberIsReached`); the number PUBLISH reports is that of the clients that hold the channel and take it
(`PublishLaw`). The two indexes mirror each other in every reachable state and the reported counts are true, those of
UNSUBSCRIBE without arguments included; under every interleaving of the hand-over no wake-up is missed and nothing is
lost, doubled or reordered.

Where the code and its comments or the Redis documentation differ, the model follows the code: command names are matched
in upper case only, INCR on the largest 64-bit number wraps, a full resynchronisation transfers an empty dump, and a
failed append leaves the database changed although the client is told so.

## Model

| member | source | states |
|---|---|---|
| `Resp.ParseCommandLoop` | src/resp.cpp:111-189 | the loop that moves a position through the input returns what the recursive definition of the parser returns: a command with the bytes it used, incomplete, or an error |
| `Resp.ReadLineAt` | src/resp.cpp:13-24 | the search returns the text up to the first CRLF from the position on, and the position behind it, or nothing |
| `Resp.SerializeCommandLoop` | src/resp.cpp:191-203 | the loop builds the array of bulk strings |
| `Resp.ParseAccepts` | src/resp.cpp:111-189 | every input that begins with a spelling of a command, leading zeros in lengths included, parses to it and uses exactly that spelling |
| `Resp.ParseSound` | src/resp.cpp:111-189 | whatever the parser accepts is a spelling of the command it returns: with `ParseAccepts`, the parser accepts exactly the grammar |
| `Resp.RoundTrip` | src/resp.cpp:191-203 | any command, with any bytes in its arguments and anything behind it, parses back to itself and its own length |
| `Resp.ParseStable` | src/resp.cpp:111-189 | bytes that follow do not change a parse that has completed or failed |
| `Resp.ProperPrefixIncomplete` | src/resp.cpp:111-189 | every proper prefix of a serialised command is incomplete |
| `Framing.ConnectionThread.ReceiveChunk` | src/server.cpp:795-861 | the append, parse and erase loop does to buffer, submitted commands and stop condition what draining the whole buffer does |
| `Framing.DrainAppend` | src/server.cpp:795-861 | draining a longer buffer first does what draining its prefix does, and a stop is final |
| `Framing.ChunkingIndependence` | src/server.cpp:795-861 | two ways of cutting the same bytes into receives submit the same commands, stop at the same place and keep the same rest |
| `Aof.ReadCommands` | src/aof.cpp:238-266 | the loop over the position returns all commands of the file, or none when one of them is cut or malformed |
| `Aof.DecodeLogSerialized` | src/aof.cpp:238-266 | a concatenation of serialised commands decodes to the list |
| `Aof.DecodeLogAppend` | src/aof.cpp:238-266 | a file decodes piece by piece once its first piece decodes |
| `Aof.AppendOnlyFile.Append` | src/aof.cpp:279-299 | the write loop appends what the calls report to have written, a prefix of the payload, and succeeds if and only if that is all of it and the sync succeeds |
| `Responses.AppendResponse` | src/resp.cpp:39-108 | the recursive serialiser with its loops builds the response's bytes |
| `Responses.DecodeSerialized` | src/resp.cpp:205-211 | a RESP2 decoder recovers every well-formed response from its bytes followed by anything, up to the spellings of the empty array and of arrays of bulk strings |
| `Responses.SerializationInjective` | src/resp.cpp:205-211 | responses with the same bytes are the same up to those spellings |
| `Responses.SimpleTextDecodes` | src/resp.cpp:49-59 | a simple string, and a simple error, comes back whole if and only if it contains no CRLF |
| `Streams.PrintedIdIsExplicit` | src/rstream.cpp:152-186 | a printed identifier parses as an explicit request for itself |
| `Streams.PrintedIdIsBound` | src/rstream.cpp:54-148 | a printed identifier parses as itself where a read position or a range bound is expected |
| `Requests.IdRequestRoundTrip` | src/rstream.cpp:152-186 | the three ways of asking for an identifier, `*`, a time with `-*` and a full one, are read back as they were meant |
| `Requests.TimeAsBound` | src/rstream.cpp:54-148 | a bound without a sequence is the first identifier of that time, or the last one where a range ends |
| `Streams.AppendKeepsOrder` | src/database.cpp:303-359 | an accepted identifier keeps the stream strictly increasing, in every mode, whatever the clock reads and although the sequence wraps at 64 bits |
| `Streams.ChosenIdPositive` | src/database.cpp:303-353 | an accepted identifier is above 0-0 if and only if it is not the automatic one of an empty stream at clock 0 |
| `Streams.ExhaustedSequenceRefused` | src/database.cpp:303-353 | when the last sequence is the largest 64-bit number, the wrapped successor is refused |
| `Streams.AutomaticIdIsLeast` | src/database.cpp:328-353 | an automatic identifier is accepted unless the clock is not past the last entry and its sequence is exhausted, and is then the least one above the last entry and not before the clock |
| `Streams.AutomaticSequenceIsLeast` | src/database.cpp:309-353 | an automatic sequence is accepted unless the time is before the last entry, or the same and the sequence exhausted, and then gives the least identifier of that time above the last entry and 0-0 |
| `Streams.ExplicitIdIsTaken` | src/database.cpp:302-307 | an explicit identifier is taken as it is, if and only if it is above the last entry |
| `Streams.LowerBound` | src/database.cpp:378-379 | binary search finds the number of identifiers below the bound |
| `Streams.UpperBound` | src/database.cpp:381-382 | binary search finds the number of identifiers up to the bound |
| `Streams.RangeIsFilter` | src/database.cpp:364-385 | for start at most end, the range is the plain filter, in order |
| `Streams.RangeCrosses` | src/database.cpp:378-384 | the two positions cross if and only if some entry lies strictly between the swapped bounds, which is when the source's range is undefined |
| `Streams.ReadAfterIsFilter` | src/database.cpp:427-437 | the entries returned are exactly those above the position, in order |
| `Keyspace.ActiveLater` | src/database.cpp:32-46 | databases that show the same now show the same at every later time |
| `Keyspace.SettleActive` | src/database.cpp:32-46 | removing an expired entry when it is touched changes nothing that can be seen |
| `Keyspace.ApplyEvolves` | src/database.cpp:473-473 | a change to an entry comes with a fresh revision |
| `Keyspace.SurvivorsAreActive` | src/database.cpp:101-119 | KEYS reports exactly the visible keys among those it visits |
| `Effects.DispatchOk` | src/database.cpp:48-471 | every command keeps that only strings expire, that lists and streams are never empty and that streams are ordered above 0-0 |
| `Effects.DispatchEvolves` | src/database.cpp:473-486 | every command that changes an entry gives its key a fresh revision |
| `Effects.DispatchSame` | src/database.cpp:32-61 | the response and the visible entries afterwards depend on the visible entries only |
| `Effects.LazyIsEager` | src/database.cpp:32-61 | over every sequence of commands, lazy expiry returns what a database purged before every command returns |
| `Lists.RangeIsBetween` | src/database.cpp:154-195 | LRANGE returns exactly the elements whose index lies between the two positions, in order |
| `Lists.PushedInFront` | src/database.cpp:121-152 | LPUSH leaves the last value in front and the old list behind |
| `Lists.PopUndoesPush` | src/database.cpp:241-279 | popping as many elements as LPUSH put in front returns them last first and restores the list, or removes it if there was none |
| `Lists.IncrAddsOne` | src/database.cpp:443-471 | INCR stores and reports the successor if and only if the number is below the largest one, and keeps the expiry |
| `CommandLaws.SetLaw` | src/commands.cpp:20-50 | SET stores the text; it is visible until its time in seconds or milliseconds has passed, and not after |
| `CommandLaws.GetLaw` | src/commands.cpp:52-69 | GET answers with the visible text, the null string or a refusal, and changes nothing visible |
| `CommandLaws.TypeLaw` | src/commands.cpp:83-102 | TYPE names the kind of the visible entry |
| `CommandLaws.IncrLaw` | src/commands.cpp:104-123 | INCR counts on from the number that is visible, from 0 if there is none, below the largest one; other texts and types are refused |
| `CommandLaws.RpushLaw` | src/rlist.cpp:75-89 | RPUSH leaves every element at its index, puts its arguments behind them in order, and answers with the new length |
| `CommandLaws.LpushLaw` | src/rlist.cpp:91-105 | LPUSH puts its arguments in front, the last one first, and leaves the elements behind them in order |
| `CommandLaws.WrongListLaw` | src/rlist.cpp:75-205 | every list command refuses another type and changes nothing |
| `CommandLaws.LrangeLaw` | src/rlist.cpp:107-132 | LRANGE answers with the elements between its positions, counted from either end |
| `CommandLaws.LlenLaw` | src/rlist.cpp:134-146 | LLEN answers with the number of elements, 0 for a missing key |
| `CommandLaws.LpopLaw` | src/rlist.cpp:148-185 | LPOP answers with the first element and takes it away, with the key if it was the last |
| `CommandLaws.LpopCountLaw` | src/rlist.cpp:148-185 | LPOP with a count answers with the first elements, as many as there are up to the count, and leaves the rest |
| `CommandLaws.BlpopLaw` | src/rlist.cpp:187-205 | inside a transaction BLPOP answers at once, with the key and its first element or the null array |
| `CommandLaws.XaddLaw` | src/rstream.cpp:276-314 | XADD puts one entry behind the others, the j-th name and value at their places, and answers with the chosen identifier, or is refused if that is not above the last |
| `CommandLaws.XrangeLaw` | src/rstream.cpp:316-362 | a client reads from the answer of XRANGE the entries from start to end, in order |
| `CommandLaws.XrangeRefused` | src/rstream.cpp:316-362 | without a stream under the key XRANGE is refused |
| `CommandLaws.WholeRange` | src/rstream.cpp:83-148 | the bounds `-` and `+` take in every entry |
| `CommandLaws.KeysLaw` | src/commands.cpp:71-81 | KEYS answers with exactly the visible keys |
| `CommandLaws.PublishLaw` | src/command_processor.cpp:1358-1416 | PUBLISH reports the number of clients that hold the channel in their subscriptions and take the message; clients without a session lose the channel, and nobody loses another |
| `ReadBack.EntriesReadBack` | src/rstream.cpp:341-359 | a reader defined apart from the builders gets back every entry in its place, with identifier, names and values |
| `ReadBack.XreadReadsBack` | src/rstream.cpp:364-402 | the same for the keys of XREAD with their entries |
| `ReadBack.ReadsOnlyOne` | src/rstream.cpp:364-402 | an answer can be read in one way only |
| `Requests.XreadRoundTrip` | src/rstream.cpp:188-274 | every XREAD a client can mean, with any keys, starts and ways of blocking, is read back as it was meant, each start with its own key |
| `Requests.WaitRoundTrip` | src/command_processor.cpp:202-233 | the same for the number and the timeout of WAIT |
| `TextRuns.AtOnceAnswered` | src/command_processor.cpp:961-1049 | an admitted command that does not block is answered once, with its response, or with MISCONF if it is a write and an append fails |
| `TextRuns.GetReturnsWhatWasSet` | src/commands.cpp:20-69 | over every run in which no event writes the key, GET answers with what SET stored until the time of the SET has passed, and then with the null string |
| `Loading.LastValidWins` | src/command_processor.cpp:1079-1106 | after loading a dump a key holds the value of its last entry that has not expired, with the rest of that entry's time |
| `Loading.NoneForUntouched` | src/command_processor.cpp:1079-1106 | a key without such an entry keeps what it had |
| `Replayable.DispatchRepeats` | src/command_processor.cpp:152-189 | without expiries, a command either changes no value and is not logged, or is logged in a form that repeats its effect from the same values, at any time and without error |
| `Replayable.XaddRepeats` | src/command_processor.cpp:152-189 | a stream entry with a generated identifier is logged with that identifier and repeated exactly |
| `Replayable.BlpopRepeats` | src/command_processor.cpp:152-189 | a pop logged as LPOP repeats what the BLPOP did |
| `Channels.JoinAllMirror` | src/command_processor.cpp:1218-1237 | subscribing keeps the indexes mirror images without empty sets |
| `Channels.JoinCountsTrue` | src/command_processor.cpp:1221-1237 | the count reported for each channel is the number of channels the client is subscribed to by then |
| `Channels.LeaveAllMirror` | src/command_processor.cpp:1272-1342 | unsubscribing keeps the indexes mirror images without empty sets |
| `Channels.LeaveCountsTrue` | src/command_processor.cpp:1329-1342 | the count reported for each channel is the number of subscriptions left |
| `Channels.LeaveAllCountsTrue` | src/command_processor.cpp:1302-1328 | without arguments, whatever order the channels are visited in, the i-th count is the number of channels still left: one less each time, down to 0 |
| `Channels.LeaveAllForgets` | src/command_processor.cpp:1302-1328 | leaving every channel of the client, in any order, forgets the client |
| `Channels.ForgetMirror` | src/command_processor.cpp:1168-1187 | a client that goes away leaves every channel, and the indexes stay mirror images |
| `Channels.DropMirror` | src/command_processor.cpp:1380-1413 | PUBLISH drops dead subscribers from the channel and keeps the indexes mirror images |
| `Subscriptions.SubscribeLaw` | src/command_processor.cpp:1196-1251 | SUBSCRIBE adds exactly the channels it names to its client's, and nothing to anybody else's |
| `Subscriptions.UnsubscribeLaw` | src/command_processor.cpp:1253-1356 | UNSUBSCRIBE takes away exactly the channels it names, or all, from its client only |
| `Subscriptions.SubscribedRefused` | src/command_processor.cpp:933-959 | a subscribed client that sends anything but SUBSCRIBE, UNSUBSCRIBE and PING is refused through its session and nothing else happens, AUTH included |
| `Subscriptions.RunListens` | src/command_processor.cpp:1870-1932 | over every run in which the client's session stays and it does not unsubscribe, its subscriptions stay |
| `Subscriptions.SubscriberIsReached` | src/command_processor.cpp:1358-1416 | at the end of every such run PUBLISH counts the client if and only if its session takes the message |
| `ReplicationStream.AppendAccounted` | src/command_processor.cpp:675-695 | a new frame keeps offset, prefix sums and sessions in agreement with the backlog |
| `ReplicationStream.AppendClientAccounted` | src/command_processor.cpp:697-701 | the client's write offset becomes the end of its frame |
| `ReplicationStream.RegisterAccounted` | src/command_processor.cpp:1051-1061 | a new session starts at the end of the stream |
| `ReplicationStream.StepSessionsAccounted` | src/replication.cpp:16-54 | sending, closing and dropping sessions keeps delivered and pending frames equal to the backlog from the session's start |
| `ReplicationStream.CountIsExact` | src/command_processor.cpp:1624-1650 | the counting loop returns the number of live sessions whose replica has acknowledged the target, of all live ones if there is no target |
| `WriteOffsets.WriteOffsetIsLatest` | src/command_processor.cpp:697-701 | over every run in which the client is not unregistered, its write offset is the end of its own latest frame, whatever others, served pops or requests for acknowledgement stream in between |
| `WriteOffsets.AcknowledgedIsGreatest` | src/command_processor.cpp:1073-1077 | over every run in which the replica is not unregistered, its acknowledged offset is the greatest it has reported |
| `WriteOffsets.GreatestIsGreatest` | src/command_processor.cpp:1073-1077 | that number is at least every report and is one of them, unless it was there before |
| `Invariants.NextKeeps` | src/command_processor.cpp:1870-1932 | every event keeps the stream's account, the Pub/Sub mirror and, with a running clock, the database's invariants, and gives every changed key a fresh revision |
| `Invariants.RunInvariant` | src/command_processor.cpp:1870-1932 | all of these hold in every state reachable from one where they hold |
| `Invariants.InitialInvariant` | src/command_processor.cpp:281-290 | they hold when the processor starts |
| `Ledger.StepAccount` | src/command_processor.cpp:1870-1932 | a turn adds exactly the promise of its task to the promises answered or pending: none is lost or doubled |
| `Ledger.RunAccount` | src/command_processor.cpp:1870-1932 | over every run, answered, queued and pending promises together are exactly the submitted ones |
| `Ledger.ExactlyOnce` | src/command_processor.cpp:320-339 | a submitted command is answered once or sits in exactly one of the task queue and the three pending queues |
| `Departure.UnregisterDeparts` | src/command_processor.cpp:1145-1194 | unregistering a client leaves none of its commands pending |
| `Departure.StaysDeparted` | src/command_processor.cpp:1145-1194 | over every run in which it does not register again, none becomes pending |
| `Access.StaysOutside` | src/command_processor.cpp:1574-1622 | over every run without the right password from the client, or its connecting while none is asked for, the client stays unauthenticated |
| `Access.StrangerRefused` | src/command_processor.cpp:902-932 | a command of a client that is not authenticated is answered and does nothing else |
| `Access.StrangerChangesNothing` | src/command_processor.cpp:902-932 | over every run that does not let the client in, each of its commands leaves database, file, stream, transactions, watches and subscriptions as they are |
| `Access.ConnectingLetsIn` | src/command_processor.cpp:1136-1143 | a client that connects is authenticated at once if and only if no password is asked for |
| `Blocking.StepQuiet` | src/command_processor.cpp:1925-1930 | whatever a task does, at the end of the turn no pending pop's key is in the database, no pending read has an entry to return and no pending WAIT has enough replicas |
| `Blocking.RunQuiet` | src/command_processor.cpp:1699-1764 | the same in every state reached by tasks, deadlines and connection steps |
| `Blocking.TurnLeavesNothingOverdue` | src/command_processor.cpp:1784-1831 | after a turn, and after a wake-up for a deadline, every deadline of a blocked command lies ahead |
| `Blocking.NewcomerDoesNotOvertake` | src/command_processor.cpp:810-856 | a BLPOP that is served at once finds nobody waiting for its key |
| `Blocking.ServedInOrder` | src/command_processor.cpp:1699-1735 | one retry hands the elements of any list, in order, to its waiters, in the order of the queue |
| `Arrival.RetryPopsPasses` | src/command_processor.cpp:1699-1735 | one retry serves the later of two waiters for a key only after the earlier, or leaves both in line |
| `Arrival.FirstComeFirstServed` | src/command_processor.cpp:810-856 | over every run, of two clients that wait for the same key the second gets an element only after the first has been answered: served, timed out or cancelled |
| `Arrival.NewcomerWaitsItsTurn` | src/command_processor.cpp:810-856 | over every run, a BLPOP taken while another client waits for its key gets an element only after that client has been answered |
| `ReadPositions.ResolvePositions` | src/database.cpp:388-425 | `$` is resolved to the last identifier of the stream at that time, 0-0 if there is none; other positions stay |
| `ReadPositions.CollectDue` | src/database.cpp:427-441 | positions resolved on one database and read on a later one give exactly the entries asked for |
| `ReadPositions.DollarReadsOnlyNew` | src/database.cpp:388-441 | every returned entry belongs to a request and lies above its position; under `$` above every entry the stream held when the command was issued |
| `PopOutcomes.RetryPopsFate` | src/command_processor.cpp:1699-1735 | one retry answers a blocked pop with an element of its key, with MISCONF if an append fails or with WRONGTYPE if its key holds no list, or keeps it |
| `PopOutcomes.ExpirePopsFate` | src/command_processor.cpp:1784-1797 | the expiry answers a blocked pop only if it has a deadline that has been reached, and keeps it otherwise |
| `ReadOutcomes.RetryReadsFate` | src/command_processor.cpp:1737-1764 | one retry answers a blocked read with exactly what is due, or with WRONGTYPE if a key holds no stream, or keeps it with its positions unchanged |
| `ReadOutcomes.ExpireReadsFate` | src/command_processor.cpp:1799-1812 | the expiry answers a blocked read only if it has a deadline that has been reached, and keeps it otherwise |
| `WaitOutcomes.RetryWaitsFate` | src/command_processor.cpp:1766-1782 | one retry answers a blocked WAIT with the number of live sessions whose acknowledgement is at its target, and only if these are enough, or keeps it |
| `WaitOutcomes.ExpireWaitsFate` | src/command_processor.cpp:1814-1831 | the expiry answers a blocked WAIT with that number only if it has a deadline that has been reached, and keeps it otherwise |
| `BlockedRuns.BlockedAnswered` | src/command_processor.cpp:1870-1932 | over every run, the reply to a blocked command is what a retry answers, or nothing in the event that unregisters its client, or a timeout in an event that has reached its deadline while its key does not exist, nothing is due or too few replicas are there |
| `BlockingCommands.BlockingAnswered` | src/command_processor.cpp:902-996 | over every run from the turn that takes it, the same for every BLPOP, XREAD and WAIT, with deadline, positions and target fixed in that turn; one that is not admitted or malformed is turned away in that turn |
| `BlockingCommands.BlpopTimesOutInTime` | src/command_processor.cpp:810-856 | a BLPOP is answered with the null array only if it has a timeout, by an event at least that much later, at whose end its key does not exist |
| `BlockingCommands.ReadsWhatWasAsked` | src/command_processor.cpp:858-900 | whatever reply an XREAD gets, at once or after blocking: if it carries entries, a client reads from it exactly those asked for in the database at the end of the turn that answers, key by key and in order; if it is the null array there are none, and the command did not block or the clock of the event has reached its time plus the given milliseconds |
| `BlockingCommands.TransactionReads` | src/command_processor.cpp:773-787 | inside a transaction XREAD answers with exactly what is asked for at that moment, as a client reads it |
| `BlockingCommands.WaitAnsweredTruly` | src/command_processor.cpp:1652-1697 | the number a WAIT is answered with is that of the live sessions whose acknowledgement is at what its client had written when it was taken; these are enough, nothing had been written, or the clock of the event has reached its time plus the given milliseconds |
| `Timeouts.AnsweredInTime` | src/command_processor.cpp:1784-1831 | over every run, once the worker has taken a turn or woken up at a time at which the timeout of a BLPOP, XREAD or WAIT is over, the command has been answered; in its own turn if it is turned away, is a read that does not block, or a WAIT whose client has written nothing |
| `Watch.WatchSees` | src/command_processor.cpp:601-624 | WATCH records for each new key the revision that goes with what the client sees |
| `Watch.CheckPasses` | src/command_processor.cpp:731-744 | when the comparison passes, every watched key still has its revision next to what is visible now |
| `Watch.AbortMeansChanged` | src/command_processor.cpp:731-762 | EXEC answers with the null array if and only if the comparison failed |
| `WatchRuns.RunHolds` | src/command_processor.cpp:601-664 | a watch stays in force, at its first revision, over every run in which its client does not end it |
| `WatchRuns.ExecSeesWhatWasWatched` | src/command_processor.cpp:601-624 | over every such run, if EXEC is not aborted the visible value of a watched key is what it was when first watched |
| `WatchRuns.WatchesEnd` | src/command_processor.cpp:626-664 | EXEC and DISCARD of a transaction, and UNWATCH, leave the client without watches, the first two without a transaction, and take nothing from others |
| `Writes.DecideChanges` | src/command_processor.cpp:152-175 | a handler changes its entry if and only if it is a write and its response reports success |
| `Writes.DispatchTraced` | src/database.cpp:473-486 | a command of the table gives the key it writes a fresh revision, and leaves revision and entry of every other key that has not expired |
| `Writes.NextTraced` | src/command_processor.cpp:1870-1932 | the same for every event: written keys get fresh revisions, others keep theirs unless their entry has expired |
| `Aborts.CheckExact` | src/command_processor.cpp:731-744 | the comparison fails if and only if a watched key has lost its revision or its entry has expired |
| `Aborts.WatchTurn` | src/command_processor.cpp:601-624 | at the end of the turn of WATCH every new key has its recorded revision and the entry that was visible |
| `Aborts.WatchWritesNothing` | src/command_processor.cpp:601-624 | WATCH writes no key, and between two turns nothing else in its turn does |
| `Aborts.WatchBegun` | src/command_processor.cpp:601-624 | only an admitted WATCH outside a transaction that names the key makes a client watch it |
| `Aborts.KeyOvertaken` | src/command_processor.cpp:731-744 | over every run, what the first WATCH of a key recorded is out of date exactly when the key was written since or what was visible has expired |
| `Aborts.AbortExactly` | src/command_processor.cpp:731-762 | over every run in which the client does not end its watches, EXEC answers with the null array if and only if a key watched before the run was disturbed, or a key was written or has expired since its first WATCH in the run |
| `Aborts.ExecAbortsExactly` | src/command_processor.cpp:723-762 | starting without watches, with any number of WATCHes, EXEC answers with the null array if and only if some key was written since the client first watched it or what it saw then has expired |
| `Aborts.AbortHasCause` | src/command_processor.cpp:731-758 | an abort names a key, the event that first watched it, and the event from then on that wrote it, unless what was seen has expired |
| `Transactions.QueueAnswers` | src/command_processor.cpp:773-787 | the loop over the queue returns one response for each command, the k-th being that of the k-th command on the database that the first k have left, and the database they all leave |
| `Transactions.ExecAnswers` | src/command_processor.cpp:723-808 | an EXEC that is not aborted runs every command and answers with these responses, with the empty array if there are none, or with MISCONF if an append fails |
| `Transactions.MultiOpens` | src/command_processor.cpp:638-646 | MULTI of an admitted client opens an empty transaction |
| `Transactions.RunGrown` | src/command_processor.cpp:664-672 | over every run that leaves it open, a transaction has queued exactly what its client sent, in order, and is marked exactly when a write was refused |
| `Transactions.TransactionAnswered` | src/command_processor.cpp:723-808 | from the empty transaction through any such run, an EXEC that is not aborted is answered with one response for each command the client sent, each on the database that the ones before it left, unless an append fails |
| `LogMeaning.BracketedMeans` | src/command_processor.cpp:773-805 | a transaction between MULTI and EXEC means its writes in one go |
| `LogMeaning.DispatchApplies` | src/command_processor.cpp:1108-1134 | running a logged write does what the log's meaning says, whatever the clocks read, and without error |
| `Replay.RecordTracks` | src/command_processor.cpp:998-1025 | recording a unit moves the meaning of file and stream on by what the unit means |
| `Replay.RunTransactionFaithful` | src/command_processor.cpp:773-805 | after a transaction, file, stream and values agree |
| `Replay.AttemptFaithful` | src/command_processor.cpp:703-721 | after a pop served to a blocked client, file, stream and values agree |
| `Replay.TaskFaithful` | src/command_processor.cpp:902-1049 | after any recordable command task, file, stream and values agree |
| `Recovery.RunFaithful` | src/command_processor.cpp:1870-1932 | in every state reached by recordable tasks with successful appends, the file and the stream mean the live values |
| `Recovery.ProcessMatches` | src/command_processor.cpp:1108-1134 | a command of the log that has a meaning is processed without error and brings the processor to that meaning |
| `Recovery.StartupRestores` | src/command_processor.cpp:1108-1134 | starting from a file that has a meaning succeeds with exactly those values |
| `Recovery.RestartRestoresValues` | src/command_processor.cpp:1108-1134 | start from a file, run, stop anywhere and start again: the second start has the keys and values that were live |
| `TornAppends.TornAppend` | src/aof.cpp:279-299 | after an append of any unit, one write or a transaction, that stops after any number of bytes, the file means the old values, the new values, or the old ones under an open transaction if the cut falls between commands, and cannot be read if it falls inside one |
| `TornAppends.TornRestart` | src/command_processor.cpp:1108-1134 | a start from such a file has all of the old or all of the new values, and goes on with the file only if it has all or nothing of the unit |
| `TornAppends.FailedRecord` | src/command_processor.cpp:789-800 | whatever unit the server fails to record, a restart has the values from before it or after it |
| `ExpiryReplay.ExpiringSetReplayed` | src/commands.cpp:25-46 | a start from a file that ends with an expiring SET lets the key expire that long after the replay, as the live key does if and only if the replay is at the time of the original |
| `Follower.ReadChangesNothing` | src/command_processor.cpp:961-976 | without expiries a command that is no write leaves the database as it is |
| `Follower.OwnTaskSteady` | src/command_processor.cpp:961-976 | a task of a replica's own client, EXEC included, changes neither the values nor the offset nor the master's transaction |
| `Follower.OwnEventSteady` | src/command_processor.cpp:961-976 | the same for every event of the replica that is not its master's stream |
| `Follower.StreamTaskApplies` | src/server.cpp:631-685 | a command of the stream is applied without error, brings the replica to the stream's meaning and advances its offset by its bytes |
| `StreamUnits.StreamMeans` | src/command_processor.cpp:675-695 | the bytes of the stream mean what its frames' commands mean |
| `StreamUnits.FrameBoundary` | src/command_processor.cpp:773-805 | after any number of commands of the stream the values are those of a frame boundary |
| `Cluster.NextCommand` | src/server.cpp:637-669 | the command the replica parses next is the next one of the master's stream, with its own number of bytes |
| `Cluster.MasterMove` | src/command_processor.cpp:675-701 | no event of the master takes frames back, detaches the replica or touches its acknowledgement |
| `Cluster.ConsumeLinked` | src/server.cpp:637-685 | one pass of the consuming loop keeps the two nodes linked, acknowledgements included |
| `Cluster.MoveLinked` | src/server.cpp:631-709 | every move of master, replica and connection keeps the invariant of the pair |
| `ReplicaTheorems.RunLinked` | src/server.cpp:631-709 | the invariant holds over every run, and the backlog only grows |
| `ReplicaTheorems.ReplicaAtFrameBoundary` | src/server.cpp:631-709 | the replica's values are those of the last frame boundary it has passed, never of half a transaction |
| `Stations.ProcessFrame` | src/command_processor.cpp:675-701 | a task streams at most one frame |
| `Stations.TurnStation` | src/command_processor.cpp:1699-1735 | every frame boundary that a turn reaches is a state the master passes through in it, and the stream means the values of that state |
| `ReplicaTheorems.ReplicaHoldsMasterState` | src/server.cpp:631-709 | over every run the replica's values are those of a database the master passed through, that of the last boundary it has passed, unless that boundary is older than the run |
| `ReplicaTheorems.LastBoundaryIsLive` | src/command_processor.cpp:675-695 | the last boundary of the stream is the master's present state |
| `ReplicaTheorems.ReplicaReflectsMaster` | src/server.cpp:631-709 | having applied what the master had sent by some moment, the replica has the master's values of that moment |
| `ReplicaTheorems.ConsumingNeverFails` | src/server.cpp:637-669 | the consuming loop never meets a malformed command, and no command it applies is answered with an error |
| `ReplicaTheorems.ConsumingNeverStuck` | src/server.cpp:637-649 | once every byte has arrived, a command that is left can be parsed |
| `ReplicaTheorems.LoopCatchesUp` | src/server.cpp:637-685 | the loop then applies everything and ends with the master's values and offset |
| `ReplicaTheorems.WaitSound` | src/command_processor.cpp:1624-1650 | a replica that is among those counted for an offset has applied every frame from its registration up to that offset |
| `ReplicaTheorems.WaitAsks` | src/command_processor.cpp:1652-1697 | a WAIT that blocks puts its request behind everything its client has written |
| `ReplicaTheorems.RequestReport` | src/server.cpp:671-685 | the k-th report answers the k-th request, with the offset of everything before it |
| `ReplicaTheorems.WaitProgresses` | src/command_processor.cpp:1766-1782 | over every run, as soon as a replica's answer to the request has been processed, its live sessions are among those counted for the WAIT, whatever reports were under way before |
| `ReplicaTheorems.RegistrationLinks` | src/server.cpp:324-343 | registering a replica with equal values, both empty for instance, establishes the invariant |
| `ReplicaTheorems.FreshNodesReady` | src/command_processor.cpp:281-290 | two servers that have just started can be linked |
| `ReplicaSessions.ReplicaSession.Push` | src/replication.cpp:16-28 | a frame is queued unless the session is closed |
| `ReplicaSessions.ReplicaSession.WaitForFrame` | src/replication.cpp:30-45 | the front frame is handed out, unless the session is closed or stopping |
| `ReplicaSessions.ReplicaSession.Close` | src/replication.cpp:47-54 | the session is closed, as the closing step of the stream model says, and nothing else changes |
| `ReplicaSessions.AckRoundTrip` | src/server.cpp:397-414 | a reported offset below 2^64 arrives unchanged |
| `Wakeup.ActSound` | src/pubsub.cpp:33-95 | every interleaved step of worker and connection thread keeps queue, counter and history consistent |
| `Wakeup.NoMissedWakeup` | src/server.cpp:738-775 | in every reachable state a polling thread with frames queued has a notification, or gets one from the enqueue in progress |
| `Wakeup.DeliveredInOrder` | src/pubsub.cpp:33-75 | sent frames are a prefix of the accepted ones, and sent and queued frames together are all of them |
| `Wakeup.WokenDeliversAll` | src/server.cpp:738-756 | a woken thread that is not disturbed sends everything accepted |
| `Wakeup.PubSubSession.Enqueue` | src/pubsub.cpp:33-63 | the frame is queued, and counted if the queue was empty; a failed notification takes it back |
| `Wakeup.PubSubSession.PopFrame` | src/pubsub.cpp:65-75 | the front frame is removed, if there is one |
| `Wakeup.SendPending` | src/server.cpp:738-756 | the drain loop clears the counter and sends the queued frames in order, all of them unless the socket fails |
| `Octets.SumLittleEndian` | src/rdb.cpp:58-92 | the shifting loop returns the little-endian number |
| `Octets.SumBigEndian` | src/rdb.cpp:124-152 | the accumulating loop returns the big-endian number |
| `Rdb.LengthReads` | src/rdb.cpp:94-157 | every length in every form that fits it is read back |
| `Rdb.StringReads` | src/rdb.cpp:173-228 | every spelling of a string, raw or as an 8, 16 or 32 bit integer, is read back |
| `Rdb.ParseInverts` | src/rdb.cpp:236-386 | parsing inverts every way of writing a dump: any spellings, any auxiliary, resize, idle and frequency records in between, anything behind the end marker |
| `Rdb.ParseSound` | src/rdb.cpp:236-386 | whatever is accepted is such a dump, and its meaning is returned |
| `Rdb.ExpiryUsedOnce` | src/rdb.cpp:319-383 | an expiry goes to the next value only |
| `RdbReader.Reader.TakeLength` | src/rdb.cpp:94-157 | the method moves the position as the reading on values says, in every form, and never past the input |
| `RdbReader.Reader.TakeString` | src/rdb.cpp:173-228 | the same for strings |
| `RdbReader.ParseFile` | src/rdb.cpp:236-386 | the loop over the records with its pending expiry returns what the recursive definition returns |
| `Store.Database.FindActive` | src/database.cpp:32-46 | an expired entry is erased and its key marked; what is returned is the visible entry |
| `Store.Database.Set` | src/database.cpp:48-61 | the entry is stored with its expiry and the key marked |
| `Store.Database.Keys` | src/database.cpp:101-119 | the pass that erases while it goes removes the expired keys and returns the others |
| `Store.Database.AddListElements` | src/database.cpp:121-152 | appends the values, or puts them in front in reverse, or refuses another type, as `RpushLaw` and `LpushLaw` place them |
| `Store.Database.ListElements` | src/database.cpp:154-195 | returns the slice that the two indexes, counted from either end, denote |
| `Store.Database.PopListElement` | src/database.cpp:213-239 | takes the first element; an emptied list goes |
| `Store.Database.PopListElements` | src/database.cpp:241-279 | the loop takes the first elements, as many as there are up to the count |
| `Store.Database.AddStream` | src/database.cpp:281-362 | appends an entry with the chosen identifier if it is above the last, and keeps the streams ordered; `XaddLaw` says where its fields are |
| `Store.Database.StreamRange` | src/database.cpp:364-385 | two binary searches return the range |
| `Store.Database.ReadFrom` | src/database.cpp:387-441 | the two loops resolve `$` and collect what lies behind each position |
| `Store.Database.IncrementKey` | src/database.cpp:443-471 | stores the successor of the number, or 1, or refuses |
| `Store.Database.KeyRevision` | src/database.cpp:475-486 | returns the revision after an expired key got its new one |
| `Store.NextId` | src/database.cpp:301-347 | the switch over the three modes, with the wrap-around of the sequence, chooses the identifier that is the least possible by `AutomaticIdIsLeast` and `AutomaticSequenceIsLeast` |
| `StreamReplies.ReadXread` | src/rstream.cpp:188-274 | the position that moves over the options and the loop over keys and identifiers read the command that the recursive definition reads, or refuse it |
| `StreamReplies.BuildReadResponse` | src/rstream.cpp:364-402 | the nested loops build the answer of XREAD, from which by `XreadReadsBack` a client reads the results in order |
| `StreamReplies.BuildEntries` | src/rstream.cpp:341-359 | the nested loops build the answer of XRANGE, from which by `EntriesReadBack` a client reads the entries in order |
| `Handlers.ExecuteText` | src/commands.cpp:20-123 | SET, GET, TYPE and INCR, run on the object, change it and answer as the table of commands says |
| `Handlers.ExecuteList` | src/rlist.cpp:75-146 | the same for RPUSH, LPUSH, LRANGE and LLEN |
| `Handlers.ExecutePop` | src/rlist.cpp:148-205 | the same for LPOP and for BLPOP inside a transaction |
| `Handlers.ExecuteStream` | src/rstream.cpp:276-362 | the same for XADD and XRANGE |
| `Handlers.Execute` | src/command_processor.cpp:235-249 | the look-up in the table, run on the object, does for every command what the state machine's dispatch does |
| `CommandProcessing.CommandProcessor.AppendReplicationFrame` | src/command_processor.cpp:675-695 | the frame joins backlog and open sessions; dropped sessions are erased in place |
| `CommandProcessing.CommandProcessor.RecordWrite` | src/command_processor.cpp:998-1025 | the file comes first, and a failed append keeps the write out of the stream |
| `CommandProcessing.CommandProcessor.CountAcknowledged` | src/command_processor.cpp:1624-1650 | one pass returns the number of live sessions whose acknowledgement is at the target and erases dropped sessions |
| `CommandProcessing.CommandProcessor.SubscribeTo` | src/command_processor.cpp:1221-1237 | the loop joins every channel and reports the counts |
| `CommandProcessing.CommandProcessor.UnsubscribeFrom` | src/command_processor.cpp:1329-1342 | the loop leaves every channel and reports what is left |
| `CommandProcessing.CommandProcessor.UnsubscribeFromAll` | src/command_processor.cpp:1302-1328 | the loop visits every channel of the client once, reports the count left after each, and ends with the client forgotten |
| `CommandProcessing.CommandProcessor.PublishTo` | src/command_processor.cpp:1377-1412 | one pass over the subscribers counts the recipients and erases those without a session |
| `CommandProcessing.CommandProcessor.Watch` | src/command_processor.cpp:601-624 | the loop remembers the revision of every key not watched yet |
| `CommandProcessing.CommandProcessor.Exec` | src/command_processor.cpp:723-808 | comparison, queue and recording do what the state machine's transaction does, whose answers `ExecAnswers` states |
| `CommandProcessing.CommandProcessor.TryPop` | src/command_processor.cpp:810-856 | pops, records and answers, or finds nothing |
| `CommandProcessing.CommandProcessor.TakeCommand` | src/command_processor.cpp:902-1049 | the gates and the dispatch of a command task do what the state machine says |
| `CommandProcessing.CommandProcessor.CancelPending` | src/command_processor.cpp:1145-1163 | the three loops answer and erase the client's blocked commands in place |
| `CommandProcessing.CommandProcessor.RetryPending` | src/command_processor.cpp:1699-1782 | the three loops serve what can be served and erase it in place |
| `CommandProcessing.CommandProcessor.ExpirePending` | src/command_processor.cpp:1784-1831 | the three loops answer and erase what is overdue |
| `CommandProcessing.CommandProcessor.LoadSnapshot` | src/command_processor.cpp:1079-1106 | the loop stores the entries of a dump that have not expired, with the rest of their time |
| `CommandProcessing.CommandProcessor.OpenLog` | src/command_processor.cpp:1108-1134 | the file is replayed until a command fails and opened only if none did |
| `CommandProcessing.CommandProcessor.Unregister` | src/command_processor.cpp:1165-1194 | everything the processor knows of the client is erased |
| `CommandProcessing.CommandProcessor.HandleAll` | src/command_processor.cpp:1870-1932 | an object that handles a list of events ends in the state the state machine gives |

## Left out

- Sockets, poll, accept, send and receive calls, threads, signals and the handshake before the stream: the model has the buffers and the protocol steps.
- File creation, the manifest and the sync policy: the append-only file is a byte sequence, and each append succeeds or leaves a prefix.
- The condition variable and mutex of the task queue: one worker makes each task one step; tasks are taken in the order in which they were queued.
- Passwords, users and SHA-256: AUTH and ACL keep only whether credentials were right and whether new clients start authenticated.
- The texts of errors, INFO and CONFIG: errors are told apart by kind, administrative answers are a parameter.
- Floating-point timeouts: their reading is a parameter, which may be a deadline at once for a timeout below one millisecond; deadlines are points of a monotone clock.
- The clock is read once per turn, once more per command handler; reads of the clock inside one handler are the same reading.
- 64-bit wrap-around of replication offsets and of the revision counter, and the overflow of an expiry in seconds.
- INCR on the largest 64-bit number: undefined in the source, wraps in the model.
- The contents of Pub/Sub frames: whether a session takes a frame is a parameter; the order and count of frames are modelled in the hand-over.
- The hand-over retries after an interrupted system call without a step of its own: the retry changes nothing.
- Session objects inside the processor object are held by value: sending, closing and dropping by other threads are separate steps, so sharing is interleaving, not aliasing.
- The loop of consume_replication_stream is a function over the pair of nodes and a move of the connection, not a method of an object; reading the offset and applying the request for it are one step, which no other task of the replica can tell apart.
- Several replicas at once: each is linked to the master by itself, and the counting of WAIT over all sessions is modelled on the master.
- Recovery.RunFaithful: for runs without expiring SETs, without loading a dump and with successful appends, because the log repeats a relative expiry only at its own time.
- ReplicaTheorems.ReplicaReflectsMaster: for a replica that starts with the master's values, because a full resynchronisation transfers none.
- ReplicaTheorems.ReplicaHoldsMasterState: for boundaries that the run has seen; of an older one only the meaning of the frames is known.
- Responses.DecodeSerialized: for simple strings and errors without CRLF, because with one the bytes decode to something else.
