# Verified model of the actor runtime

A Dafny model of the actor runtime in `net_actor/`: the scheduler, coroutine calls inside a node
and between nodes, the cluster wire protocol and its reassembly, timers, the event loop, the
write path, and the registries that tie them together. The older writer in `net/` is modelled
beside the newer one.

Code that updates objects in place is modelled by classes whose methods are proved against
functions on values; the properties are proved about those functions and about whole runs of
them. Concurrent parts are step systems in which one step is one lock-protected or atomic
operation, so a run is an interleaving of the program.

| file | what it models |
|---|---|
| `Scheduler.dfy`, `SchedulerTrace.dfy`, `SchedulerProgress.dfy` | `Send` and `workerLoop` over shared mailboxes: safety of all interleavings; what a run did, told from its events; and that the threads run out of steps only when everything was processed |
| `Shutdown.dfy` | the drain rounds of `ActorSystem::Stop` |
| `Coroutines.dfy`, `SessionHistory.dfy`, `SessionTimers.dfy`, `ActorObject.dfy` | sessions, suspended frames, awaiters; what they send and which timers they set and cancel; the `Actor` object |
| `ClusterRpc.dfy`, `ClusterRpcMisuse.dfy` | `ClusterCall` and `RespondRemote` between two nodes over their byte streams; what happens when user code breaks their conditions |
| `ClusterCodec.dfy`, `Reassembly.dfy`, `ClusterGateway.dfy`, `ClusterStream.dfy` | the packet format, the receive loop, the gateway actor, and packets over the write path |
| `ClusterTransport.dfy`, `ActorRegistry.dfy` | routes between nodes; names, links and transports |
| `TimerSchedule.dfy`, `TimerManager.dfy` | timers as values; the heap and the map that refine them |
| `OutputBuffer.dfy`, `WriteStream.dfy`, `Connection.dfy`, `LegacyConnection.dfy` | the buffer, the two writers |
| `EventLoop.dfy` | the task queue and its wake-up |
| `SpinLockQueue.dfy`, `Messages.dfy`, `Bytes.dfy`, `Wrappers.dfy` | shared vocabulary |

What user code does is an oracle everywhere: the list of awaits a coroutine run performs, the
sends of a handler, the data of a response. So are the answers of `write(2)` and the readings of
the steady clock. Properties hold for all of them.

## What turned out not to hold

Each of these has an exact condition or a concrete run in the model.

- `RoundTripIffEncodable`: a packet whose names do not fit 16 bits, or whose body is above 16 MiB, is encoded but not decoded again.
- `ReencodesIff`, `OtherFramesDecodeToo`: decoding ignores flag bits 1 to 7 and trailing body bytes, so encoding a decoded packet gives its bytes back exactly when there are none of either.
- `PayloadReachesRemote`, `PayloadIsLost`: `SendToRemote` moves the payload away on the first transport it tries, and never looks at the shared buffer.
- `BindKeepsInverse`, `SecondNameLeavesDangling`, `AnnounceKeepsInverse`, `SecondIdLeavesDangling`: a second name for one actor, or a second node id on one connection, leaves an entry behind.
- `RoutedAliveIff`, `KnownAfterHandshake`: a node that is made known only after it connected by itself has a route but is not marked alive.
- `DeadlineIs`, `NotBeforeItsTime`: a deadline before the start of the clock wraps around and is never reached.
- `SleepLeavesWakeUp`: a completed `Sleep` leaves its wake-up in the response map.
- `SuspendOwnsIffUnused`, `LongCallLosesFrame`: a call that waits while 2^32 sessions pass loses its frame, because another call takes its session; no response reaches the frame any more.
- `SessionZeroNeverResumes`: after the wrap-around session 0 is handed out, and no message resumes what waits under it.
- `RegisteredThroughoutIff`, `LateInsertLinksUnregistered`, `LinkDuringUnregisterDangles`: `LinkActor` tests the registration and inserts in two steps, and `UnregisterActor` cuts the links and removes the actor in two more. If the watcher is unregistered between the former two, it stays in the link map; and a `LinkActor` that runs as a whole between the latter two leaves a link to an unregistered actor, so the fault does not depend on `LinkActor` being split.
- `LinkAfterNoticesIsNotTold`: a watcher that links after the notices went out and before the links are cut gets no ActorDown.
- `TaskQueuedByTaskWaits`, `TaskQueuedByTaskSleeps`: a task that another pending task queues gets no wake-up. The comment at `net_actor/EventLoop.cc:100` says the current round handles it; the code has already swapped the queue out, and the model follows the code.
- `ArmedIff`, `ZeroAnswerDisarms`: when `write` returns 0 in `HandleWrite`, write interest is dropped with bytes waiting. The comment at `net_actor/EventLoop.cc:108-117` says that read-only interest is set only when all is written; the model follows the code.
- `ConservesIff`: a fatal error in the direct write of `sendInLoop` drops the rest of the payload.
- `HandledSplits`, `ChunkingIrrelevantIff`, `RestartsAfterError`: after a protocol error, chunks that are already in the mailbox are parsed from a fresh start. So the packets handled depend on the chunks exactly when those behind the first error hold packets; `ChunksMatterBehindError` gives the bytes, and `HandshakeBehindError` a connection that is routed again after it was given up.
- `BatchNeedNotEnd`, `QuickBatchEnds`: with a clock that advances from reading to reading and a timer of one millisecond, the batch loop goes on for as long as the clock does. A batch that takes less time than the shortest interval has no timer twice.

## Conditions of the cross-node result

`ClusterRpc.ClusterCallSafety` is about two nodes, one connection and its lifetime, under these
conditions, each of which is a guard of a step or part of `Config.Valid`:

- the name tables do not change during the run; they may be any tables that registration can produce. The node ids may be anything, equal or empty included: a request from a node without an id cannot be answered;
- every session counter stays below 2^32 - 1;
- packets on the wire are encodable;
- user code passes no responses to `Call` and `ClusterCall`, and to `Call` no messages that came from the other node, which would carry that node's return address with them; `ClusterCall` builds the packet anew and may pass them on;
- user code responds to messages that its handlers were started for, and not to the results of its own calls, which carry its own session;
- messages sent outside calls carry session 0.

`ClusterRpcMisuse` has runs for each of the last three conditions in which one actor breaks it and a
remote call resumes with data that was no answer to it: a response passed to `Call`, one passed to
`ClusterCall`, a remote message passed to `Call`, the result of a call passed to `RespondRemote` and
to `RespondToCall`, and a request passed on by a plain send.

Nothing is assumed about delays, losses at the receiver, repetition, reordering of mail, or
cancelled timers: mail may be processed late, repeatedly and in any order, and every timer that
was ever set may fire at any time, any number of times. A caller without a name, and a payload
equal to the handshake magic, are covered: such answers do not arrive. That calls can be
answered is `ClusterRpc.CallIsAnswered`.

## Model

| member | source | states |
|---|---|---|
| `Scheduler.StepPreserves` | net_actor/ActorSystem.cc:155-177 | every step of every thread keeps the invariant: well-formed program counters, token count, noticed mail, conserved mailboxes |
| `Scheduler.SingleToken` | net_actor/ActorSystem.cc:168-176 | in every run, the copies of a registered actor in the ready queue, the workers holding it and the threads about to push it are one if its flag is set and none otherwise; never more than one, not even after unregistering |
| `Scheduler.MutualExclusion` | net_actor/ActorSystem.cc:506-560 | no two workers ever run the same actor, and while one does the id is not in the ready queue |
| `Scheduler.NoLostWakeup` | net_actor/ActorSystem.cc:543-558 | a non-empty mailbox without a set flag always has a thread that is still going to notice it: a sender before its exchange, or a worker that cleared the flag and has not re-checked that queue |
| `Scheduler.QuiescentIsQueued` | net_actor/ActorSystem.cc:543-558 | with no thread inside Send or a turn, a registered actor with mail is in the ready queue exactly once |
| `SchedulerTrace.FifoPerClass` | net_actor/Actor.cc:33-94 | per priority class, every message that Send accepted for a registered actor is being carried to the mailbox of its class or entered it; those that entered were handled, in that order, except for at most one in process and those queued |
| `SchedulerTrace.RegistryFollows` | net_actor/ActorSystem.cc:113-153 | exactly the actors that the events registered and did not unregister since are registered, under ids handed out in order |
| `SchedulerTrace.HistoriesAreTrue` | net_actor/Actor.cc:33-94 | what the mailboxes record as pushed and done is, message by message, what threads enqueued and what handlers were run for |
| `SchedulerTrace.AcceptedAreCarried` | net_actor/ActorSystem.cc:155-169 | the messages accepted by Send are, counted, those that entered the mailbox of their class and those still carried by a thread |
| `SchedulerTrace.TurnGoesOn` | net_actor/ActorSystem.cc:529-541 | after a handler returns the worker goes on up to the 64th message, and ends its turn there and after a handler that throws |
| `SchedulerTrace.ReadyInOrder` | net_actor/ActorSystem.cc:172-175 | workers take actors up exactly in the order in which they became ready |
| `SchedulerTrace.AnyoneCanSend` | net_actor/ActorSystem.cc:155-166 | a thread outside the scheduler and a running handler can begin a Send to any id at any time, and the registry can always change |
| `Scheduler.TurnIsBounded` | net_actor/ActorSystem.cc:529-531 | one turn takes at most 64 messages, also when handlers throw |
| `Scheduler.PriorityFirst` | net_actor/Actor.cc:61-71 | a worker that takes a normal message found the priority queue empty earlier in the same ProcessOne |
| `SchedulerProgress.NeverStuck` | net_actor/ActorSystem.cc:506-560 | while a registered actor has mail and there is a worker, some thread can go on without another Send |
| `SchedulerProgress.WorkFalls` | net_actor/ActorSystem.cc:506-560 | every step of a thread other than the start of a Send strictly reduces a bound computed from mailboxes, ready queue and program counters, however threads interleave |
| `SchedulerProgress.RegistryKeepsWork` | net_actor/ActorSystem.cc:113-153 | registering and unregistering actors leaves that work unchanged; a new actor only raises the limit of its costs by a constant |
| `SchedulerProgress.EverythingIsProcessed` | net_actor/ActorSystem.cc:506-560 | from the step on at which no more Send starts, while actors are registered and unregistered at will, the threads make at most that many steps, and when none can go on every registered actor has handled exactly the messages Send accepted for it, in the order in which they entered, with its flag clear |
| `Shutdown.ProcessedLeaves` | net_actor/Actor.cc:61-94 | processing n messages takes the oldest n, priority before normal, and leaves exactly the rest |
| `Shutdown.StoppingSystem.ProcessOne` | net_actor/ActorSystem.cc:64-75 | one message is finished, whatever its handler sends, and no mailbox loses anything |
| `Shutdown.StoppingSystem.DrainRound` | net_actor/ActorSystem.cc:50-78 | each actor finishes at most 64 more messages; a round that processes nothing found every mailbox empty |
| `Shutdown.StoppingSystem.Drain` | net_actor/ActorSystem.cc:47-78 | Stop loses no message, ends with empty mailboxes or after three rounds, and with handlers that send nothing each actor has finished exactly its oldest 192 messages |
| `Coroutines.SuspendKeeps` | net_actor/Actor.cc:333-359 | suspending takes a session nobody waits on, overwrites no entry and keeps frames linearly owned |
| `Coroutines.RunKeeps` | net_actor/Coroutine.h:167 | a frame that runs through any awaits ends completed, or suspended under the one session it allocates; no other frame, awaiter or session is touched |
| `Coroutines.TakeResultEffect` | net_actor/Actor.cc:361-378 | a call gets the response stored for it and leaves the response map exactly as it was before that response came; a sleep leaves its wake-up in it |
| `Coroutines.ResumeKeeps` | net_actor/Actor.cc:162-176 | resuming removes the session before the frame runs, hands a call its response, logs it once, and leaves every other waiting frame where it was |
| `Coroutines.OnMessageKeeps` | net_actor/Actor.cc:110-123 | no message, response or not, breaks the ownership of frames and the freshness of sessions |
| `Coroutines.DestroyKeeps` | net_actor/Actor.cc:178-189 | destroying all coroutines destroys each suspended frame once and empties both maps |
| `Coroutines.SuspendOwnsIffUnused` | net_actor/Actor.h:216 | suspending keeps all frames owned if and only if the allocated session is not waited on |
| `Coroutines.LongCallLosesFrame` | net_actor/Actor.h:216-222 | there is a run in which a call stays unanswered through a full turn of the session counter and its frame ends under no session |
| `Coroutines.SessionZeroNeverResumes` | net_actor/Actor.cc:110-123 | in every run a frame that waits under session 0 keeps waiting, whatever messages come, until the counter has come back to 0 |
| `Coroutines.WaitsUntilAnswered` | net_actor/Actor.cc:162-176 | in every run a session keeps its frame until a response to it is processed |
| `Coroutines.FirstResponseWins` | net_actor/Actor.cc:110-123 | the first processed response or timeout of a session resumes its frame with exactly that message, and the frame runs on to its next await or to its end |
| `Coroutines.EveryMessageRuns` | net_actor/Actor.cc:118-122 | every message that is no response starts a frame of its own, which is suspended for the first await of its code that is not a sleep of no duration, or ends |
| `Coroutines.LaterResponsesIgnored` | net_actor/Actor.cc:110-123 | every later response or timeout of that session changes nothing at all |
| `Coroutines.NeverWaitsAgain` | net_actor/Actor.cc:162-176 | a session that ended is never waited on again |
| `Coroutines.FramesLinearInRuns` | net_actor/Actor.cc:157-189 | in every run each frame is suspended, completed or destroyed, in one way and once; it is suspended if and only if exactly one session holds it; no session is resumed twice |
| `Coroutines.OnlySleepsLeaveResponses` | net_actor/Actor.cc:412-429 | between messages the keys of the response map are exactly the sessions of completed sleeps |
| `Coroutines.SleepLeavesWakeUp` | net_actor/Coroutine.h:167 | one sleep that ended is enough to leave an entry |
| `SessionHistory.SuspendHistory` | net_actor/Actor.cc:384-410 | what an awaiter sends and the timer it sets belong to the one await its session was allocated for |
| `SessionHistory.OnMessageHistory` | net_actor/Actor.cc:110-123 | over any message, every request and timer ever put out stays tied to the await of its session |
| `SessionHistory.OnMessageResumes` | net_actor/Actor.cc:110-123 | whatever a message resumes is a frame waiting on its session, and a call gets that message as its result |
| `SessionTimers.EverySessionPutsOutOnce` | net_actor/Actor.cc:333-456 | in every run each session put out exactly its due, once: a call its request and, only with a timeout, a timer with that delay reporting the timeout; a sleep a timer with its duration; a waiting call holds the timer of its session |
| `SessionTimers.CancelledAreAnswered` | net_actor/Actor.cc:371-375 | in every run the timers cancelled are exactly those of calls that were answered without an error, each the one its own session set, in order |
| `ActorObject.Actor.PushMessage` | net_actor/Actor.cc:33-59 | the message joins the end of the queue of its class and the other queue is untouched |
| `ActorObject.Actor.AwaitSuspend` | net_actor/Actor.cc:333-359 | the maps, the counter, the timer and what is sent become those of the specified suspension |
| `ActorObject.Actor.AwaitResume` | net_actor/Actor.cc:361-378 | the result and both maps are those specified; the timer is cancelled only on success |
| `ActorObject.Actor.ResumeWaiting` | net_actor/Actor.cc:162-176 | tells whether someone waited; if so the object does the specified resumption, else nothing changes; also past the wrap-around, while every frame has its session |
| `ActorObject.Actor.OnMessage` | net_actor/Actor.cc:110-123 | the object does the specified transition for every message; also past the wrap-around, while every frame has its session |
| `ActorObject.Actor.ProcessOne` | net_actor/Actor.cc:61-94 | takes the head of the priority queue, else of the normal queue, and processes it; false and unchanged if both are empty |
| `ActorObject.Actor.DestroyAllCoroutines` | net_actor/Actor.cc:178-189 | the loop over the wait map destroys every suspended frame once and clears both maps |
| `ClusterRpc.NextKeeps` | net_actor/Actor.cc:384-429 | every step of the two nodes keeps that all mail, packets, responses and results are justified by where they came from |
| `ClusterRpc.LinkReads` | net_actor/ClusterProxy.cc:239-268 | reading any number of bytes handles the next packets sent, in order, and keeps the buffer in step with the stream |
| `ClusterRpc.LinksAreFaithful` | net_actor/ClusterProxy.cc:239-268 | in every run the encodings of the packets handled followed by the buffer are the bytes read, and when all was read all was handled |
| `ClusterRpc.RemoteRequestOrigin` | net_actor/ClusterProxy.cc:306-318 | a remote request with a session that an actor handles is the packet of one remote call, from the node and the name it carries, found under the name that was called |
| `ClusterRpc.AnswerIsForCaller` | net_actor/Actor.cc:319-327 | an answer that reaches a waiting remote call was issued for exactly that caller and session |
| `ClusterRpc.NoLocalAnswer` | net_actor/Actor.cc:212-220 | no local response ever carries the session of a remote call |
| `ClusterRpc.ClusterCallSafety` | net_actor/Actor.cc:384-429 | in every run a remote call resumes at most once, with its own timeout or with data that RespondRemote of the called actor issued for this caller, session and request |
| `ClusterRpc.CallIsAnswered` | net_actor/ActorSystem.cc:469-498 | for any named actors, encodable data other than the magic, and any timeout there is a run in which the caller resumes with the data responded |
| `ClusterRpc.CallCanTimeOut` | net_actor/Actor.cc:396-407 | for every remote call with a timeout there is a run in which its own timer resumes it |
| `ClusterRpcMisuse.ForwardedRequestMisleads` | net_actor/Actor.cc:195-220 | there is a run in which a request passed on by a plain send makes a local answer resume a remote call |
| `ClusterRpcMisuse.ResponseInCallMisleads` | net_actor/Actor.cc:333-359 | there is a run in which a response passed to Call resumes a remote call of its receiver |
| `ClusterRpcMisuse.ResponseInClusterCallMisleads` | net_actor/Actor.cc:384-410 | there is a run in which a response passed to ClusterCall resumes another remote call on the other node |
| `ClusterRpcMisuse.RemoteRequestInCallMisleads` | net_actor/Actor.cc:319-327 | there is a run in which a remote message passed to Call makes RespondRemote answer the wrong call over the wire |
| `ClusterRpcMisuse.ResultInRespondRemoteMisleads` | net_actor/Actor.cc:319-327 | there is a run in which the result of a call passed to RespondRemote resumes an unrelated remote call on the other node |
| `ClusterRpcMisuse.ResultInRespondToCallMisleads` | net_actor/Actor.cc:212-220 | there is a run in which the result of a call passed to RespondToCall resumes an unrelated remote call of the local actor it came from |
| `ClusterCodec.RoundTrip` | net_actor/ClusterProxy.cc:157-219 | decoding an encoded packet followed by anything yields the packet and consumes exactly its bytes |
| `ClusterCodec.PrefixIsIncomplete` | net_actor/ClusterProxy.cc:180-195 | every proper prefix of an encoded packet asks for more bytes |
| `ClusterCodec.RoundTripIffEncodable` | net_actor/ClusterProxy.cc:157-219 | the round trip holds if and only if the four names fit 16 bits and the body 16 MiB |
| `ClusterCodec.WireLayout` | net_actor/ClusterProxy.cc:157-178 | where every field of a packet stands on the wire, byte by byte, with all numbers big-endian |
| `ClusterCodec.ReencodesIff` | net_actor/ClusterProxy.cc:196-219 | encoding a decoded packet gives its bytes back if and only if the body has no trailing bytes and the flag byte is 0 or 1 |
| `ClusterCodec.OtherFramesDecodeToo` | net_actor/ClusterProxy.cc:212-218 | two frames, one with a second flag bit and one with a trailing byte, decode to a packet that is not encoded that way |
| `ClusterCodec.ParseExtends` | net_actor/ClusterProxy.cc:180-219 | a verdict on a buffer, packet or error, does not change when more bytes arrive |
| `ClusterCodec.WaitingIsBounded` | net_actor/ClusterProxy.cc:183-195 | a buffer that asks for more is shorter than 4 bytes plus 16 MiB |
| `ClusterCodec.Encode` | net_actor/ClusterProxy.cc:157-178 | the in-place writers produce the specified wire form of every packet, also of those that do not fit |
| `ClusterCodec.Decode` | net_actor/ClusterProxy.cc:180-219 | the pointer-advancing readers agree with the specified parser on all inputs, in result, packet and bytes consumed |
| `ClusterCodec.Cursor.TakeStr16` | net_actor/ClusterProxy.cc:134-144 | reads what the specified field reader reads, or fails, without passing the end |
| `Reassembly.ChunkingIrrelevant` | net_actor/ClusterProxy.cc:239-268 | on any bytes, for a receiver that ends at the first error, packets, leftover and verdict do not depend on how the stream is cut into chunks |
| `Reassembly.HandledSplits` | net_actor/ClusterProxy.cc:239-268 | on any bytes and chunks the program handles the packets of the whole stream and then those of the chunks that follow the first error, parsed with a fresh buffer |
| `Reassembly.ChunkingIrrelevantIff` | net_actor/ClusterProxy.cc:242-261 | the packets handled do not depend on the chunks if and only if those chunks hold no packet |
| `Reassembly.DrainsStream` | net_actor/ClusterProxy.cc:239-268 | a prefix of an encoded stream decodes without error to a prefix of the packets, and their encodings followed by the rest are the bytes received |
| `Reassembly.ReassemblesPackets` | net_actor/ClusterProxy.cc:239-268 | every split of a stream of encodable packets is reassembled into exactly those packets in order |
| `Reassembly.RestIsIncomplete` | net_actor/ClusterProxy.cc:244-268 | what the loop leaves holds no complete packet and is shorter than the largest frame |
| `ClusterGateway.ReceivesStream` | net_actor/ClusterProxy.cc:227-268 | receiving a stream of encodable packets in any chunks leaves the node as handling the packets one by one does |
| `ClusterGateway.RestartsAfterError` | net_actor/ClusterProxy.cc:242-261 | on any bytes and chunks the node, mail and routes included, ends as if the whole stream had come at once and then the chunks behind the first error on a new connection |
| `ClusterGateway.ChunksAsOne` | net_actor/ClusterProxy.cc:239-268 | without an error, on any bytes, the node does not depend on the chunks |
| `ClusterGateway.ErrorAtTheEnd` | net_actor/ClusterProxy.cc:253-261 | nor after an error if the chunks behind it hold no packet |
| `ClusterGateway.ChunksMatterBehindError` | net_actor/ClusterProxy.cc:242-261 | the same bytes deliver a message in two chunks and none in one chunk |
| `ClusterGateway.HandshakeBehindError` | net_actor/ClusterProxy.cc:285-303 | a handshake in a chunk behind the error announces its node over the connection that was given up; in the same chunk no route is left |
| `ClusterGateway.ReceivesByActions` | net_actor/ClusterProxy.cc:227-283 | what a node becomes over chunks of any connections is what the packets decoded and the connections dropped make of it, in order |
| `ClusterGateway.ConnectionsAreIndependent` | net_actor/ClusterProxy.cc:239-268 | however the chunks of several connections interleave, the packets and the errors of each are those of its own chunks alone |
| `ClusterStream.PacketsArriveInOrder` | net_actor/ClusterProxy.cc:406-430 | under any partial writes, waits and chunks, the packets the other node handles are the first of those passed to SendPacket, in order, and all of them once all bytes were written and received |
| `ClusterGateway.ClusterGatewayActor.HandleDecodedPacket` | net_actor/ClusterProxy.cc:285-326 | a handshake registers its node and is not delivered; any other packet goes to the actor found by name, with session, kind, data and return address, or nowhere |
| `ClusterGateway.MagicSpells` | net_actor/ClusterProxy.cc:225 | the handshake data are the characters of the program's constant |
| `ClusterGateway.ClusterGatewayActor.OnNetworkRecv` | net_actor/ClusterProxy.cc:239-268 | the loop handles exactly the packets specified, keeps the rest, ends on every input, and on an error drops the buffer and the connection |
| `ClusterGateway.ClusterGatewayActor.OnDisconnected` | net_actor/ClusterProxy.cc:270-277 | the buffer and the route of that connection go, the rest stays |
| `ClusterTransport.RoutesAlwaysAgree` | net_actor/ClusterProxy.cc:438-551 | in every run the node behind a connection is routed over it, and a node marked alive has a route |
| `ClusterTransport.LookupsAfter` | net_actor/ClusterProxy.cc:375-551 | what each lookup finds after a handshake, a loss and a connect, for every node and every connection |
| `ClusterTransport.HandshakeRevives` | net_actor/ClusterProxy.cc:462-470 | a handshake marks its node alive at its first entry |
| `ClusterTransport.RoutedAliveIff` | net_actor/ClusterProxy.cc:438-551 | an operation leaves every known node that has a route marked alive, unless and only unless it makes a routed node known |
| `ClusterTransport.AliveExactlyRouted` | net_actor/ClusterProxy.cc:438-551 | in every run in which nodes are made known before they shake hands, a known node is marked alive exactly while it has a route |
| `ClusterTransport.KnownAfterHandshake` | net_actor/ClusterProxy.cc:375-404 | otherwise there is a routed node that is not marked alive |
| `ClusterTransport.SupersededLossIsHarmless` | net_actor/ClusterProxy.cc:512-551 | after a reconnect, losing the old connection changes no route and no liveness |
| `ClusterTransport.AnnounceKeepsInverse` | net_actor/ClusterProxy.cc:438-479 | a handshake keeps the two maps inverse if and only if the connection announced no other node before |
| `ClusterTransport.RoutesStayInverse` | net_actor/ClusterProxy.cc:438-551 | with one node id per connection the two maps are inverse in every run |
| `ClusterTransport.SecondIdLeavesDangling` | net_actor/ClusterProxy.cc:445-452 | a connection that announces two ids leaves a route that survives its loss |
| `ClusterTransport.TcpClusterTransport.RegisterNodeFd` | net_actor/ClusterProxy.cc:438-479 | all four registries become those of the specified announcement |
| `ClusterTransport.TcpClusterTransport.OnNodeDisconnected` | net_actor/ClusterProxy.cc:512-551 | all four registries become those of the specified loss, which removes a route only if it leads over that connection |
| `ActorRegistry.NamesAlwaysAgree` | net_actor/ActorSystem.cc:275-296 | in every run the registered name of an actor finds that actor |
| `ActorRegistry.LookupsAfter` | net_actor/ActorSystem.cc:129-137 | what both lookups find after registering, unregistering and forgetting a name, for every name and every actor |
| `ActorRegistry.BindKeepsInverse` | net_actor/ActorSystem.cc:275-286 | registering keeps the two maps inverse if and only if the actor had no other name |
| `ActorRegistry.NamesStayInverse` | net_actor/ActorSystem.cc:275-296 | with one name per actor the two maps are inverse in every run |
| `ActorRegistry.SecondNameLeavesDangling` | net_actor/ActorSystem.cc:129-137 | an actor that took two names is still found under the first after it was unregistered |
| `ActorRegistry.RegisteredThroughoutIff` | net_actor/ActorSystem.cc:124-153 | in every interleaving of whole operations and of the parts of LinkActor and UnregisterActor, only registered actors are linked throughout if and only if each insertion still finds both actors registered and each removal finds the actor unlinked |
| `ActorRegistry.LinksAlwaysRegistered` | net_actor/ActorSystem.cc:330-365 | in every run of registering, unregistering, linking and unlinking as whole operations only registered actors are linked, and none to itself |
| `ActorRegistry.InsertKeepsIff` | net_actor/ActorSystem.cc:349-350 | an insertion alone keeps a consistent table consistent if and only if both actors are registered and distinct at that moment |
| `ActorRegistry.LateInsertLinksUnregistered` | net_actor/ActorSystem.cc:338-350 | a watcher that is unregistered between test and insertion ends in the link map |
| `ActorRegistry.CutAndDrop` | net_actor/ActorSystem.cc:140-151 | taking out the watchers, cutting the links and removing the actor make up the whole of UnregisterActor |
| `ActorRegistry.DropKeepsIff` | net_actor/ActorSystem.cc:150-151 | removing the actor keeps a consistent table consistent if and only if it is linked nowhere at that moment |
| `ActorRegistry.LinkDuringUnregisterDangles` | net_actor/ActorSystem.cc:140-151 | a whole LinkActor between the two halves of UnregisterActor passes its test and leaves a link to an unregistered actor |
| `ActorRegistry.LinkAfterNoticesIsNotTold` | net_actor/ActorSystem.cc:124-148 | a watcher that links between the notices and the cut of the links is linked, and unlinked again without a notice |
| `ActorRegistry.ActorSystem.RegisterActor` | net_actor/ActorSystem.cc:113-122 | the actor enters the registry under the next id of a 32-bit counter, and no link changes |
| `ActorRegistry.ActorSystem.LinkActor` | net_actor/ActorSystem.cc:330-352 | links exactly registered, distinct actors, so that all ids in the link map stay registered, when test and insertion are one operation |
| `ActorRegistry.ActorSystem.notifyActorDown` | net_actor/ActorSystem.cc:367-387 | each current watcher is sent exactly one notice, nobody else any, those that are registered get it, and the entry is taken out |
| `ActorRegistry.ActorSystem.UnregisterActor` | net_actor/ActorSystem.cc:124-153 | each watcher, if only registered actors are linked, gets exactly one ActorDown and nobody else anything; the actor is gone from actors, names and links, in the latter as target and as watcher, and all other links stay |
| `ActorRegistry.ActorSystem.SendByName` | net_actor/ActorSystem.cc:308-321 | delivers to the actor found, and tells whether one was |
| `ActorRegistry.ActorSystem.SendToRemote` | net_actor/ActorSystem.cc:469-498 | succeeds if and only if a transport reaches the node; the first that does gets the packet, with the sender's registered name and what is left of the payload |
| `ActorRegistry.PayloadReachesRemote` | net_actor/ActorSystem.cc:480-494 | over any transports, the accepted packet carries the payload if and only if the first transport takes it and data holds the payload, or the payload is empty |
| `ActorRegistry.PayloadIsLost` | net_actor/ActorSystem.cc:480-494 | a payload in a shared buffer arrives empty, and so does one in data over the second transport |
| `TimerSchedule.CollectedInOrder` | net_actor/Timer.cc:125-144 | a batch is collected in non-decreasing order of expiry, although periodic timers return to the heap meanwhile |
| `TimerSchedule.OneShotOnce` | net_actor/Timer.cc:136-143 | a one-shot timer is collected at most once in a batch and is gone afterwards |
| `TimerSchedule.StandingClock` | net_actor/Timer.cc:125-144 | with a clock that stands still, exactly the timers that were due are collected, each once |
| `TimerSchedule.AgainAfterInterval` | net_actor/Timer.cc:125-144 | a timer that a batch collects twice had its whole interval pass between the two |
| `TimerSchedule.QuickBatchEnds` | net_actor/Timer.cc:125-144 | a batch that takes less time than the shortest interval collects only timers live at its start, and none twice |
| `TimerSchedule.BatchNeedNotEnd` | net_actor/Timer.cc:125-144 | with a timer of one millisecond and a clock that advances by one at each reading there are batches of every length, after which the timer is due again |
| `TimerSchedule.CancelledIsNotCollected` | net_actor/Timer.cc:51-59 | in every run, once CancelTimer returned no later collection has that id |
| `TimerSchedule.NotBeforeItsTime` | net_actor/Timer.cc:74-92 | in every run a timer set for a delay is collected at no reading before its time, and for the actor and with the message it was set for |
| `TimerSchedule.CollectedByItsTime` | net_actor/Timer.cc:125-144 | in every run a batch that leaves nothing due at a reading from that time on has it collected, by then, unless it was cancelled |
| `TimerSchedule.PeriodicComesAgain` | net_actor/Timer.cc:136-139 | in every run a periodic timer is collected again once nothing is left due a whole interval after it was armed, unless it was cancelled |
| `TimerSchedule.OneShotOnceInRun` | net_actor/Timer.cc:125-144 | in every run of adding, cancelling and collecting, a one-shot id is collected at most once |
| `TimerManager.TimerManager.addTimer` | net_actor/Timer.cc:74-92 | a fresh id is live with its deadline, counted from a clock reading inside the call; heap and map agree |
| `TimerManager.TimerManager.SetInterval` | net_actor/Timer.cc:42-49 | a period that is not positive is refused without any change |
| `TimerManager.TimerManager.CancelTimer` | net_actor/Timer.cc:51-59 | the timer is no longer live though its entry stays in the heap; heap and map agree |
| `TimerManager.TimerManager.PopDue` | net_actor/Timer.cc:126-143 | the popped entry is dropped if cancelled, else it is a legal collection: due, and the earliest live timer |
| `TimerManager.TimerManager.CollectDue` | net_actor/Timer.cc:125-144 | for every monotone clock that advances finitely often the loop ends, collects a legal batch, leaves nothing due at the last reading, and yields the messages in order |
| `TimerManager.TimerManager.Stop` | net_actor/Timer.cc:19-35 | no timer is left in heap or map |
| `OutputBuffer.Buffer.MakeSpace` | net_actor/Buffer.h:110-128 | keeps the readable bytes, makes the room, cannot fail its assertion, and respects the capacity bound |
| `OutputBuffer.Buffer.Append` | net_actor/Buffer.h:64-70 | appends to the byte queue; capacity stays within the larger of the initial size and twice the most that ever waited plus the prepend area |
| `OutputBuffer.Buffer.Retrieve` | net_actor/Buffer.h:75-90 | removes exactly the first bytes of the queue, and starts over when it empties |
| `WriteStream.PushMeans` | net_actor/ConnectionBase.cc:31-45 | a write goes on after every success and every EINTR, and stops when all is written or at the first other answer, which tells how |
| `WriteStream.DirectWhenIdle` | net_actor/ConnectionBase.cc:30-53 | when nothing waits and the socket takes it all, a payload goes straight to the wire |
| `WriteStream.ConservesIff` | net_actor/ConnectionBase.cc:25-53 | one operation conserves the stream if and only if its direct write meets no fatal error |
| `WriteStream.StreamConserved` | net_actor/ConnectionBase.cc:25-53 | over any run without such a loss, from the connecting state too, bytes written followed by bytes waiting are all payloads in order |
| `WriteStream.ArmedIff` | net_actor/ConnectionBase.cc:159-192 | one operation keeps write interest armed while bytes wait if and only if HandleWrite is not answered with zero |
| `WriteStream.WatchedIff` | net_actor/ConnectionBase.cc:159-192 | one operation keeps write interest set exactly while bytes wait or the connect is open, if and only if HandleWrite is not answered with zero |
| `WriteStream.StreamStaysArmed` | net_actor/ConnectionBase.cc:159-192 | over any run without such an answer, waiting bytes always have write interest, and once connected nothing else has |
| `WriteStream.ZeroAnswerDisarms` | net_actor/ConnectionBase.cc:181-191 | one zero answer leaves bytes waiting that no event will write |
| `WriteStream.NothingBeforeConnected` | net_actor/Connector.cc:47-89 | until the connect is completed nothing is written and all sends wait in order; the event that completes it writes nothing, and watches for writing exactly if bytes wait |
| `Connection.ConnectionBase.sendInLoop` | net_actor/ConnectionBase.cc:25-53 | the loop and the buffer do the specified send for every sequence of answers |
| `Connection.ConnectionBase.WriteBuffered` | net_actor/ConnectionBase.cc:167-190 | the write loop moves exactly what the socket takes from the buffer to the wire, and ends |
| `Connection.ConnectionBase.HandleWrite` | net_actor/ConnectionBase.cc:159-192 | the whole handler does the specified flush, interest included |
| `Connection.ConnectionBase.ConnectorHandleWrite` | net_actor/Connector.cc:47-89 | the handler of a connector completes the connect first and flushes from then on, as specified |
| `LegacyConnection.DrainConservesIff` | net/ConnectionBase.cc:69-128 | draining conserves wire, remainder and queued messages if and only if it does not give up on a message |
| `LegacyConnection.LegacyConserved` | net/ConnectionBase.cc:24-32 | over any run without giving up, wire, remainder and queue are all bytes sent, in order |
| `LegacyConnection.LegacyStaysArmed` | net/ConnectionBase.cc:24-128 | over any run everything that waits has write interest, and as long as no message is given up nothing else has |
| `LegacyConnection.WritersAgree` | net/ConnectionBase.cc:69-128 | the older and the newer writer carry the same stream for the same payloads |
| `LegacyConnection.LegacyConnectionBase.HandleWrite` | net/ConnectionBase.cc:69-128 | the loop over queue and remainder does the specified drain |
| `EventLoop.StepKeepsFifo` | net_actor/EventLoop.cc:94-137 | no step of producers or loop loses, repeats or reorders a task |
| `EventLoop.TasksRunInOrder` | net_actor/EventLoop.cc:94-137 | in every run the tasks queued by producers, callbacks and tasks, told from the events alone, are those begun, in order, then the rest of the batch, then those pending |
| `EventLoop.StopEndsLoop` | net_actor/EventLoop.cc:139-182 | a stop request stays, and the loop ends exactly when it checks and finds it, or when waiting fails |
| `EventLoop.AnyoneCanQueue` | net_actor/EventLoop.cc:94-104 | an idle producer can always queue a task or request a stop, and callbacks and tasks can queue more |
| `EventLoop.WaitsOnlyWhenAlerted` | net_actor/EventLoop.cc:71-104 | the loop never blocks on a task from another thread or a callback, nor on a stop request, unless the eventfd is readable or its producer is about to write it |
| `EventLoop.UnalertedLeftoversAreFromTasks` | net_actor/EventLoop.cc:94-104 | whatever waits while the loop sleeps unalerted was queued by pending tasks |
| `EventLoop.TaskQueuedByTaskWaits` | net_actor/EventLoop.cc:94-127 | in every run a task queued by a pending task, with no stop, no alert and no producer step meanwhile, is still pending, and the loop unalerted, when the loop waits next |
| `EventLoop.TaskQueuedByTaskSleeps` | net_actor/EventLoop.cc:100-127 | there is a run in which the loop sleeps on such a task |
| `Queues.SpinLockQueue.pop` | Util/SpinLockQueue.h:34-44 | gives the head and removes it, or nothing from an empty queue |

## Left out

- Lua actors, the Lua bridge, command line, logging, metrics, high-water marks and statistics: they depend on code that is not part of this model, or compute single values.
- Sockets, epoll, eventfd and the clock themselves: write answers, readiness and readings are oracles. A script of write answers is finite; when it is used up the socket is full.
- C++ memory order, shared pointer counts, reuse of descriptor numbers: sequential consistency, garbage collection and one lifetime per descriptor are taken instead.
- Waiting on condition variables: a worker without work polls every 10 ms in any case, so a missed notification delays and does not lose. For the same reason `EverythingIsProcessed` counts steps and not time.
- The internals of the priority queue and of the unordered maps: the heap is used by its contract, and iteration is in some order.
- Handlers as nested executions: in `Scheduler` a handler is the stay of a worker in `Handling`, during which it may send; its coroutine effects are in `Coroutines`.
- `timerLoop` after the batch: messages collected are sent one by one outside the lock, so a timer that is cancelled in between may still be delivered.
- `ClusterCallSafety`: one connection lifetime between two nodes; reconnects reset both buffers and are modelled in `ClusterGateway` only. Actors are not destroyed during a run.
- `UnregisterActor`: the class method is one operation, as `LinkActor` is; their parts are among the link operations.
- `DownMessage`: the textual content of an ActorDown message.
- Wrap-around of actor ids (2^32) and timer ids (2^64); that of sessions is in the model, and the properties of runs stay below it.
- `CollectDue`: clocks that advance for ever are not in the loop itself, which then need not end; `BatchNeedNotEnd` says so about the batches.
- `addTimer`: clock readings stay within 63 bits, and a negative deadline wraps as in the program.
- The handshake that a new connection sends, the failed and the immediate connect of a connector, the choice of an event loop, the descriptor registry, and handing a send over to the loop thread: plumbing around the parts modelled.
- `HandleRead` and the loopback transport: they pass bytes or packets on unchanged.
