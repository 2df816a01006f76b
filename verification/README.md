# PraaS in Dafny

PraaS runs serverless processes. A control plane allocates them and keeps a ledger of the
invocations that clients wait for. Each process has a controller that schedules invocations on
worker subprocesses and lets functions exchange messages; controller and workers talk over POSIX
message queues, processes and control plane over TCP. This project models the four parts whose
behaviour is hardest to see from the code and proves what holds over all of their runs.

| file | models |
|---|---|
| Wrappers.dfy, Bytes.dfy | results, fixed-width numbers and NUL-padded strings as bytes |
| Messages.dfy | the layouts of all TCP (70 bytes) and IPC (128 bytes) messages, their setters and parsers |
| Ipc.dfy | `POSIXMQChannel` and the buffer pool: fragmentation and the resumable receiver |
| Invoker.dfy, ApplicationView.dfy | `submit` to `poll`, and the replicated view of an application |
| Framing.dfy, Frames.dfy | the incremental TCP decoders of both sides, and the writers they invert |
| Notices.dfy | frames that are a header only, and what they change on either side |
| Entries.dfy | the process's TCP server over all its connections, which share an entry for each name |
| Scheduler.dfy, Mailbox.dfy | work queue and worker pool; pending requests, mailbox and state index |
| Controller.dfy | the process controller: its steps, its runs, and the object |
| Delivery.dfy, Conservation.dfy, Provenance.dfy | what the controller must do, what it must not lose, and what it must not make up |
| Deviations.dfy | runs into the states in which the controller does less than it means to |
| PeerLink.dfy | what a process sends to a peer, before and after there is a connection |
| Between.dfy | from a worker of one process to the controller of another |
| PlaneProcess.dfy, PlaneApplication.dfy | the control plane's ledger, creation callback and process life cycle |
| RequestCycle.dfy | a client's request to the process and back, and the two views of a process's status |
| RoundTrip.dfy | the same with the process controller in between: ledger, wire, controller, wire, ledger |

Code that changes state in place is a class whose methods are proved against a specification
function of the old state; the theorems are lemmas about runs of those functions. Each handler is
one atomic step. An exception or undefined behaviour that ends a component is a flag in its state
(`crashed`, `failed`, `broken`), so that its absence can be proved.

Assumptions on runs are predicates over the events, for a caller to check: workers send only while
they run an invocation and answer for that one (`Obedient`), ids are not reused while they wait in
the queue (`Unmerged`), ids, mailbox keys and state keys are different names (`Kinded`), and the
control plane's `Expected` events; and the entry of a connection is as it left it when more bytes
come (`Undisturbed`). Where the code is weaker than its intent, the exact condition is
a lemma of its own; these are named `...Iff` or `...ExactlyWhen`.

Where code and comments disagree the code is modelled. `PendingMessage` keeps an optional source,
but an invocation waiter stores an empty one; the comment in `find_invocation` speaks of the
first match, but everything under the key is taken; `remove_process` promises a removal and does
nothing.

`dafny verify dfyconfig.toml` checks the project.

## Model

| member | source | states |
|---|---|---|
| `Messages.LayoutsAreSound` | common/include/praas/common/messages.hpp:141-769 | in every message layout (TCP and IPC) the fields do not overlap, lie behind type and total length, and end inside 70 or 128 bytes |
| `Messages.TableFitsUpTo13` | process/runtime/include/praas/process/runtime/internal/ipc/messages.hpp:185-224 | the table of buffer lengths stays inside the 128-byte header exactly for at most 13 entries, although 16 are accepted |
| `Messages.PutReadsBack` | common/include/praas/common/messages.hpp:223-267 | what a setter writes, its getter reads, and a shorter string replaces a longer one completely |
| `Messages.PutLeavesOthers` | common/include/praas/common/messages.hpp:675-760 | a setter does not change what any other field reads as |
| `Messages.ParsedFieldsAreTheLastSet` | common/include/praas/common/messages.hpp:769-822 | after any sequence of setter calls, refused ones included, parsing gives the type and every field reads as the last value accepted for it |
| `Messages.Message.constructor` | process/runtime/include/praas/process/runtime/internal/ipc/messages.hpp:30-60 | a new message is its type followed by zero bytes |
| `Messages.Message.Set` | process/runtime/src/internal/messages.cpp:103-142 | a setter throws exactly for too long a string, and otherwise changes the bytes as specified |
| `Messages.Message.CopyString` | common/include/praas/common/messages.hpp:250-262 | the byte loop of `strncpy` pads with zeros and touches no byte outside the field |
| `Messages.Message.Store` | common/include/praas/common/messages.hpp:170-185 | a number is stored in its own bytes only |
| `Messages.Message.SetBuffers` | process/runtime/include/praas/process/runtime/internal/ipc/messages.hpp:204-224 | the loop that writes the length table: refuses more than 16 lengths, leaves the header's bounds from 14 on, and otherwise writes count and lengths |
| `Messages.EntryReadsBack` | process/runtime/src/internal/messages.cpp:144-156 | each table entry reads as the length written there, up to 13 entries |
| `Bytes.DecodeEncodeNum` | common/include/praas/common/messages.hpp:170-180 | a number in range reads back from its little-endian bytes |
| `Bytes.ReadBack` | common/include/praas/common/messages.hpp:250-262 | a string of at most the field's width reads back up to its first NUL |
| `Ipc.BufferQueue.RetrieveBuffer` | process/runtime/include/praas/process/runtime/internal/buffer.hpp:150-163 | which buffer is handed out, with the comparison of the queue's count instead of the buffer's capacity |
| `Ipc.BufferQueue.ReturnBuffer` | process/runtime/include/praas/process/runtime/internal/buffer.hpp:165-169 | a buffer comes back empty, at the end of the queue |
| `Ipc.LargeRequestsGetCapacity` | process/runtime/include/praas/process/runtime/internal/buffer.hpp:141-163 | from a pool of n buffers, over every sequence of retrievals, a request for at least n gets its capacity and an empty buffer |
| `Ipc.TooSmallExactlyWhen` | process/runtime/include/praas/process/runtime/internal/buffer.hpp:158-160 | the buffer handed out is too small exactly when the request is below the number of pooled buffers and above the front buffer's size |
| `Ipc.StampIsAPacket` | process/runtime/src/internal/ipc.cpp:145-160 | the header sent states the payload's length exactly below 2 GiB |
| `Ipc.ChunksFlatten` | process/runtime/src/internal/ipc.cpp:168-192 | the datagrams of a payload are non-empty, at most `_msg_size` long and concatenate to it |
| `Ipc.ReceiveKeepsTrack` | process/runtime/src/internal/ipc.cpp:216-276 | one `receive` call, with the queue running empty anywhere, keeps what was read plus what is on the way equal to what is still due, and completes a packet only with its bytes |
| `Ipc.NothingStuck` | process/runtime/src/internal/ipc.cpp:216-276 | when all datagrams have arrived and something is due, a call completes it |
| `Ipc.DeliveredInOrder` | process/runtime/src/internal/ipc.cpp:117-307 | for every interleaving of sends, arrivals and `receive` calls no call fails, no write passes the buffer, and the messages delivered are the first messages sent, byte for byte |
| `Ipc.CutHeadersFail` | process/runtime/src/internal/ipc.cpp:216-237 | with a message size below 128 every receive of a message throws, whether or not the rest of its header is there |
| `Ipc.Channel.SendBytes` | process/runtime/src/internal/ipc.cpp:168-192 | the fragmentation loop puts exactly the specified datagrams on the queue |
| `Ipc.Channel.Send` | process/runtime/src/internal/ipc.cpp:145-160 | header and payload buffers reach the queue as the packet's datagrams |
| `Ipc.Channel.Recv` | process/runtime/src/internal/ipc.cpp:290-307 | the reading loop takes whole datagrams until enough is there or the queue is empty, and never writes past the room it has |
| `Ipc.Channel.ReceiveMessage` | process/runtime/src/internal/ipc.cpp:216-276 | `receive` with its state kept between calls does what the receiver's specification does |
| `Ipc.Channel.ReceivePayload` | process/runtime/src/internal/ipc.cpp:239-275 | the payload half of `receive`, resumed where the last call stopped |
| `Invoker.Submit` | process/controller/src/workers.cpp:275-297 | table, vector send and fragmentation put the invocation's packet on the queue; more than 13 buffers fail |
| `Invoker.HeaderReadsBack` | process/runtime/include/praas/process/runtime/internal/ipc/messages.hpp:204-224 | key, function and every length read back from an invocation's header |
| `Invoker.InvocationReadsBack` | process/runtime/src/internal/ipc.cpp:145-160 | they still do after `send` has added the total length |
| `Invoker.SplitRestoresParts` | process/runtime/src/internal/invoker.cpp:66-86 | the total-length check passes and cutting the input at the declared lengths restores the buffers |
| `Invoker.ArgumentsArrive` | process/runtime/src/internal/invoker.cpp:40-115 | end to end: for at most 13 buffers of any lengths and any queue message size from 128 on, the worker's arguments are exactly the submitted buffers, in order and byte for byte |
| `Invoker.TakenIffInside` | process/runtime/src/internal/invoker.cpp:66-86 | a worker takes an invocation with lengths that are not negative exactly if all its arguments lie inside the input |
| `Invoker.PollSkipsOthers` | process/runtime/src/internal/invoker.cpp:40-115 | messages of any other type are skipped |
| `Invoker.UpdateReadsBack` | process/controller/src/controller.cpp:238-256 | an application update reads back from its header, although one message object is reused for all updates |
| `Invoker.WorkersSeeTheControllersView` | process/controller/src/controller.cpp:238-256 | the worker that gets the next invocation behind a broadcast has the controller's view of the application, with itself in front |
| `Invoker.Worker.ReceiveBlocking` | process/runtime/src/internal/ipc.cpp:194-214 | `blocking_receive` on the worker's input buffer |
| `Invoker.Worker.TotalLength` | process/runtime/src/internal/invoker.cpp:66-75 | the sum of the declared lengths |
| `Invoker.Worker.SplitInput` | process/runtime/src/internal/invoker.cpp:80-87 | the loop that advances the pointer and appends arguments |
| `Invoker.Worker.PollInvocation` | process/runtime/src/internal/invoker.cpp:40-115 | the polling loop: applies updates, skips the rest, stops at an invocation or an error, as specified |
| `ApplicationView.Application.Update` | common/include/praas/common/application.hpp:20-38 | appends an active process, or moves the first entry of that name to the swapped list |
| `ApplicationView.AnnouncedAreListed` | common/include/praas/common/application.hpp:20-38 | as multisets, active plus swapped is what was there plus the names announced active |
| `ApplicationView.ListsFollowTheUpdates` | common/include/praas/common/application.hpp:20-38 | after any updates each name is in the active and in the swapped list as often as the announcements alone say; swapping one that is not active changes nothing |
| `ApplicationView.UpdateKeepsAgreementIff` | process/runtime/src/internal/invoker.cpp:36-37 | one update keeps worker and controller in step exactly if it does not swap the process itself, or the controller has it in front too |
| `ApplicationView.ReplicasAgree` | process/controller/src/controller.cpp:238-256 | after any updates that do not name the process the two views agree |
| `Framing.MoreBytesSameStep` | control-plane/src/tcpserver.cpp:124-182 | a decoding step does not depend on bytes behind it |
| `Framing.ChunkingDoesNotMatter` | control-plane/src/tcpserver.cpp:92-182 | feeding a then b gives the same events, registration, `bytes_to_read`, `cur_msg` and rest as feeding both |
| `Framing.FeedingIsDecoding` | control-plane/src/tcpserver.cpp:124-182 | so does any division of a stream into chunks |
| `Framing.DecodeEndsStuck` | control-plane/src/tcpserver.cpp:124-182 | decoding stops only where nothing can be done with the bytes there are |
| `Framing.EverythingIsInPlace` | control-plane/src/tcpserver.cpp:131-271 | whatever bytes come: only names waited for register, at a process each connection once; messages are taken as from whoever registered last; before a registration they are dropped; and an unknown name registers nobody |
| `Framing.StrangersAreDropped` | control-plane/src/tcpserver.cpp:131-150 | before a registration each whole header is dropped, and a payload behind it is read as further headers |
| `Framing.PlaneConnection.HandleInvocationResult` | control-plane/src/tcpserver.cpp:92-122 | starts or resumes a result frame as the reference decoder does, and tells whether it was consumed |
| `Framing.PlaneConnection.HandleHeader` | control-plane/src/tcpserver.cpp:184-271 | one event for each frame without payload; `Notices.FramesReachTheirHandlers` says what becomes of it |
| `Framing.PlaneConnection.HandleMessage` | control-plane/src/tcpserver.cpp:124-182 | the recursive handler terminates and is the reference decoder |
| `Framing.PlaneConnection.Receive` | control-plane/src/tcpserver.cpp:44-48 | a chunk is appended and decoded |
| `Framing.HandledSoFarAndUnread` | process/controller/src/remote.cpp:159-261 | process side: frames handled in a call, then what the reference decoder makes of the unread bytes, are what it makes of all bytes |
| `Framing.NothingLostInChunks` | process/controller/src/remote.cpp:159-261 | the same over any number of chunks that are handled one after the other, from whatever frame the entry is in; `Entries.SharingIsHarmless` says when they are although other connections share the entry |
| `Framing.LagsBehindIff` | process/controller/src/remote.cpp:198-219 | the process leaves a frame undecoded until the next chunk exactly when it resumed a payload, its own or the one it finds in its name's entry, and a whole header follows it: the visitor's result is discarded there |
| `Framing.ProcessConnection.HandlePayload` | process/controller/src/remote.cpp:263-380 | the three payload handlers, from a header or resumed |
| `Framing.ProcessConnection.HandleHeader` | process/controller/src/remote.cpp:166-186 | a registration takes over the `bytes_to_read` and `cur_msg` of the name's entry; frames without payload; anything else before a registration is dropped |
| `Framing.ProcessConnection.HandleFrame` | process/controller/src/remote.cpp:214-250 | the part of the handler for a new header is the specification's next step |
| `Framing.ProcessConnection.HandleMessage` | process/controller/src/remote.cpp:159-261 | the process's handler is its specification: early stop after a resumed payload, continuation after a registration |
| `Framing.ProcessConnection.Receive` | process/controller/src/remote.cpp:33-37 | a chunk is appended and handled |
| `Frames.ReadInvertsWrite` | process/controller/src/remote.cpp:525-547 | every frame the process writes announces its payload and reads back with all its fields |
| `Frames.DecodesWhatWasWritten` | process/controller/src/remote.cpp:442-479 | the reference decoder of either side turns concatenated frames back into those frames |
| `Frames.ResultsReachTheControlPlane` | control-plane/src/tcpserver.cpp:92-271 | a registration followed by results, swap confirmations, metrics and a closure arrives as exactly that, however the stream is cut |
| `Frames.FramesReachTheProcess` | process/controller/src/remote.cpp:159-380 | from an entry between frames that no other connection moves: frames handed on plus those still unread are the frames the peer wrote |
| `Frames.StreamsDecodeIff` | process/controller/src/remote.cpp:188-261 | every stream of frames of a registered process decodes to those frames exactly if its entry waits for no payload |
| `Frames.SecondFrameWaits` | process/controller/src/remote.cpp:198-219 | a concrete family where a complete second frame stays undelivered |
| `Notices.FramesReachTheirHandlers` | control-plane/src/tcpserver.cpp:183-239 | however a process's stream is cut, its results go to the ledger, its swap confirmations to `swapped_process`, its closure to `closed_process` and its reports to the metrics, in order and with their values |
| `Notices.ConfirmedThenGoodbye` | control-plane/src/application.cpp:233-291 | so a process that was asked to swap, confirms it and says goodbye is closed, in the swapped map and no longer active |
| `Notices.GoodbyeAlone` | control-plane/src/application.cpp:261-291 | and one that says goodbye without confirming has failed and is in neither map |
| `Notices.MetricsAreTheLatest` | control-plane/src/process.cpp:100-111 | whatever the clock does, the metrics kept are those of the report with the latest reading |
| `Notices.ProcessMetrics.constructor` | control-plane/include/praas/control-plane/process.hpp:44-52 | no metrics yet |
| `Notices.ProcessMetrics.Update` | control-plane/src/process.cpp:100-111 | a report replaces the metrics unless the clock went back |
| `Notices.FramesArePassed` | process/controller/src/remote.cpp:214-250 | at a process: requests, results and puts go to the controller, updates to the application's view, confirmations and all other types nowhere |
| `Notices.OnlyProcessesPut` | process/controller/src/remote.cpp:308-380 | a put or a result is passed on exactly if it comes from a process; from the data or control plane it ends the decoder |
| `Notices.AnnouncementsArrive` | process/controller/src/remote.cpp:481-505 | whatever else comes and however the stream is cut, a process applies exactly the updates announced to it, in order |
| `Entries.EntryIff` | process/controller/src/remote.cpp:382-505 | on every run the server has an entry for exactly the names that were announced or that some connection took |
| `Entries.ConfirmedOnRegistration` | process/controller/src/remote.cpp:382-439 | on every run a connection is confirmed when it gets its context by registering, and at no other time |
| `Entries.ClientTakesTheEntry` | process/controller/src/remote.cpp:613-642 | an entry's client takes it once connected, without a context of its own |
| `Entries.NoPlaneNoResults` | process/controller/src/remote.cpp:127-131 | once the control plane's connection has ended, results for it go nowhere, until one is made or registers under its name |
| `Entries.StepKeepsSound` | process/controller/src/remote.cpp:382-505 | every event keeps: an entry waits for a payload only behind a header that announces one, carries its own name, and points to the connection that last took it; a connection with a context once took the entry it names |
| `Entries.ResultReachesIff` | process/controller/src/remote.cpp:382-479 | on every run, a result reaches the peer its request came from exactly if that peer is at the end of the connection that last took the entry of the request's connection, by registering under its name or as its client |
| `Entries.NoNullPointer` | process/controller/src/remote.cpp:442-479 | on every run, a result for a request that came over a registered connection never goes through a null pointer |
| `Entries.ConfirmationTakesTheEntry` | process/controller/src/remote.cpp:166-439 | the confirmation that arrives on our own client's connection, which has no context, registers it under the confirmation's name, is confirmed back, and takes that entry's pointer |
| `Entries.SecondConfirmationDiverts` | process/controller/src/remote.cpp:600-658 | once a second client of ours is confirmed, results for requests of the first one's peer no longer reach it |
| `Entries.DecodesAlikeIff` | process/controller/src/remote.cpp:188-261 | two decoder states hand on the same for all bytes exactly if both are between frames or in the same frame with as much missing |
| `Entries.SharingIsHarmless` | process/controller/src/remote.cpp:388-405 | over any run of all connections, interleaved in any way, a connection whose entry is as it left it whenever bytes come is decoded as if it were alone: same frames handed on, same bytes unread |
| `Entries.AloneIsUndisturbed` | process/controller/src/remote.cpp:388-432 | so is a connection that shares its name with no other |
| `Entries.FramesReachOverAnyRun` | process/controller/src/remote.cpp:159-380 | among any number of connections, what was handed on for one with an undisturbed entry and what its unread bytes decode to are the frames written on it |
| `Entries.PayloadFromAnother` | process/controller/src/remote.cpp:188-212 | a header that came over one connection is completed by whatever bytes come over another one of its name |
| `Entries.PayloadStolen` | process/controller/src/remote.cpp:388-405 | a run that does it: two clients register under one name, the first sends a header, and the second's bytes are handed on as its payload |
| `Entries.TcpServer.constructor` | process/controller/src/remote.cpp:18-59 | a server without connections |
| `Entries.TcpServer.Accept` | process/controller/src/remote.cpp:23-32 | a connection without a context |
| `Entries.TcpServer.HandleAppUpdate` | process/controller/src/remote.cpp:481-505 | an application update makes an entry without a connection, or finds one |
| `Entries.TcpServer.ClientConnected` | process/controller/src/remote.cpp:613-642 | the entry's pointer is set to the client's connection, whose context is not |
| `Entries.TcpServer.PlaneConnected` | process/controller/src/remote.cpp:92-127 | the control plane's own entry, with pointer and context set |
| `Entries.TcpServer.PlaneDisconnected` | process/controller/src/remote.cpp:127-131 | the pointer to the control plane's entry is reset |
| `Entries.TcpServer.HandleConnection` | process/controller/src/remote.cpp:382-439 | finds or makes the entry, points it to the connection, sets the context and confirms |
| `Entries.TcpServer.Receive` | process/controller/src/remote.cpp:159-261 | the handler runs with what the entry keeps and leaves there what it keeps |
| `Entries.TcpServer.SendResult` | process/controller/src/remote.cpp:442-479 | the connection that a result goes to |
| `Scheduler.WorkQueue.constructor` | process/controller/src/workers.cpp:21-101 | an empty queue |
| `Scheduler.WorkQueue.AddPayload` | process/controller/src/workers.cpp:21-65 | extends an invocation still waiting, refuses an unknown function or a running id, or queues a new invocation |
| `Scheduler.WorkQueue.Next` | process/controller/src/workers.cpp:67-84 | takes the front of the queue |
| `Scheduler.WorkQueue.Finish` | process/controller/src/workers.cpp:86-101 | takes out an invocation only if it runs |
| `Scheduler.Workers.constructor` | process/controller/src/workers.cpp:226-253 | all workers idle |
| `Scheduler.Workers.GetIdleWorker` | process/controller/src/workers.cpp:255-268 | the search loop finds the first worker that is not busy, unless the counter is 0 |
| `Scheduler.Workers.Submit` | process/controller/src/workers.cpp:275-297 | succeeds exactly when a worker is idle and the header can describe the payload, and then marks one worker and the invocation |
| `Scheduler.Workers.Finish` | process/controller/src/workers.cpp:299-306 | frees the worker and counts it |
| `Scheduler.AddKeepsInv` | process/controller/src/workers.cpp:21-65 | adding keeps queue, pool and arrival order in agreement |
| `Scheduler.DispatchOneKeepsInv` | process/controller/src/workers.cpp:255-297 | so does a round of the dispatch loop, which always finds a worker |
| `Scheduler.CompleteKeepsInv` | process/controller/src/workers.cpp:86-101 | so does a worker's result, and the invocation it names is found |
| `Scheduler.RunningAreBusy` | process/controller/src/workers.cpp:255-306 | running invocations = workers minus the idle counter, which stays between 0 and the number of workers |
| `Scheduler.LoopDispatchesThePrefix` | process/controller/src/controller.cpp:512-523 | the dispatch loop submits exactly the first min(idle, pending) invocations in queue order, the i-th to the i-th idle worker, and ends with no idle worker or an empty queue |
| `Scheduler.LoopCrashesExactlyWhen` | process/controller/src/controller.cpp:512-523 | it crashes exactly when it comes to a payload of more than 13 buffers |
| `Mailbox.PendingMessages.InsertGet` | process/controller/src/messages.cpp:18-29 | registers a worker under key and source, wherever the multimap puts it among equal keys |
| `Mailbox.PendingMessages.InsertInvocation` | process/controller/src/messages.cpp:31-37 | registers a worker under an invocation id, wherever the multimap puts it |
| `Mailbox.PendingMessages.FindGet` | process/controller/src/messages.cpp:39-61 | takes out the first waiter met under the key that accepts the source, or none |
| `Mailbox.PendingMessages.FindInvocation` | process/controller/src/messages.cpp:63-76 | takes out everything under the key |
| `Mailbox.SplitByKey` | process/controller/src/messages.cpp:63-76 | taking the waiters under a key loses none and duplicates none |
| `Mailbox.MessageStore.Put` | process/controller/src/messages.cpp:78-84 | stores only under a free key |
| `Mailbox.MessageStore.WriteStateKey` | process/controller/src/messages.cpp:86-104 | overwrites, and stamps the index entry found by the search loop, or fails at its end |
| `Mailbox.MessageStore.TryGet` | process/controller/src/messages.cpp:111-126 | takes a message out if the source is accepted |
| `Mailbox.MessageStore.TryState` | process/controller/src/messages.cpp:128-137 | reads without removing |
| `Mailbox.StateWriteKeepsIndexIff` | process/controller/src/messages.cpp:86-104 | a state write keeps the index right, and runs past its end exactly when the key holds a mailbox message |
| `Mailbox.GetKeepsIndexIff` | process/controller/src/messages.cpp:111-126 | a get breaks the index exactly when it names a state key with source ANY or none |
| `ProcessController.Controller.constructor` | process/controller/src/controller.cpp:129-170 | an idle controller |
| `ProcessController.Controller.SendToWaiters` | process/controller/src/controller.cpp:657-677 | the loop that answers every worker waiting for a result |
| `ProcessController.Controller.Resolve` | process/controller/src/controller.cpp:644-678 | a result goes to the network for a remote source, to the waiting workers otherwise |
| `ProcessController.Controller.AddRequest` | process/controller/src/controller.cpp:271-288 | a request is queued or its refusal is sent where a result would go |
| `ProcessController.Controller.AcceptMessage` | process/controller/src/controller.cpp:307-337 | a message goes to the first waiting worker or into the mailbox, or is dropped |
| `ProcessController.Controller.ProcessExternal` | process/controller/src/controller.cpp:258-343 | the handler of network messages is its specification |
| `ProcessController.Controller.FinishInvocation` | process/controller/src/controller.cpp:680-698 | a worker's result closes the invocation, goes to its source and frees the worker |
| `ProcessController.Controller.ProcessInvocation` | process/controller/src/controller.cpp:549-581 | the caller is registered first; then the request goes to the queue or to the other process |
| `ProcessController.Controller.ProcessPut` | process/controller/src/controller.cpp:606-642 | a put here or elsewhere, with SELF resolved |
| `ProcessController.Controller.ProcessState` | process/controller/src/controller.cpp:592-604 | a state write |
| `ProcessController.Controller.ProcessGet` | process/controller/src/controller.cpp:401-427 | a get is answered from the mailbox or waits under the resolved source |
| `ProcessController.Controller.ProcessMessage` | process/controller/src/controller.cpp:365-427 | the message and state cases of the worker handler |
| `ProcessController.Controller.ProcessInternal` | process/controller/src/controller.cpp:345-432 | the handler of worker messages is its specification |
| `ProcessController.Controller.SubmitNext` | process/controller/src/controller.cpp:512-523 | one round of the dispatch loop |
| `ProcessController.Controller.DispatchPending` | process/controller/src/controller.cpp:512-523 | the loop in place ends in the state of the specified loop |
| `ProcessController.Controller.WakeUp` | process/controller/src/controller.cpp:449-523 | a wake-up handles the queued messages in order and then dispatches |
| `ProcessController.RunsContinue` | process/controller/src/controller.cpp:434-530 | steps taken in place extend the runs the theorems speak about |
| `ProcessController.SchedulerStaysSound` | process/controller/src/workers.cpp:21-101 | over every run of workers that answer for what they run, the pending list is duplicate-free, in arrival order, holds exactly the invocations that do not run, and busy workers and running invocations correspond one to one |
| `ProcessController.KindsStayApart` | process/controller/src/messages.cpp:63-89 | waiters and stored messages keep the kinds of their names |
| `ProcessController.GetsMeetPuts` | process/controller/src/controller.cpp:307-427 | no reachable state stores a message that a worker waits for |
| `ProcessController.StateWriteMissesExactlyWhen` | process/controller/src/messages.cpp:86-89 | a state write is stored past a waiting worker exactly when one waits there for any source or the empty one |
| `ProcessController.IndexFollowsTheWrites` | process/controller/src/messages.cpp:86-109 | over every run the state index lists the state keys written, once each, in first-write order with the latest time, and the store has the latest values |
| `ProcessController.StateReadsBack` | process/controller/src/controller.cpp:371-399 | a state read answers with the latest value written and leaves everything as it is |
| `Delivery.RemoteResultIsDelivered` | process/controller/src/controller.cpp:286-305 | on every run, a result of another process is sent to each worker as often as it waits under the id, with its code and bytes; nobody waits under the id any more, everybody else still does, and nothing else is sent |
| `Delivery.WorkerResultIsDelivered` | process/controller/src/controller.cpp:644-698 | on every obedient run, a worker's result goes to the recorded source: one reply over the network, or one answer to each waiting worker; the invocation is gone and the worker free |
| `Delivery.EverythingIsPassedOn` | process/controller/src/controller.cpp:549-642 | on every run, the messages and requests handed to the server are exactly those that workers gave for other processes, in order |
| `Delivery.PutIsDelivered` | process/controller/src/controller.cpp:307-337 | a message goes to one worker that waits for it; with nobody waiting it is kept, and dropped exactly if its key is taken |
| `Delivery.PutThenGetIff` | process/controller/src/controller.cpp:401-427 | what was kept is what the next get is given, exactly if that asks for anybody or for its sender; otherwise the get waits |
| `Delivery.StateListsTheWrites` | process/controller/src/controller.cpp:371-399 | on every run, listing the state answers with the keys written, once each, in first-write order with the latest time |
| `Delivery.RefusedExactlyWhen` | process/controller/src/workers.cpp:21-65 | on every obedient run, a network request is refused, with the reason, exactly if its id does not wait and its function is unknown or a worker runs the id; otherwise it is last in the queue or joins the one that waits |
| `Delivery.CallerIsToldWhy` | process/controller/src/controller.cpp:549-581 | a worker's request is refused for the same reasons, and then everybody who waits under the id is told; otherwise it waits |
| `Delivery.PayloadsAreGivenInOrder` | process/controller/src/workers.cpp:21-65 | on every obedient run, the payloads of requests under an id are given to workers once each, in order, or wait: also when requests are merged |
| `Conservation.ResultsBalanceIff` | process/controller/src/messages.cpp:63-76 | answering the waiters under an id balances exactly when nobody waits for a message under that name |
| `Conservation.RequestedBalances` | process/controller/src/controller.cpp:264-288 | a request is refused with a reply or held, unless it is merged |
| `Conservation.RequestLostExactlyWhenMerged` | process/controller/src/workers.cpp:28-32 | a remote request is accounted for exactly when no invocation of its id still waits in the queue |
| `Conservation.AcceptedBalances` | process/controller/src/controller.cpp:307-337 | a put is delivered once, dropped once or stored once |
| `Conservation.GotBalances` | process/controller/src/controller.cpp:401-427 | a get is served once or waits once |
| `Conservation.InvokedBalances` | process/controller/src/controller.cpp:549-581 | a worker's request is answered once or waits once |
| `Conservation.FinishedBalances` | process/controller/src/controller.cpp:680-698 | finishing pays off what it takes out |
| `Conservation.EveryRequestOnce` | process/controller/src/controller.cpp:258-698 | over every run: requests made = settled + still held, for remote invocations per source and id, local ones per worker and id, gets per worker and key, and messages per key and content |
| `Conservation.WaitersHaveInvocations` | process/controller/src/controller.cpp:549-581 | on every run without merged ids, whoever waits for a result this process is to produce has its id in `_active_invocations`, with a local source; whoever waits for another process's result has a request that was handed to the server and is unanswered |
| `Conservation.NobodyWaitsForAnAnswer` | process/controller/src/controller.cpp:286-305 | on every run, whoever waits for another process's result waits under an id that was asked elsewhere and not answered since |
| `Conservation.MergedCallerServedIff` | process/controller/src/workers.cpp:28-32 | a merged local request leaves its caller without a result exactly when the invocation it joins answers elsewhere |
| `Conservation.NoRunCrashes` | process/controller/src/controller.cpp:434-530 | no run ends in a dangling pointer, a null worker or an out-of-bounds write |
| `Conservation.AtRestAllIsAnswered` | process/controller/src/controller.cpp:644-698 | when nothing is queued and no worker is busy, every remote request has had its result, and so has every worker's request under an id that no other process was asked for without having answered since |
| `Provenance.NothingIsMadeUp` | process/controller/src/controller.cpp:258-698 | over every run, without assumptions: results carry the code and bytes of a result under that id and go to somebody who asked, messages delivered were put under that key by a source the receiver accepts, and what is dispatched under an id was requested under it |
| `PeerLink.EveryFrameOnce` | process/controller/src/remote.cpp:442-658 | frames given for a peer, and the registrations and confirmations owed to it, = written + waiting + given to an ended connection + dropped for want of an entry, each once, in any order of events |
| `PeerLink.KnownIffIntroduced` | process/controller/src/remote.cpp:481-505 | the server has an entry for a peer exactly from its announcement or registration on |
| `PeerLink.PassedOnIff` | process/controller/src/remote.cpp:508-561 | a request is passed on exactly when its peer was introduced before; otherwise it is logged and dropped, and whoever waits for its result waits in vain |
| `PeerLink.NothingLostWhileOpen` | process/controller/src/remote.cpp:600-658 | before a disconnection nothing is lost |
| `PeerLink.LosesExactlyWhen` | process/controller/src/remote.cpp:644-650 | a frame is lost exactly when the connection pointer names a connection that ended: the disconnection does not reset it |
| `PeerLink.LostIffEnded` | process/controller/src/remote.cpp:600-658 | on every run, a frame for a known peer is lost exactly if the last connection with it, whoever made it, has ended; it waits exactly while there was none, and is written otherwise |
| `PeerLink.StatusIsTheLast` | process/controller/src/remote.cpp:508-658 | on every run the status is that of the last connection, whoever made it, or connecting from the first frame for a known peer on |
| `PeerLink.ConnectsOnce` | process/controller/src/remote.cpp:508-613 | a peer is connected to at most once, and messages wait only while that is under way |
| `PeerLink.NullPointerIff` | process/controller/src/remote.cpp:442-479 | on every run, a result goes through a null pointer exactly if the peer was introduced and no connection with it was ever made |
| `PeerLink.LinksStay` | process/controller/src/remote.cpp:442-479 | so it never does if results under the peer's name are given only after a connection with the peer was made; a request that came over our own client's connection is recorded under the confirmation's name, see `Entries.ResultReachesIff` |
| `PeerLink.WireKeepsOrder` | process/controller/src/remote.cpp:600-642 | without a connection from the peer's side the wire carries our registration and then the frames given since the peer was introduced, in order, and among them, where the peer's confirmation came, one header that confirms it back |
| `PeerLink.GivenFramesArrive` | process/controller/src/remote.cpp:159-658 | end to end between two processes: a peer whose entry of our name is between frames has handed on, or holds unread, our registration and exactly the frames given since it was introduced, in order, with one confirmation among them where its own came |
| `PeerLink.Connection.SubmitFrame` | process/controller/src/remote.cpp:508-598 | drops a put or an invocation for an unknown peer, sends or keeps it otherwise, connecting if needed; too long a name throws before anything changes |
| `PeerLink.Connection.KeepPending` | process/controller/src/remote.cpp:521-536 | a message without a connection is kept behind the others, and the first one starts the client |
| `PeerLink.Connection.SendResult` | process/controller/src/remote.cpp:442-479 | sends a result on the connection there is, and ignores an unknown recipient |
| `PeerLink.Connection.Flush` | process/controller/src/remote.cpp:630-640 | the loop over the pending messages writes them all, in order |
| `PeerLink.Connection.OnOpened` | process/controller/src/remote.cpp:613-642 | registers, then flushes |
| `PeerLink.Connection.OnConfirmed` | process/controller/src/remote.cpp:166-439 | the first confirmation on our connection is answered with one, the next ones are only logged |
| `PeerLink.Connection.OnClosed` | process/controller/src/remote.cpp:643-650 | only the status changes |
| `PeerLink.Connection.OnRegistered` | process/controller/src/remote.cpp:382-439 | a connection from the peer replaces the pointer, of the entry there is or of a new one, and is confirmed |
| `PeerLink.Connection.OnAnnounced` | process/controller/src/remote.cpp:481-505 | an application update makes an entry |
| `PlaneProcess.EveryRequestIsOpenOrAnswered` | control-plane/src/process.cpp:133-223 | on every run the counter equals the list's length, and every request is in the list or was answered, exactly once, by a result naming it |
| `PlaneProcess.RequestsAreSentInOrder` | control-plane/src/process.cpp:76-175 | each request is sent at most once, in client order, with what its client gave; nothing before registration; and the connection is there when it is used |
| `PlaneProcess.AllocatedMeansSubmitted` | control-plane/src/process.cpp:76-155 | if all function names fit, an allocated process has nothing unsent |
| `PlaneProcess.MarksAreTrue` | control-plane/src/process.cpp:133-175 | on every run an open invocation is marked as submitted exactly when it is on the wire |
| `PlaneProcess.UnsentExactlyWhen` | control-plane/src/process.cpp:133-164 | a request to an allocated process stays unsent exactly when its function name is too long |
| `PlaneProcess.ConnectSendsAllIff` | control-plane/src/process.cpp:76-92 | registration sends everything that waited exactly when all names fit |
| `PlaneProcess.SendFromMarks` | control-plane/src/process.cpp:148-155 | the sending loop gets to its end exactly when no name throws, and then everything is marked |
| `PlaneProcess.ResultsFindTheirRequest` | control-plane/src/process.cpp:187-223 | a result answers the first request with its 16-character prefix, so with different prefixes the one it names |
| `PlaneProcess.CreationReportedAtMostOnce` | control-plane/src/process.cpp:225-267 | in every order of events the creation callback fires at most once, with success only when a handle is set and, if asked for, after registration |
| `PlaneProcess.CreationReportedOnce` | control-plane/src/process.cpp:225-267 | once backend success and registration have both happened it has fired exactly once, if the application leaves the process alone in between |
| `PlaneProcess.ReportedAtTheDecision` | control-plane/src/process.cpp:234-267 | on every run, the creation is reported at the first event that decides it: a failed backend, its answer where nobody waits for more, or the registration of a process it has answered for; with the outcome of that event, or the one returned last |
| `PlaneProcess.NothingReportedBefore` | control-plane/src/process.cpp:234-267 | and not before such an event |
| `PlaneProcess.FailureIsReported` | control-plane/src/application.cpp:98-104 | on every run with a failed allocation the callback was called exactly once, and with the refusal unless it had been called before |
| `PlaneProcess.HandleIsReturned` | control-plane/src/application.cpp:84-92 | the instance kept is the one the backend returned last |
| `PlaneProcess.ReportLostExactlyWhen` | control-plane/src/process.cpp:247-249 | a backend answer after registration is reported exactly if the process is still allocated or nobody waits for that |
| `PlaneProcess.Process.constructor` | control-plane/src/process.cpp:225-232 | a process being allocated |
| `PlaneProcess.Process.SendInvocation` | control-plane/src/process.cpp:157-175 | sends and marks one entry, or throws before doing either |
| `PlaneProcess.Process.AddInvocation` | control-plane/src/process.cpp:133-146 | appends, counts, and sends at once if allocated |
| `PlaneProcess.Process.SendInvocations` | control-plane/src/process.cpp:148-155 | the loop in place is the specified one |
| `PlaneProcess.Process.Register` | control-plane/src/process.cpp:76-92 | `connect`: throws unless allocating, and when a name does not fit |
| `PlaneProcess.Process.CreatedCallback` | control-plane/src/process.cpp:234-267 | reports according to handle, wish and status, and clears the callback |
| `PlaneProcess.Process.FinishInvocation` | control-plane/src/process.cpp:187-223 | searches, answers and erases |
| `PlaneProcess.Process.BackendAnswered` | control-plane/src/application.cpp:80-106 | the allocation callback's part in the process |
| `PlaneProcess.Process.CloseConnection` | control-plane/src/process.cpp:94-98 | closed and disconnected |
| `PlaneApplication.LifecycleIsSafe` | control-plane/src/application.cpp:64-312 | on every expected run the maps are disjoint and keyed by the processes' names, the active one holds exactly the allocating, allocated and swapping processes, the swapped one only processes with a location, and deletion never dereferences a missing one |
| `PlaneApplication.StatusesFollow` | control-plane/src/application.cpp:195-291 | every step moves every status one step along the life cycle, or to failure from allocated or swapping out |
| `PlaneApplication.StatusesNeverGoBack` | control-plane/src/application.cpp:195-291 | over whole runs a status never goes back and a final one never changes |
| `PlaneApplication.CreationSucceedsIff` | control-plane/src/application.cpp:38-80 | a process can be created exactly under a proper name that no process being allocated, running or swapping out has, with resources the backend offers; it is then active and expected, unless an earlier one of the name never registered |
| `PlaneApplication.FailedNameCannotReturn` | control-plane/src/application.cpp:98-104 | a failed allocation frees the name in the application but not in the TCP server, and creating the name again ends its event loop |
| `PlaneApplication.SwapSucceedsIff` | control-plane/src/application.cpp:195-231 | a swap succeeds exactly for an allocated process whose path fits if it is connected; in any other state nothing changes |
| `PlaneApplication.ConfirmationSucceedsIff` | control-plane/src/application.cpp:233-259 | a swap confirmation succeeds exactly for an active process that swaps out, and then moves it; otherwise nothing changes |
| `PlaneApplication.DeletionSucceedsIff` | control-plane/src/application.cpp:293-312 | a deletion succeeds exactly for a name in the swapped map; then it is in neither map, nothing else has changed, and a second one fails |
| `PlaneApplication.SwappedIffKept` | control-plane/src/application.cpp:233-312 | over every expected run the swapped map holds exactly the names whose swap was confirmed and that were not deleted since |
| `PlaneApplication.SwappedStays` | control-plane/src/application.cpp:233-312 | and under each the same process until then |
| `PlaneApplication.AddKeepsDisjointIff` | control-plane/src/application.cpp:68-76 | a new process keeps the maps disjoint exactly when its name is not in the swapped one, which is not checked |
| `PlaneApplication.SwapFilesIff` | control-plane/src/application.cpp:250-258 | a confirmed swap files the process exactly when its name is free in the swapped map; otherwise it is in neither |
| `PlaneApplication.GoodbyeLosesTheSwap` | control-plane/src/tcpserver.cpp:273-289 | a closure message closes twice, which fails a swapped process and drops it from the map |
| `PlaneApplication.SecondClosureHarmlessIff` | control-plane/src/application.cpp:261-291 | a second closure leaves the maps alone exactly when neither holds the name |
| `PlaneApplication.LateConnectionIsLostIff` | control-plane/src/tcpserver.cpp:85-90 | a process that registers is in the active map exactly if its allocation did not fail; otherwise it is allocated and in no map |
| `PlaneApplication.GiveUpIsSoundIff` | control-plane/src/application.cpp:98-104 | a failed allocation keeps the life cycle sound exactly when the process is still allocating and had not failed before |
| `PlaneApplication.ConfirmationIsSoundIff` | control-plane/src/tcpserver.cpp:319-326 | a swap confirmation keeps it sound exactly when the swap was asked for; any other throws on the event loop |
| `PlaneApplication.SwapRequestSentIff` | control-plane/src/process.cpp:120-131 | a swap is requested exactly when the process is connected and the path has at most 16 bytes; its status is swapping out either way |
| `PlaneApplication.Application.constructor` | control-plane/src/application.cpp:64-78 | no processes |
| `PlaneApplication.Application.AddProcess` | control-plane/src/application.cpp:38-80 | refuses bad input and a name in the active map, or adds a process to the map and to the TCP server's table |
| `PlaneApplication.Application.AllocationFailed` | control-plane/src/application.cpp:98-104 | erases the entry of a failed allocation |
| `PlaneApplication.Application.HandleConnection` | control-plane/src/tcpserver.cpp:241-271 | registers a process that is waited for; an exception from sending what waited, or a wrong status, ends the event loop |
| `PlaneApplication.Application.SwapProcess` | control-plane/src/application.cpp:195-231 | every refusal, and the status set before the request is built |
| `PlaneApplication.Application.SwappedProcess` | control-plane/src/application.cpp:233-259 | moves the entry between the maps |
| `PlaneApplication.Application.HandleSwap` | control-plane/src/tcpserver.cpp:319-326 | passes a confirmation on and does not catch what it throws |
| `PlaneApplication.Application.ClosedProcess` | control-plane/src/application.cpp:261-291 | closes a swapped process, fails any other and erases it by name |
| `PlaneApplication.Application.DeleteProcess` | control-plane/src/application.cpp:293-312 | drops a swapped process, dereferencing its location |
| `RequestCycle.RequestsReachTheProcess` | control-plane/src/process.cpp:157-175 | everything sent to a process on any run is decoded there, in any chunks, to the clients' requests in their order |
| `RequestCycle.OpenRequestsArrive` | control-plane/src/process.cpp:76-175 | every open request of an allocated process is among those the process decodes |
| `RequestCycle.ResultsAnswerTheirTickets` | control-plane/src/process.cpp:187-223 | results for open requests, in any order, answer exactly those, each with its own code and bytes |
| `RequestCycle.ResultsComeBack` | control-plane/src/tcpserver.cpp:92-122 | the control plane, fed result frames in any chunks, answers the clients with them and leaves the rest open |
| `RequestCycle.RepliesMakeTheRound` | control-plane/src/tcpserver.cpp:92-122 | end to end: after any run, with both streams cut anywhere, the result frames that any function of the frames decoded gives for any of them, in any order, answer exactly the clients whose requests those frames were, each with the outcome of its own |
| `RequestCycle.RegistrationBreaksIff` | control-plane/src/process.cpp:76-155 | a registration throws on the event loop exactly if it leaves something in the process's ledger unsent |
| `RequestCycle.TwoViewsOneStatus` | control-plane/src/application.cpp:195-312 | over all runs of an application and of one of its processes, driven by the same life-cycle events, the table and the process agree on status and connection |
| `RoundTrip.ClientsGetTheResults` | process/controller/src/controller.cpp:258-698 | over any run of the control plane and any run of the process controller, streams cut anywhere: the answers the clients get are the controller's results for their requests, each under its own ticket, as often as the controller has settled it, which is at most once |
| `RoundTrip.AtRestEveryClientIsAnswered` | process/controller/src/controller.cpp:434-698 | once the controller has handled what was sent and come to rest, a client has exactly one answer if its request was sent and none otherwise; from an allocated process, with names that fit, every client has |
| `RoundTrip.AnswersHaveCauses` | process/controller/src/controller.cpp:644-698 | a client's answer carries the code and bytes of a worker's result that came in under its own id, or its refusal |
| `RoundTrip.RepliesAreKnown` | process/controller/src/controller.cpp:644-655 | every result the controller sends to the control plane is for a request the control plane sent |
| `Between.WhatWorkersGiveArrives` | process/controller/src/remote.cpp:159-598 | end to end between two processes: over any run of one's controller, the messages and invocations its workers give for the other are exactly what the other's controller is handed, once each, in order, as from this process and with their contents |
| `Deviations.StateGoesPastAGet` | process/controller/src/messages.cpp:86-104 | a run that stores state past a worker waiting for a message from anybody under that key |
| `Deviations.GetTakesState` | process/controller/src/messages.cpp:111-126 | a run in which a get from anybody takes a state value away that the index goes on listing |
| `Deviations.MergedCallerWaitsInVain` | process/controller/src/workers.cpp:28-32 | a run in which a worker's request is merged into a client's and the worker waits for a result that goes to the client alone |

## Left out

- Sockets, epoll, `mq_open`, processes, signals and event loops: a queue is a sequence of datagrams, a stream a sequence of chunks, and a handler one atomic step. Locks are taken as intended.
- `MAX_MSGS`, the bound of a message queue: a send never finds the queue full.
- Ipc.DeliveredInOrder: assumes `_msg_size >= 128`, because a header cut in two throws, a pool no larger than `_msg_size`, because the pool compares its count with the size asked for, and packets below 2 GiB, because the length is an `int32_t`.
- Invoker.Worker.ReceiveBlocking: a call that would wait for more datagrams gives `Blocked`, with what it has read so far.
- Messages.ParsedFieldsAreTheLastSet: speaks of parsing the bytes; the lengths that setters cache beside the bytes, and that the same object's getters use, are not modelled.
- Mailbox.PendingMessages.FindGet: entries keep their relative order once they are in the multimap, as equal keys do.
- Scheduler.WorkQueue.Next: direct triggers, the only ones there are, are always ready, so the scan stops at the front.
- ProcessController.Controller.ProcessExternal: messages of other types, which are only logged, have no event; the text of error replies is reduced to the reason of the refusal.
- ProcessController.Controller.ProcessGet: headers of replies are values here, and a process id longer than its field, which makes the setter throw, does not occur.
- Framing.ProcessConnection.HandleMessage: exceptions thrown by the controller inside a handler are not modelled.
- Entries.TcpServer.Receive: an application update inside a chunk changes the entries in an event of its own (which ones there are is `Notices.AnnouncementsArrive`), and a `parsed_msg` is always the parse of `cur_msg`.
- Entries.TcpServer.SendResult: the result's bytes are in PeerLink.dfy; a connection that has ended keeps its number.
- Framing.PlaneConnection.HandleHeader: what the handlers behind a frame throw is not part of the decoder; PlaneApplication.dfy has these exceptions.
- Framing.FeedingIsDecoding: the set of processes waited for changes only by the stream's own registrations.
- PlaneProcess.UnsentExactlyWhen: the setter of the payload size also refuses a length that wraps to a negative number; a body that long cannot arrive, because the HTTP server's limit is an `int`.
- PeerLink.EveryFrameOnce: one peer at a time (what peers share is in Entries.dfy), with the client's and the server's connection of that peer; reconnection by the network library is not modelled, and the control plane's own connection is made elsewhere.
- Between.WhatWorkersGiveArrives: one direction; results come back over the same connection, which at the asking process has the confirmation's entry (Entries.dfy).
- Notices.FramesReachTheirHandlers: the end of the connection that follows a closure is an event of its own.
- RoundTrip.ClientsGetTheResults: the process's connection to the control plane stays open and no client registers under its name; the results come in after the requests went out, in one stream each way, and the text of a refusal is a parameter.
- PlaneProcess.CreationReportedOnce: `ProcessInstance::connect` calls back at once, as the base class does.
- PlaneProcess.ResultsFindTheirRequest: the answer is the result with its id; the JSON around it is not modelled.
- PlaneApplication.LifecycleIsSafe: `get_location` always returns a location; numbers in resource strings are parsed already.
- Connection counters, timing, UUID generation and logging: ids and times are inputs.
- The pool of FaaS processes: it names processes by its size before the backend replies, so there is little to keep.
- HTTP routes, JSON, Docker and Fargate backends, configuration, language bindings and clients: plumbing around the parts modelled.
- The `Resources` and `Processes` tables: single map operations that would only add easy members.
