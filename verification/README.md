# lizlib: a verified model of its queue, loop, connection, buffer and pool

lizlib is a C++ network library. Threads hand work to an event loop through a lock-free queue; the
loop runs the handlers of its TCP connections; a connection keeps what it has to send in a growing
buffer and lets an epoll selector tell it when it may write. This project models that path from one
end to the other and proves what it promises, for every interleaving, every partial write and every
sequence of calls.

| files | what they model |
|---|---|
| `LockFreeQueue` | `Push`, `Pop`, `Empty` as a machine of single atomic steps over a heap whose addresses are reused |
| `AtomicQueue`, `QueueInvariant`, `QueueSteps`, `QueueRefinement`, `QueueShape`, `QueueTheorems`, `QueueSolo`, `QueueExamples` | the reference queue, the invariant, linearizability, and when a thread running alone finishes |
| `Growth`, `Pages`, `Buffer`, `FileRead` | the buffer as a class over an array, its growth rule, the page-aligned scatter read |
| `Interest` | channel mask, selector map and kernel set as classes |
| `ConnectionSpec`, `ConnectionRuns`, `ConnectionTheorems`, `ConnectionShutdown`, `ConnectionExits`, `ConnectionExamples` | the connection's handlers as functions on an abstract state, and all their runs |
| `ConnectionLedger`, `ConnectionOutcomes` | what a run comes to, told from its inputs alone |
| `TcpConnection` | the connection as a class over the real buffers, channel and selector; each method refines the function of the same name |
| `EventLoop`, `LoopSolo`, `EndToEnd` | queue, loop and connection together |
| `ThreadPool`, `PoolInvariant`, `PoolTheorems`, `PoolSolo` | the thread pool's immediate jobs, and what each thread comes to when it moves alone |

How the pieces fit: `QueueRefinement.StepMatched` reduces the queue to a first-in first-out sequence;
`EventLoop` uses that machine itself, step by step, and gets the order of tasks from it;
`EndToEnd.ConnectionRun` shows that what remains of a run is, step by step, a run of the connection, and
`EndToEnd` states the main theorems about connections again over the real queue; and `TcpConnection`
shows that the abstract handlers are what the code does to buffers and masks.

The ledger (`ConnectionLedger`) is the connection without buffer, interest mask, memory and fatal checks.
It reads only the inputs: the messages and calls, what the kernel delivers and takes, and which task runs
when. Every run of the connection follows it.

`ForceShutdown`, `ForceClose` and `handleClose` check the state first and store a new one later. The check
and the store are separate steps, other threads may come in between, and a store is *overtaken* when the
connection has become disconnected since its check.

What the kernel answers (bytes read, bytes written or a `SIGPIPE`, readiness, `shutdown(2)`,
`getpeername(2)`), whether a buffer gets its memory, and what is called during a callback or by other
tasks of the loop are inputs, so that every statement is over all of them.
All atomics of the queue use the default order, sequential consistency (section 31.4 of ISO C++20),
so interleavings of single steps are its runs.

## Where the code falls short of what one might expect

Each of these has an exact condition, proved both ways, and an instance that meets it. For the queue,
the connection and the pool the instances are whole runs from the initial state.

| what happens | exactly when | instance |
|---|---|---|
| growth keeps `r_idx_` but budgets only the readable bytes, and is too short | `GrowthFitsIff` | `CappedGrowthTooShort`, `UncappedGrowthTooShort` |
| the length loop wraps and misses its length, or never ends | `LoopArrivesIff`, `LoopEndsIff` | `PastHalfAWord` |
| a thread stopped between a CAS and its store keeps others spinning | `PushAloneFinishesIff`, `PopAloneFinishesIff` | `PushCanSpin`, `PopCanSpin` |
| `Empty` says no while `Pop` finds nothing | `EmptyAnswerIff` | `NotEmptyYetNothing` |
| clearing one direction of interest clears the edge-trigger bit of both | `EdgeFollowsLastCall` | `EdgeLost` |
| a shutdown leaves accepted bytes behind | `ShutdownDrainsIff` | `AnswerCutOff` |
| `Close` never leads to `OnClose` | `CloseTellsIff` | `CloseForgets` |
| the state moves back, or the last state is entered twice, so that the assertion in `handleRemove` fires or `OnClose` is told twice | `OrderlyIff`, `CallOvertakesIff`, `HandleCloseOvertakesIff` | `RemovalFindsMoved`, `ToldTwice` |
| a step ends the process | `StepExitsIff`, with memory granted and the peer address known `GrantedExitsIff` | `StaleReportExits`, `RefusedShutdownExits`, `RemovalFindsMoved` |
| a job is submitted but neither run nor deleted | `JoinSplits` | `LateJob` |

The connection always appends to its output with `r_idx_ == 0`, which is part of its class invariant,
so the first of these never affects it (`UnreadMayAsk`).

## Model

| member | source | states |
|---|---|---|
| `QueueTheorems.Linearizable` | include/concurrent/lock_free_queue.h:30-81 | every interleaving of any number of pushing threads with one popping thread is, event by event, a run of a queue on which each operation takes effect in one instant between its call and its return: pushes and pops first in, first out; `Empty` says yes only of an empty queue, and no only if something is queued or a push has been called that has yet to take effect |
| `QueueTheorems.NeverFaults` | include/concurrent/lock_free_queue.h:50-78 | no step of any run dereferences a null or freed node or deletes a node twice, although a deleted address may be handed out again at once |
| `QueueTheorems.PopsArePrefixOfPushes` | include/concurrent/lock_free_queue.h:58-81 | what `Pop` has returned is a prefix of what it has taken, which is a prefix of what was pushed, in the order of the `tail_` stores and CASes |
| `QueueTheorems.NothingOnlyWhenEmpty` | include/concurrent/lock_free_queue.h:30-32 | `Pop` returns null, and `Empty` true, only if at that load everything pushed had been taken |
| `QueueTheorems.EmptyAnswerIff` | include/concurrent/lock_free_queue.h:30-32 | `Empty` says yes if and only if nothing is queued and no first push is between winning `head_` and storing `tail_` |
| `QueueExamples.NotEmptyYetNothing` | include/concurrent/lock_free_queue.h:30-64 | a run in which `Empty` says no and the `Pop` that follows returns null |
| `QueueTheorems.ProgramOrderKept` | include/concurrent/lock_free_queue.h:34-56 | each thread's elements take effect once each, in the order it pushed them; all but at most the one whose push is in progress have |
| `QueueTheorems.CallbackIffFoundEmpty` | include/concurrent/lock_free_queue.h:42-47 | a push runs `on_empty` exactly if it took the queue from empty to non-empty |
| `QueueTheorems.HalfOpenExclusive` | include/concurrent/lock_free_queue.h:42-43 | in every reachable state: null `head_` implies null `tail_`; `head_` set with `tail_` null is owned by exactly one thread, and the two plain stores find both words as their thread left them |
| `QueueTheorems.MissingLinkOwedOnce` | include/concurrent/lock_free_queue.h:50-51 | in every reachable state each link between queued nodes is stored, or null and owed by exactly one producer, which is about to store the right address |
| `QueueTheorems.DebtsAreQueued` | include/concurrent/lock_free_queue.h:51 | the late `next_` store always hits a live node that is still queued and not last |
| `QueueTheorems.QueuedElements` | include/concurrent/lock_free_queue.h:34-81 | in every reachable state the elements in the queued nodes are, in order, those pushed and not yet taken |
| `QueueTheorems.QuiescentMemory` | include/concurrent/lock_free_queue.h:34-81 | with no operation in progress, following the stored links from `head_` meets every allocated node once and reads off exactly the elements pushed and not yet taken, in order: nothing leaks |
| `QueueRefinement.StepMatched` | include/concurrent/lock_free_queue.h:34-81 | every single atomic step keeps the invariant and is answered by the reference queue with the event it stands for |
| `QueueSteps.PushCasTailWonKeeps` | include/concurrent/lock_free_queue.h:50 | winning the CAS on `tail_` keeps the chain invariant, with one more missing link owed by the winner |
| `QueueSteps.PushStoreNextKeeps` | include/concurrent/lock_free_queue.h:51 | the late link store keeps the invariant and pays exactly that debt |
| `QueueSteps.PopCasHeadKeeps` | include/concurrent/lock_free_queue.h:74-75 | taking the front of two or more nodes keeps the invariant: nobody still owes a link out of the node that leaves |
| `QueueSteps.PopDeleteKeeps` | include/concurrent/lock_free_queue.h:70-78 | the node deleted is live, unlinked, and in no other thread's hands that could dereference it |
| `QueueSolo.PushTakesOnePass` | include/concurrent/lock_free_queue.h:37-55 | one pass of a push running alone outside a half-open state appends its node behind what was there and knows whether the queue was empty |
| `QueueSolo.PopAloneFinishes` | include/concurrent/lock_free_queue.h:60-80 | in every run with the front link stored a pop running alone finishes in one pass, with the first element pushed and not yet taken, having deleted just the front node |
| `QueueSolo.PushAloneFinishesIff` | include/concurrent/lock_free_queue.h:37-55 | in every run a push at the head of its loop, running alone, finishes if and only if no other thread is between its CAS and the store that follows it at the empty end; then three steps are enough |
| `QueueSolo.PopAloneFinishesIff` | include/concurrent/lock_free_queue.h:60-80 | in every run a pop at the head of its loop, running alone, finishes if and only if the front link is not missing |
| `QueueSolo.ObstaclesAreOwed` | include/concurrent/lock_free_queue.h:42-75 | in every run each of the two obstacles is another thread stopped between a winning CAS and its store: the queue holds no lock, yet one stopped thread can stall the rest |
| `QueueExamples.PushCanSpin` | include/concurrent/lock_free_queue.h:37-55 | a run after which a second push, alone, never finishes |
| `QueueExamples.PopCanSpin` | include/concurrent/lock_free_queue.h:60-80 | a run after which a pop, alone, never finishes |
| `AtomicQueue.Fifo` | include/concurrent/lock_free_queue.h:34-81 | in the reference queue, pushes in effect order are the pops in effect order followed by what is queued |
| `AtomicQueue.ProgramOrder` | include/concurrent/lock_free_queue.h:34-56 | in the reference queue, what a thread asked to push is what took effect from it, followed by the push still waiting |
| `AtomicQueue.NotifiedIffFoundEmpty` | include/concurrent/lock_free_queue.h:42-47 | in the reference queue, a push reports having found nothing exactly if everything pushed before had been taken |
| `AtomicQueue.ReturnedWasAsked` | include/concurrent/lock_free_queue.h:58-81 | nothing is handed back, held or queued more often than it was asked to be pushed |
| `EventLoop.SpecRun` | src/net/eventloop/event_loop.cpp:6-10 | the queue part of a run of the event loop is a run of the first-in first-out queue, the loop thread being its only popper |
| `EventLoop.TaskAccounting` | src/net/eventloop/event_loop.cpp:84-97 | the tasks run, the one in hand, the one `Pop` is holding and those queued are together exactly the tasks pushed, in order: each runs at most once |
| `EventLoop.HandMeansIdle` | src/net/eventloop/event_loop.cpp:88-96 | while a task is in hand the loop is in no queue operation, so one pop never overtakes another |
| `EventLoop.QueueMovesKeepInFlight` | src/net/eventloop/event_loop.cpp:84-97 | the queue neither loses nor invents a submitted task: its steps leave the tasks in flight as they are |
| `LoopSolo.LoopAloneRuns` | src/net/eventloop/event_loop.cpp:88-96 | in every run, with the loop at rest, a task pushed and not yet run, and no pusher owing the front link: the loop moving alone is told by `Empty` that there is something, pops the first such task and has run it after twelve moves |
| `LoopSolo.Opens` | src/net/tcp/tcp_connection.cpp:15-36 | a run from the start in which `Start` is pushed, popped and run, after which the connection is open, its handler told, and reading asked for |
| `EndToEnd.SendToWire` | src/net/tcp/tcp_connection.cpp:143-206 | for any threads, any partial writes and any sends made on the loop itself, by the connection's own callbacks or by other owners' tasks: the wire carries the first bytes of the accepted messages, as many as the socket said it took; the accepted messages, by whichever way they came, are those the inputs give, whole and in order; those sent through the queue are exactly the sends run while connected, an unbroken stretch of the tasks run in push order, and each thread's sends run in the order it made them |
| `EndToEnd.InputsDecide` | src/net/tcp/tcp_connection.cpp:22-206 | with the real queue underneath: while the process lives, the connection is as the ledger of the moves made says, and in the move that ends the process it does no more than that |
| `EndToEnd.ReceivedIsHeard` | src/net/tcp/tcp_connection.cpp:37-53 | with the real queue underneath: the handler is given exactly the bytes that arrived, report by report |
| `EndToEnd.ConnectionRun` | src/net/eventloop/event_loop.cpp:84-97 | leaving out the queue's own steps, every run of loop, queue and connection is a run of the connection: its steps are those of the other moves, one each and in order, and its last state has the same connection and the same tasks in flight |
| `EndToEnd.Placed` | src/net/eventloop/event_loop.cpp:84-97 | after any number of moves the loop's connection is the one in the connection's run after as many steps as there were moves not the queue's own |
| `EndToEnd.PlacedStep` | src/net/eventloop/event_loop.cpp:88-96 | and the step taken there is that of the loop's next move: the same call, or the same task with the same answers |
| `EndToEnd.AcceptedIffConnected` | src/net/tcp/tcp_connection.cpp:178-206 | the messages accepted through the queue are those of the non-empty sends run while the state is connected, all of them and in that order |
| `EndToEnd.ConnectedIsStretch` | src/net/tcp/tcp_connection.cpp:178-182 | the tasks run while connected are consecutive among all tasks run, and reach up to the latest while the connection is open |
| `EndToEnd.SenderOrder` | src/net/tcp/tcp_connection.cpp:160-168 | the sends of one thread run in the order in which it made them, none skipped |
| `EndToEnd.BytesConserved` | src/net/tcp/tcp_connection.cpp:57-78 | with the real queue underneath, bytes on the wire followed by bytes waiting are the accepted messages at every moment |
| `EndToEnd.ShutdownDrains` | src/net/tcp/tcp_connection.cpp:110-123 | with the real queue underneath, once the socket was gracefully shut down the wire holds exactly what was accepted |
| `EndToEnd.ForwardOnly` | src/net/tcp/tcp_connection.cpp:99-142 | with the real queue underneath: from connecting to open to closing there is no way back, nothing is accepted once closing began, and unless a store was overtaken the state only moves forward |
| `EndToEnd.ShutdownDrainsIff` | src/net/tcp/tcp_connection.cpp:57-134 | with the real queue underneath: for ever after the move that shuts the socket down, the wire holds exactly the accepted bytes if and only if the task it ran did not leave bytes behind |
| `EndToEnd.CloseTellsIff` | src/net/tcp/tcp_connection.cpp:99-109 | with the real queue underneath and no store overtaken: the handler has been told after the closing task of `Close` if and only if that found nothing left to write |
| `EndToEnd.StepExitsIff` | src/net/tcp/tcp_connection.cpp:22-142 | with the real queue underneath: a move ends the process if and only if it is not the queue's own and one of the causes is met in it |
| `EndToEnd.RemovalInHand` | src/net/tcp/tcp_connection.cpp:89-93 | unless a store was overtaken, a removal the loop takes in hand finds the state disconnected and the handler not yet told, so its assertion cannot fire |
| `ConnectionTheorems.BytesConserved` | src/net/tcp/tcp_connection.cpp:57-78 | bytes written to the socket followed by the readable bytes of `output_` equal all bytes accepted, across partial writes, write errors and growth |
| `ConnectionTheorems.OrderlyIff` | src/net/tcp/tcp_connection.cpp:79-142 | in every run the state only moves forward and enters the last one at most once if and only if no store was overtaken |
| `ConnectionTheorems.CallOvertakesIff` | src/net/tcp/tcp_connection.cpp:124-142 | a call from any thread overtakes if and only if it is the store of a `ForceShutdown` or `ForceClose` whose check has passed, on a connection that is disconnected by now |
| `ConnectionTheorems.HandleCloseOvertakesIff` | src/net/tcp/tcp_connection.cpp:79-88 | `handleClose`, past its check, overtakes if and only if another thread enters the last state before its store |
| `ConnectionTheorems.ForwardOnly` | src/net/tcp/tcp_connection.cpp:99-142 | whatever overtakes what, from connecting to open to closing there is no way back, what is on the wire, accepted or told to the handler is never taken back, and nothing is accepted once closing began; unless a store was overtaken the state only moves forward |
| `ConnectionTheorems.ClosingsBalance` | src/net/tcp/tcp_connection.cpp:79-142 | whatever overtakes what, for each time the last state was entered one closing task was given out, which is in flight, told the handler, or found bytes waiting; only the end of the process loses one |
| `ConnectionTheorems.ClosedOnce` | src/net/tcp/tcp_connection.cpp:79-142 | unless a store was overtaken, closing tasks in flight, `OnClose` told and closings that told nobody are together at most one, and none before the connection is disconnected |
| `ConnectionTheorems.SealedForever` | src/net/tcp/tcp_connection.cpp:79-142 | once disconnected with no forced call between its check and its store, the state never changes again |
| `ConnectionTheorems.CallbackDiscipline` | src/net/tcp/tcp_connection.cpp:22-34 | whatever overtakes what, `OnConnect` at most once and before any `OnRead` or `OnWriteComplete`, and the context cleared at most as often as `OnClose` was told; unless a store was overtaken, `OnClose` at most once and only when disconnected |
| `ConnectionTheorems.RemovalsFindDisconnected` | src/net/tcp/tcp_connection.cpp:89-93 | unless a store was overtaken, whenever a close or removal is in flight it is the only one, the state is disconnected and the handler has not been told |
| `ConnectionTheorems.InterestMirrorsWork` | src/net/tcp/tcp_connection.cpp:57-78 | without forced shutdown, at every step boundary the connection waits for writability if and only if it has bytes to write |
| `ConnectionLedger.InterestIff` | src/net/tcp/tcp_connection.cpp:57-134 | in every run, forced shutdowns included, the connection waits for writability if and only if bytes wait and no forced shutdown has been run |
| `ConnectionTheorems.ShutdownDrains` | src/net/tcp/tcp_connection.cpp:71-77 | without forced shutdown and without sends from `OnWriteComplete`, once the socket is shut down the wire holds exactly the accepted bytes, for the rest of the run |
| `ConnectionShutdown.ShutdownDrainsIff` | src/net/tcp/tcp_connection.cpp:57-134 | in every run, for ever after the step that shuts the socket down, the wire holds exactly the accepted bytes if and only if that step was neither a forced shutdown with bytes waiting nor a report whose `OnWriteComplete` callback sent something while the connection was still open, told from the state before the step and the calls made during it |
| `ConnectionShutdown.FinishWriteDrainsIff` | src/net/tcp/tcp_connection.cpp:71-77 | a finished write on a closing connection shuts the socket down, and leaves bytes behind if and only if the connection was open and the callback answered before it closed |
| `ConnectionExamples.AnswerCutOff` | src/net/tcp/tcp_connection.cpp:71-77 | a run from the start that shuts the socket down with an accepted answer still waiting; in every continuation of that run the wire never carries it |
| `ConnectionTheorems.CloseTellsIff` | src/net/tcp/tcp_connection.cpp:99-109 | unless a store was overtaken, at any time after the task of `Close` has run the handler has been told if and only if that task found nothing left to write |
| `ConnectionExamples.CloseForgets` | src/net/tcp/tcp_connection.cpp:99-109 | a run from the start that is disconnected by `Close` with a message waiting; in every continuation of that run the handler is never told |
| `ConnectionExamples.RemovalFindsMoved` | src/net/tcp/tcp_connection.cpp:89-142 | a run in which `ForceShutdown` stores after another thread's `ForceClose`: the removal finds the state moved back and the process ends |
| `ConnectionExamples.ToldTwice` | src/net/tcp/tcp_connection.cpp:79-142 | a run in which another thread's `ForceClose` falls between the check and the store of `handleClose`: `OnClose` is told twice |
| `ConnectionExits.StepExitsIff` | src/net/tcp/tcp_connection.cpp:22-142 | in every run a step ends the process if and only if one of these is met in it: the connection is printed when `getpeername(2)` fails, output memory that a send needs is refused, writability is reported when the interest in it is gone, a write raises `SIGPIPE`, a `shutdown(2)` is refused, or a removal finds the connection not disconnected |
| `ConnectionExits.GrantedExitsIff` | src/net/tcp/tcp_connection.cpp:57-134 | with memory granted and the address known, a task ends the process if and only if one of the last four of these is met |
| `ConnectionExamples.StaleReportExits` | src/net/tcp/tcp_connection.cpp:57-60 | a run, memory granted and address known, whose last step handles a report of writability when the interest in writing is gone, a report queued before having written everything, and ends the process |
| `ConnectionExamples.RefusedShutdownExits` | src/net/tcp/socket.cpp:91-96 | a run, memory granted and address known, whose last step writes the last byte of a closing connection, is refused the `shutdown(2)` that follows, and ends the process |
| `ConnectionRuns.RunTaskKeeps` | src/net/tcp/tcp_connection.cpp:7-142 | every handler keeps the invariant: conservation, registration before use, callback order, a trail of states that goes forward except from an overtaken one, as many closing tasks given out as the last state was entered, shutdown only when closing, and timeliness of every task submitted |
| `ConnectionRuns.RunTaskCalm` | src/net/tcp/tcp_connection.cpp:57-206 | every handler keeps write interest equal to pending work, and a shut-down socket drained |
| `ConnectionLedger.InputsDecide` | src/net/tcp/tcp_connection.cpp:22-206 | in every run, while the process lives, the inputs alone decide the accepted messages, how many of their bytes are on the wire and which wait, what the handler and the socket were told, the state, the tasks submitted and those still to run, and what the connection is registered and waits for |
| `ConnectionLedger.InputsBound` | src/net/tcp/tcp_connection.cpp:22-206 | in the step that ends the process nothing is accepted, written or told beyond what the inputs say |
| `ConnectionOutcomes.CallsAccept` | src/net/tcp/tcp_connection.cpp:160-206 | sends made on the loop have accepted exactly the non-empty messages of those whose turn comes while the connection is open, unchanged and in order |
| `ConnectionOutcomes.WriteTakes` | src/net/tcp/tcp_connection.cpp:57-78 | of a write the socket answers with `k`, exactly the first `k` waiting bytes, or all, go onto the wire and leave the buffer; any other answer moves nothing |
| `ConnectionOutcomes.ReceivedIsHeard` | src/net/tcp/tcp_connection.cpp:37-53 | in every run `OnRead` is given exactly the bytes that arrived, report by report and in order |
| `ConnectionOutcomes.ToldByTasks` | src/net/tcp/tcp_connection.cpp:79-142 | in every run, while the process lives: `OnClose` is told once for each removal run, bytes waiting or not, and once for each task of `Close` that finds nothing to write; the socket is told to stop reading once for each task of `Shutdown(true)` that finds nothing to write; nothing else does either |
| `ConnectionOutcomes.OneSide` | src/net/tcp/tcp_connection.cpp:110-123 | in every run at most one `Shutdown` gets its task submitted, so the side the socket shuts is the one that call asked for |
| `TcpConnectionModel.TcpConnection.constructor` | include/net/tcp/tcp_connection.h:86-91 | a new connection, its selector set, has empty buffers, an unregistered channel and the first state |
| `TcpConnectionModel.TcpConnection.ReportedByKernel` | src/net/event.cpp:9-18 | what may be reported to the connection is exactly what the bits of the kernel's mask for its socket ask for: 0x1 and 0x2 for data, 0x4 for room to write, and 0x2000, which is never set, for a read hang-up |
| `TcpConnectionModel.TcpConnection.HandleSend` | src/net/tcp/tcp_connection.cpp:178-206 | appending to the real output buffer and raising the real mask is accepting a message; the read index of `output_` is zero at every append |
| `TcpConnectionModel.TcpConnection.HandleWrite` | src/net/tcp/tcp_connection.cpp:57-78 | writing from the buffer, retrieving what was taken, lowering the mask and shutting down is the abstract write step for every answer of the socket |
| `TcpConnectionModel.TcpConnection.HandleRead` | src/net/tcp/tcp_connection.cpp:37-53 | the bytes handed to `OnRead` are exactly those delivered, the input buffer is empty again afterwards, end of file closes, and only real errors reach `OnError` |
| `TcpConnectionModel.TcpConnection.HandleStart` | src/net/tcp/tcp_connection.cpp:22-33 | registration with no interest, one transition to connected, `OnConnect`, then read interest |
| `TcpConnectionModel.TcpConnection.HandleEvents` | src/net/channel/socket_channel.cpp:11-32 | the bits of a report call reading, writing, errors and closing in this order and under these conditions |
| `TcpConnectionModel.TcpConnection.RunTask` | src/net/eventloop/event_loop.cpp:88-96 | every task the loop can run, other owners' included, does to the real fields what the abstract connection does: start, send, report, close, shutdown, removal with the context cleared |
| `TcpConnectionModel.TcpConnection.RunCalls` | src/net/tcp/tcp_connection.cpp:99-206 | any sequence of `Send`, `Close`, `Shutdown`, and the checks and stores of `ForceShutdown` and `ForceClose`, does to the real fields what it does to the abstract connection |
| `BufferModel.Buffer.EnsureWritable` | src/common/buffer.cpp:18-49 | makes room for what is required, or fails changing nothing; the readable bytes stay as they are, by moving or growing |
| `BufferModel.Buffer.Append` | src/common/buffer.cpp:51-58 | appends exactly the given bytes behind the readable ones, or answers -1 and changes nothing |
| `BufferModel.Buffer.AppendUnread` | src/common/buffer.cpp:51-58 | with a read index of zero an uncapped append needs no further condition and its new length follows the doubling rule |
| `BufferModel.Buffer.Read` | src/common/buffer.cpp:102-114 | for a size that is not negative, hands out the longest prefix not over it and keeps the rest |
| `BufferModel.Buffer.Retrieve` | src/common/buffer.cpp:187-192 | drops exactly `n` bytes from the front, or all, unless `r_idx_ + n` wraps in 64 bits, when the read index moves back by 2^64 - n; by default the read index is zero afterwards |
| `BufferModel.Buffer.Rearrange` | src/common/buffer.cpp:166-175 | moves the readable bytes to the front without changing them, though the ranges may overlap |
| `BufferModel.Buffer.AppendBuffer` | include/common/buffer.h:56-63 | appends what another buffer, or this one, holds and leaves the other as it was |
| `BufferModel.Buffer.Transfer` | src/common/buffer.cpp:176-186 | moves everything between distinct buffers; from itself it leaves the contents as they were |
| `BufferModel.ShortIff` | src/common/buffer.cpp:18-49 | room is refused if and only if no memory is granted and the bytes fit neither behind the readable ones nor, when read bytes may be dropped, after moving these to the front |
| `BufferModel.GrowthFitsIff` | src/common/buffer.cpp:30 | exactly when growth reaches past the write index: under a cap if and only if nothing has been read, without a cap if and only if counting the read bytes would give the same length |
| `BufferModel.CappedGrowthTooShort` | src/common/buffer.cpp:30 | a concrete state with read bytes in which capped growth asks for less memory than there already is |
| `BufferModel.UncappedGrowthTooShort` | src/common/buffer.cpp:30 | a concrete state in which uncapped growth, the default, asks for no more memory than there is while the write needs half as much again |
| `BufferModel.UnreadMayAsk` | src/common/buffer.cpp:25-31 | with a read index of zero every growth up to half a word is sound |
| `BufferModel.UnreadAppendFollowsRule` | src/common/buffer.cpp:18-58 | the lengths whose cost is bounded in `Growth` are those appends really produce |
| `Growth.NextPowOfTwo` | include/common/buffer.h:122-131 | the doubling loop ends with the first doubling at least as long as the target, no shift wrapping on the way |
| `Growth.HalfWordTargetsFit` | include/common/buffer.h:122-131 | every target up to 2^63 has such an answer in 64 bits |
| `Growth.LoopArrivesIff` | include/common/buffer.h:122-131 | from any 64-bit length the loop arrives at the length meant, no shift wrapping on the way, if and only if that length fits in 64 bits |
| `Growth.LoopEndsIff` | include/common/buffer.h:122-131 | from any 64-bit length the wrapping loop ends if and only if one of the first 64 products of the length with a power of two, taken in 64 bits, reaches the target; otherwise it spins at zero |
| `Growth.PowerLoopEndsIff` | include/common/buffer.h:122-131 | from a power of two the loop ends if and only if the target is at most 2^63 |
| `Growth.PastHalfAWord` | include/common/buffer.h:122-131 | a target past 2^63 is reached from 3 and never from 2 |
| `Growth.GrowthBounds` | src/common/buffer.cpp:30 | a grown length is at least twice the old one and at most twice the bytes needed |
| `Growth.AmortisedGrowth` | src/common/buffer.cpp:30-47 | over any run of uncapped appends the bytes moved by growth are at most the length gained |
| `Growth.PagesStayWhole` | include/common/buffer.h:122-131 | a length of whole pages stays one under uncapped growth |
| `Pages.CeilPageIsNextBoundary` | include/common/basic.h:130-132 | the bit-mask expression is the page boundary strictly above the pointer and at most a page away |
| `Pages.MaskClearsLowBits` | include/common/basic.h:131 | masking a 64-bit word with all but its low k bits clears just those |
| `FileRead.BuildPlan` | src/common/buffer.cpp:82-95 | the slices lie one behind the other from the write index on and sum to exactly the read size |
| `FileRead.Readv` | src/common/file.cpp:16-25 | filling consecutive slices in order, up to any count delivered, is one contiguous copy (`readv`, System Interfaces volume of POSIX.1-2017) |
| `FileRead.AppendFile` | src/common/buffer.cpp:59-101 | for a request that is not negative: asks for no more than the file is known to have; if that, or the request, fits, it answers what the file delivered and allocates nothing; otherwise that depends on memory being granted; appends exactly the first `ret` bytes of the file whichever path is taken, and nothing on failure or end of file |
| `Interest.DirectionsAreIndependent` | src/net/channel/socket_channel.cpp:36-63 | after any calls, readable and writable each equal the argument of their own last call |
| `Interest.EdgeFollowsLastCall` | src/net/channel/socket_channel.cpp:44-58 | the shared edge-trigger bit equals the argument of the very last call, of either direction |
| `Interest.EdgeLost` | src/net/channel/socket_channel.cpp:44-58 | a history after which a readable channel is no longer edge-triggered |
| `Interest.BitsOfCall` | src/net/event.cpp:16-24 | in the kernel's own bits: setting reading sets or clears 0x1 and 0x2 and leaves 0x4, setting writing sets or clears 0x4 and leaves the other two, and either sets or clears the top bit |
| `Interest.SocketChannel.Set` | src/net/channel/socket_channel.cpp:36-63 | fatal without a selector; skipping unchanged masks never leaves selector or kernel stale; beyond that only changing an unregistered channel is fatal |
| `Interest.SocketChannel.SetReadable` | src/net/channel/socket_channel.cpp:36-49 | with a selector set, sets reading and leaves writing alone; if registered, bits 0x1 and 0x2 of the kernel's mask become the argument and bit 0x4 stays |
| `Interest.SocketChannel.SetWritable` | src/net/channel/socket_channel.cpp:50-63 | with a selector set, sets writing and leaves reading alone; if registered, bit 0x4 of the kernel's mask becomes the argument and bits 0x1 and 0x2 stay |
| `Interest.EpollSelector.Add` | src/net/selector/epoll_selector.cpp:7-13 | adds once; `epoll_ctl` cannot refuse because map and kernel agree |
| `Interest.EpollSelector.Remove` | src/net/selector/epoll_selector.cpp:15-21 | removes what is there; `epoll_ctl` cannot refuse |
| `Interest.EpollSelector.Update` | src/net/selector/epoll_selector.cpp:22-28 | changes a registered mask in map and kernel alike; fatal exactly if not registered |
| `PoolTheorems.JobsLeaveInOrder` | src/concurrent/thread_pool.cpp:66-72 | jobs leave the queue in the order in which they entered it; those taken, those discarded and those queued are all that were submitted |
| `PoolTheorems.EachJobOnce` | src/concurrent/thread_pool.cpp:74-79 | no job runs or is deleted twice or is touched once deleted; only taken jobs run, and they are deleted only after running |
| `PoolTheorems.JoinSplits` | src/concurrent/thread_pool.cpp:28-60 | once `Join` has found the queue empty: a first part of the submission order was run, the rest enqueued by then was discarded, all these are deleted, later jobs are neither run nor deleted, and this never changes |
| `PoolTheorems.LateJob` | src/concurrent/thread_pool.cpp:114-121 | a run of a pool whose one worker has left its loop, in which a job submitted after `Join` is queued and neither run nor deleted |
| `PoolTheorems.OneWorkerRunsInOrder` | src/concurrent/thread_pool.cpp:62-84 | a pool of one worker runs jobs in submission order |
| `PoolSolo.LeavesOnlyStopped` | src/concurrent/thread_pool.cpp:62-84 | in every run a worker has left its loop only if the pool was stopped |
| `PoolSolo.WorkerAloneRuns` | src/concurrent/thread_pool.cpp:62-84 | in every run a worker at the head of its loop, the pool not stopped, the mutex free and jobs queued, has after seven steps of its own taken, run and deleted the job submitted first among those queued, and is back at the head |
| `PoolSolo.WorkerAloneWaits` | src/concurrent/thread_pool.cpp:62-84 | with nothing queued five steps of its own bring it through the wait and change nothing |
| `PoolSolo.WorkerAloneLeaves` | src/concurrent/thread_pool.cpp:62-84 | once the pool is stopped a worker, wherever it is, leaves its loop in at most seven steps of its own, first finishing the job it holds |
| `PoolSolo.SubmitAloneEnqueues` | src/concurrent/thread_pool.cpp:114-121 | three steps of a submitter put its job, and no other, behind those queued |
| `PoolSolo.JoinAloneFinishes` | src/concurrent/thread_pool.cpp:28-60 | with every worker gone the joiner, by steps of its own alone, discards just the jobs queued, in order, and ends |
| `PoolInvariant.StepKeeps` | src/concurrent/thread_pool.cpp:62-121 | every step of workers, submitters and joiner keeps the invariant: mutual exclusion, order, one holder per job |

## Left out

- More than one popping thread: `Pop` reads through `head_` unprotected, and only `EventLoop::loop` pops; the queue's destructor.
- Waiting and waking (`CondVar::Wait`, the loop's and the workers' wake-ups): waits may end at any time in the model, and no liveness is claimed.
- The queue, the loop and the pool are transition systems on values rather than classes, because their claims are about interleavings; the queue's heap, addresses and frees are explicit in the state.
- The loop's stop flag: it only makes threads stop earlier, which is among the modelled runs.
- A call from another thread that falls inside a handler's other statements is placed at the nearest boundary: between tasks, during the handler's callback, or between the check and the store of `handleClose`.
- Readiness is reported as a task enabled by the mask at that moment; the closures that refer to a result vector a later `Wait` overwrites are not modelled.
- An `epoll_ctl` that fails although map and kernel agree, and running out of memory other than in a buffer; both end the process.
- `Send(Buffer*)` and `Send(std::string_view)` off the loop, which do not own their bytes, and direct writes into the output buffer.
- `Start` is taken as called once, its selector, context and callbacks set before its task is submitted; a read hang-up is never asked for and so never reported.
- TcpConnectionModel.TcpConnection.HandleSend: assumes that waiting and new bytes are at most 2^63 together; likewise the other methods that may append.
- TcpConnectionModel.TcpConnection.HandleRead: takes the address of the input buffer as a constant, which it is as long as that buffer never grows; its class invariant keeps it large enough.
- BufferModel.Buffer.EnsureWritable: requires growth to be sound as `GrowthFitsIff` spells out; what the code writes past its memory otherwise is not modelled.
- BufferModel.Buffer.Read: a negative size makes the code copy almost 2^64 bytes, which is undefined; it is a demand on callers.
- `Append(Slice&)`, which moves the write index twice; `Read(File*)`, whose first slice is never filled; `ReadBasic` and `AppendBasic`; buffers over foreign memory and copies that share memory; a failing first allocation.
- FileRead.AppendFile: a negative request is taken as an unsigned one of almost 2^64 bytes and read with a count past what POSIX defines; it is a demand on callers.
- Delayed and repeated jobs of the pool, a second `Join` (it finds the flag set and returns), and joins from several threads at once.
- Timers, acceptor, client, server, sockets, addresses, logging, configuration: input and output around the modelled parts.
- `CountdownLatch`, `ConcurrentTimestamp` and `EventLoopGroup`: small counters that would only add easy members.
- `RadixTree`, `UringSelector` and `TransactionUtil` are stubs.
