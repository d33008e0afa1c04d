# Verification model of coproto's sockets

coproto lets many logical sockets ("forks", each named by a 128-bit session id) share
one byte stream. This project models the code that makes that work and proves what it
is for:

- **The scheduler** (`coproto/Socket/SocketScheduler.{h,cpp}`). `Scheduler` is the state
  of one endpoint and one function for every region the code runs under its mutex, every
  completion the transport below reports and every user call; a `co_await` is a program
  counter, and any step may come between two steps of a task. `Invariants` states what
  holds in every reachable state, part by part; `QueueProofs`, `StreamProofs`,
  `FlushProofs`, `UserSteps`, `CallbackSteps`, `SendSteps`, `CompleteSteps`, `RecvSteps`
  and `AnySteps` prove that every step keeps it, over the lists of `Lists`; `Shapes` says
  what a step leaves alone, `Follow` what no step undoes. `Endpoint`, `Failures`, `Errors`,
  `Results`, `Outcomes`, `Guards`, `Blocks` and `Newest` hold the results about runs of one
  endpoint. `Link` joins two endpoints by a byte pipe in each direction and proves fork
  isolation, slot agreement and delivery for every interleaving; `Delivery` proves that the
  two come to rest and that no message is then left behind but for want of a recv; `Sockets` adds the sockets of the two users, named as `SessionIds`
  says, and proves which socket talks to which. `Findings` holds runs on which the code
  does less than its callers expect.
- **Its queues as the code keeps them.** `ForkQueues` is a class with a block queue of
  sends and one of recvs for every fork, the intrusive list that links the sends of all
  forks, the flush tokens and the addresses the stop callbacks hold; its methods are the
  regions that loop over them or relink them. `Refine` proves that they can follow the
  state machine along every run, so the results about runs are results about the blocks
  and links. `Lanes` keeps the queues of the forks apart on the heap, `Relabel` forgets the
  identity of blocks.
- **The wire format**: `Framing` (bytes) and `Streams` (what a stream of frames means).
- **What the scheduler stands on**: `Queue` (ring blocks with tombstones, over `Rings`,
  the same blocks as values, and `Bits`), `SendList` (the intrusive list of sends),
  `Operation` (receive buffers), `LocalPipe`/`LocalAsyncSock` (the in-process socket
  pair), `BufferedLink`/`BufferingSocket` (the buffering socket), `Asio` (completion flags
  and counters), `SessionIds` (how forks are named). Where there are two modules the first
  is the state machine and its results over runs, the second the classes, arrays and loops.

An operation is named by the number of the send or recv call that made it. The execution
queue is the log of everything pushed to it, so "resumed exactly once" is a statement
about that log; a handle that a call returns for immediate resumption is logged like a
queued one. A flush token is the set of operations that hold a reference to it. The
record `History` of the scheduler is not read by any step: it names what theorems speak
of (bytes handed over, frames begun, sends accepted).

## Findings

Places where the code does less than its comments or its tests suggest. Each has an input
that shows it and the exact condition under which the code does what is wanted.

- **Cancelling the last send loses the next one.** The stop callback of a send that has
  not started relinks its neighbours but does not move `mSendBufferLast`
  (coproto/Socket/SocketScheduler.h:607-609). `SendList.Append` reaches the new operation
  exactly when the tail is one the send task reaches; `SendList.Cancel` keeps that exactly
  when the cancelled operation was not the last; `SendList.LosesNextSend` is the run in
  which an accepted send is never sent. The list repairs itself when it becomes empty.
- **Erasing by address fails once a block has wrapped.** `Queue::erase(T*)` takes the slot
  of an element for its logical index (coproto/Common/Queue.h:374-377). `EraseSlot`
  succeeds exactly when the logical index is below the capacity of its block
  (`EraseSlotFails`: eight elements have passed through a queue, and the ninth, alone in
  it, cannot be erased). Both stop callbacks erase this way: after eight recvs of one fork
  that came and went, the callback of the ninth fails its assertion after its handle has
  been queued (`Findings.CancelFails`); `Blocks.SendErasable` and `Blocks.RecvErasable` are
  the exact condition in every reachable state. The state machine has no step for such a
  callback.
- **`Queue::back()`** works exactly while the newest element is live (`Back`; `BackFails`:
  two pushed, the second erased). `flush` calls it on queues whose last operation may have
  been cancelled and reads an erased slot then: after two recvs of one fork and the stop
  callback of the second there is no step for a flush (`Findings.FlushFails`). In every
  reachable state a flush is possible exactly if, on every fork and in both directions,
  nothing is pending or the newest operation ever queued there is (`Newest.FlushPossible`).
- **`Queue::reserve`** lacks the shift by 32: the capacity it computes is a power of two
  exactly when `capacity - 1` has no run of 32 clear bits below a set one (`RoundUp`),
  which every capacity up to 2^32 satisfies and 2^n + 1 for n >= 32 does not. On a queue
  in use it breaks the queue's invariant exactly when it adds a block behind an empty one
  (`Reserve`; `ReserveFails`: 16 on an empty queue).
- **Cancelling the last holder of a flush token fires the flush early.** With two recvs
  queued on a fork only the second holds the token; its stop callback queues the flush
  while the first is still pending (`Findings.FlushFiresEarly`). In every run a flush comes
  after everything that was pending at its call but what a cancelled holder left behind it
  in its own fork and direction (`Endpoint.FlushOrder`). As long as no holder has been
  cancelled like that, the step that fires a flush makes it overtake something exactly if
  it is the stop callback of a holder with an earlier operation of its fork and direction
  pending; in every run a stop callback that fires one does so exactly in that case or if
  something left behind before is still pending (`Endpoint.FlushEarly`,
  `Endpoint.LastHolder`). A holder with nothing before it can always be cancelled.
- **An operation may be completed with an error whose code is success.** When a task finds
  an error recorded after a transfer of its own that succeeded, it drains its queue with
  the code of that transfer: the first operation drained, never sent or filled, gets
  success and the others cancel. `Findings.FailsWithSuccess` is the run (two sends, close,
  the first transfer succeeds). `Failures.StepAdds` states every code of every drain, and
  `Failures.SuccessReported` when one of them is success: exactly when the task's own
  transfer succeeded, an error was already recorded, and another operation was queued.
- **`BufferingSocket::close` does not cancel future requests**, although the comment at
  coproto/Socket/BufferingSocket.h:410-411 says so: `await_suspend` never looks at `mEc_`.
  A request made after close is cancelled exactly when its stop token had already fired
  (`CloseCancelsFuture`); `RequestsAfterClose` is the concrete pair of requests.
- **A second recv takes the place of a parked one.** `BufferingSocket` keeps one reader; a
  recv that parks while another is parked replaces it, and the first is never resumed
  (`BufferedLink.LostForever`, `BufferedLink.SecondReader`).
- **A second recv can be served past a parked one.** A recv of two bytes parks with one byte
  there, a recv of one byte takes it, and the next two bytes go to the first
  (`BufferedLink.OutOfOrder`). The recvs that take bytes complete in call order exactly if
  no reader past which another recv was served has taken any (`BufferedLink.RecvOrder`).

## Model

| member | source | states |
|---|---|---|
| `Framing.DecHeader` | coproto/Socket/SocketScheduler.h:52-60 | the size and slot fields read from an encoded header are the ones written, whatever follows it |
| `Framing.EncHeader` | coproto/Socket/SocketScheduler.h:52-60 | every eight bytes are the encoding of the header they decode to |
| `Framing.NextFrameOfEncoding` | coproto/Socket/SocketScheduler.h:843-898 | one turn of the receive loop on an encoded frame returns that frame and exactly the bytes after it; size zero is meta and nothing else |
| `Framing.ParseChunks` | coproto/Socket/SocketScheduler.h:843-898 | reading bytes in two pieces gives the frames and the leftover of reading them at once |
| `Framing.ParseEncode` | coproto/Socket/SocketScheduler.h:843-898 | round trip: the receive loop reads back exactly the frames encoded, and leaves an incomplete frame unread |
| `Framing.FeedIsParse` | coproto/Socket/SocketScheduler.h:843-898 | the loop fed chunk by chunk is the loop on the whole |
| `Framing.ChunkedRoundTrip` | coproto/Socket/SocketScheduler.h:843-898 | round trip for every sequence of meta and data frames and every way of cutting the bytes into chunks |
| `Framing.PrefixFrames` | coproto/Socket/SocketScheduler.h:1071-1120 | frames read off a prefix of an encoded stream are a prefix of its frames, and the unread bytes begin the next one |
| `Framing.NextHeader` | coproto/Socket/SocketScheduler.h:843-898 | a complete header left over belongs to the next frame encoded: same slot, same size, meta exactly if the size is zero |
| `Framing.WireExample` | coproto/Socket/SocketScheduler.h:52-60 | the bytes of a data and of a meta message: little-endian words, the size first, then the slot |
| `Streams.AnnouncedOnce` | coproto/Socket/SocketScheduler.h:1067-1098 | in an announced stream every data frame comes after the one and only meta frame of the whole stream for its slot |
| `Streams.MetaOfSlot` | coproto/Socket/SocketScheduler.h:1067-1082 | a slot stands for the session id of its one meta frame |
| `Streams.BodiesPrefix` | coproto/Socket/SocketScheduler.h:814-941 | the bodies a prefix of a stream carries for a session are a prefix, message by message, of those the stream carries |
| `Streams.CostByParts` | coproto/Socket/SocketScheduler.h:1084-1121 | a stream costs 24 bytes for each announced slot and 8 plus its length for each body |
| `Endpoint.StepKeeps` | coproto/Socket/SocketScheduler.h:542-1137 | every step of the endpoint, of a user, a task, the transport or a stop callback, keeps the whole invariant |
| `Endpoint.AssertionsHold` | coproto/Socket/SocketScheduler.h:752-755 | in every reachable state what the code asserts where it stands is true: the send worked on is the head of the list and the front of its fork, the recv worked on is the front of its fork, a parked send task has an empty list; a stop callback of a pending operation fails only in the erase by address, exactly if the operation has not started and its queue cannot erase it |
| `Endpoint.SendListAgrees` | coproto/Socket/SocketScheduler.h:570-594 | the global send list restricted to a fork is that fork's queue, only the head has started, and while no error is set the send task is parked exactly when the list is empty |
| `Endpoint.ReceiveTask` | coproto/Socket/SocketScheduler.h:696-718 | `mNumRecvs` is the number of queued recvs; while no error is set, Idle holds exactly when the receive task waits for any recv (and none is queued), RequestedRecvOp exactly when it waits for one of a fork (and that fork has none); the recv being filled stays at the front of its fork |
| `Endpoint.ExactlyOnce` | coproto/Socket/SocketScheduler.cpp:176-261 | over a whole run the handle of every call is queued exactly once, or the operation is still in its queue and nowhere else; a task that has exited left every queue of its direction empty |
| `Endpoint.ErrorIsFinal` | coproto/Socket/SocketScheduler.cpp:176-261 | from the first error on, over any further run, the error stays, every call of send or recv can be made and is completed at once with it (or for its empty body) and queues nothing, no completion is undone, and a task that has exited stays exited with the queues of its direction empty |
| `Errors.CloseStops` | coproto/Socket/SocketScheduler.cpp:263-271 | close in any reachable state records closed if there is no error yet and leaves no task parked: one that waited for anything exits, a receive task that waited for a recv of one fork carries closed |
| `Errors.CloseRefuses` | coproto/Socket/SocketScheduler.cpp:263-271 | from close on, over any further run, every call of send or recv is refused with that code, and no task is parked |
| `Errors.FirstError` | coproto/Socket/SocketScheduler.cpp:176-190 | the error of a scheduler is the first that a step records: closed for close, cancel after a task has failed an operation of its own, otherwise what stopped the receive task |
| `Errors.SendCode` | coproto/Socket/SocketScheduler.h:1084-1137 | a send whose transfer the transport ends with an error is completed with exactly that code, whatever comes in between, and all sends behind it with cancel |
| `Errors.FailsFor` | coproto/Socket/SocketScheduler.h:814-941 | the receive task fails exactly for these causes, and with these codes: the transport's, the bad size of a buffer, the bad header of a meta message for a reserved slot or a session announced before or of an unknown slot, the error recorded when it looks for a fork, and closed or cancel when it is stopped waiting |
| `Errors.RecvCodes` | coproto/Socket/SocketScheduler.h:745-800 | whatever comes in between, its next await completes its own recv with that code and the others with cancel, or without an own recv the first pending with the code, and records the code (or cancel) if there is no error yet |
| `Errors.SenderFinishes` | coproto/Socket/SocketScheduler.cpp:176-261 | after an error the send task can always finish, in at most three more steps, and no send is left |
| `Errors.ReceiverFinishes` | coproto/Socket/SocketScheduler.cpp:176-261 | the same for the receive task and the recvs, unless an assertion fails on the peer's message |
| `Errors.StartedStays` | coproto/Socket/SocketScheduler.h:611-620 | the stop callback of an operation that has started completes nothing and marks it; a send that has started is the one at work |
| `Results.BufferDecides` | coproto/Socket/SocketScheduler.h:910-921 | in every reachable state a body is read only into a buffer that holds it, and a recv is failed with a bad size exactly if its buffer does not hold the message its header announces |
| `Outcomes.ResultsRight` | coproto/Socket/SocketScheduler.h:738-765 | over every run each handle reports a result its operation may have: a send is sent only with its message and all before it, session by session, on the wire; a recv is given only a message of its session that its buffer holds; only a call that was not accepted is refused |
| `Guards.CallsOpen` | coproto/Socket/SocketScheduler.cpp:101-127 | in every reachable state a session can be forked exactly if its user holds no socket of it (and a slot is left), send and recv can be called exactly on a session the user holds, and close always |
| `Guards.TasksOpen` | coproto/Socket/SocketScheduler.h:745-800 | a task that is not parked, done or waiting for the transport can always move |
| `Guards.TransportOpen` | coproto/Socket/SocketScheduler.h:1084-1121 | the transport may take or deliver any part of what it was given or asked for, and end at any time; it ends with success exactly when nothing is left |
| `Guards.CallbacksOpen` | coproto/Socket/SocketScheduler.h:596-624 | a stop callback comes for any pending operation and no other; it must find by its address one that has not started |
| `Endpoint.FlushOnce` | coproto/Socket/SocketFork.h:127-153 | the handle of every flush is queued exactly once, exactly when no operation holds its token any more; with nothing pending all have been queued |
| `Endpoint.FlushWaits` | coproto/Socket/SocketScheduler.cpp:157-174 | a flush that does not return at once attaches its token to at least one operation, all of them pending, and queues nothing |
| `Endpoint.FlushOrder` | coproto/Socket/SocketScheduler.cpp:157-174 | in every run the handle of a flush comes after the handle of every operation pending at the call, in any fork and both directions, except those that a cancelled holder of its token left behind it; there are none if no holder is cancelled while an earlier operation of its fork and direction is pending |
| `Endpoint.LastHolder` | coproto/Socket/SocketScheduler.cpp:157-174 | while one operation holds a token, something else that was pending at the call is still pending exactly if something is before the holder in its fork and direction, or something an earlier holder left behind is |
| `Endpoint.FlushEarly` | coproto/Socket/SocketFork.h:127-153 | the step that fires a flush makes it overtake an operation pending at its call exactly if it is the stop callback of a holder with an earlier operation of its fork and direction pending; if holders were cancelled like that before, a stop callback does so exactly in that case or if something left behind is pending |
| `FlushProofs.FiredInOrder` | coproto/Socket/SocketFork.h:127-153 | the flushes that the completion of one operation fires are queued in the order in which they were called |
| `Endpoint.BytesSent` | coproto/Socket/SocketScheduler.h:1084-1121 | with the send task parked `mBytesSent` is 24 for each announced fork and 8 plus its length for each send not cancelled before it started |
| `Failures.StepAdds` | coproto/Socket/SocketScheduler.cpp:202-253 | for each direction the exact failures every step adds and their codes: a stopping task fails its own operation with the transport code if its transfer failed, then everything queued behind it with cancel, except that the first drained one gets success if the own transfer succeeded, the error that stopped a task without an operation of its own, or the bad-header code for an unknown slot |
| `Failures.SuccessReported` | coproto/Socket/SocketScheduler.cpp:202-253 | an operation is reported to have failed with the code success exactly when the task stops after a successful transfer of its own with an error already recorded and another operation of its direction queued |
| `Failures.OneErrorPerDirection` | coproto/Socket/SocketScheduler.cpp:202-253 | over a whole run all failures of a direction but the first have the code cancel, and there are none before its task is done or about to be |
| `Findings.FailsWithSuccess` | coproto/Socket/SocketScheduler.cpp:216-235 | two sends, close, and a transport that takes all of the first: the second was never begun and is completed with success |
| `Blocks.SendErasable` | coproto/Common/Queue.h:358-378 | in every reachable state a queued send is in a slot of its fork's blocks, and its stop callback can erase it exactly if the logical index of the slot is below the capacity of the block |
| `Blocks.RecvErasable` | coproto/Common/Queue.h:358-378 | the same for a queued recv |
| `Findings.CancelFails` | coproto/Socket/SocketScheduler.cpp:59-76 | a run after which the stop callback of a pending recv that has not started cannot erase it: eight recvs of its fork came and went before |
| `Findings.FlushFiresEarly` | coproto/Socket/SocketScheduler.cpp:157-174 | a run in which the stop callback of one recv queues a flush while another recv that was pending at its call still is |
| `Newest.RecvBack` | coproto/Socket/SocketScheduler.cpp:165-171 | in every reachable state the last slot of a nonempty recv queue is live exactly if the newest recv ever queued on its session is still queued |
| `Newest.SendBack` | coproto/Socket/SocketScheduler.cpp:165-171 | the same for a send queue |
| `Newest.FlushPossible` | coproto/Socket/SocketScheduler.cpp:157-174 | in every reachable state a flush reads only live slots exactly if, on every fork and in both directions, nothing is pending or the newest operation ever queued is |
| `Findings.FlushFails` | coproto/Socket/SocketScheduler.cpp:165-171 | two recvs of one fork and the stop callback of the second: one recv is pending and a flush has no step |
| `Link.FramesAgree` | coproto/Socket/SocketScheduler.h:814-941 | the frames a receiver has processed are a prefix of those its peer has begun, and the bytes of its unfinished frame begin the next one |
| `Link.AskKnown` | coproto/Socket/SocketScheduler.h:682-686 | a data header between two endpoints always names a slot the receiver has a fork for |
| `Link.InitNew` | coproto/Socket/SocketScheduler.cpp:129-155 | a meta frame between two endpoints always names a new slot, for a session that has no remote slot yet, also when that session was forked locally before |
| `Link.WireIsFrames` | coproto/Socket/SocketScheduler.h:1067-1120 | in every reachable state the bytes handed to the transport begin the encoding of the frames begun, and every data frame among them comes after the one and only meta frame for its slot |
| `Link.ConnectedJoint` | coproto/Socket/SocketScheduler.h:814-1137 | in every state two connected schedulers reach, both invariants hold, what each has read is a prefix of what the other has sent, and neither has met a bad header or a failed assertion |
| `Link.SlotAgreement` | coproto/Socket/SocketScheduler.cpp:101-155 | at both ends: the unknown-slot and repeated-announcement errors and the failed assertion are unreachable, and every slot a receiver knows stands for the fork whose session id the sender gave it |
| `Link.ForkIsolation` | coproto/Socket/SocketScheduler.h:814-941 | for every session the bodies given to successful recvs at one end are a prefix, whole message by whole message, of the bodies sent on it at the other end minus the sends cancelled before starting, however forks interleave |
| `Link.AllDelivered` | coproto/Socket/SocketScheduler.h:814-941 | nothing is lost, in either direction: with a sender parked and its wire consumed, what its peer was given on a session is all that was sent on it |
| `Link.BytesAgree` | coproto/Socket/SocketScheduler.h:847-926 | in either direction: with a sender parked and its wire consumed, the peer's `mBytesReceived` equals its `mBytesSent` |
| `Delivery.ComesToRest` | coproto/Socket/SocketScheduler.h:805-1137 | liveness, for every interleaving: while no call is made and no transport fails, the tasks and transports of two connected schedulers take no more steps than the work left in the state they start from |
| `Delivery.RestReached` | coproto/Socket/SocketScheduler.h:805-1137 | so from every state the two reach, some such run leads to a state in which nothing can move |
| `Delivery.AllWait` | coproto/Socket/SocketScheduler.h:696-800 | no wake-up is lost: when nothing can move, each send task is parked with an empty list or has exited after an error, and each receive task has no recv, waits for a recv of a fork that has none, or waits for bytes with all that were sent read |
| `Delivery.NothingLost` | coproto/Socket/SocketScheduler.h:805-1137 | when nothing can move and there is no error, every send has been completed, and for every session all that was sent has been given to recvs, unless the other end has no recv at all or its receive task waits for a recv of a fork that has none |
| `Delivery.PieceArrives` | coproto/Socket/SocketScheduler.h:843-898 | of the bytes on the wire that a receiver waits for any number may arrive next |
| `ForkQueues.ForkQueues.CompleteOn` | coproto/Socket/SocketFork.h:127-153 | the loop over the flush list queues the operation's handle, then exactly the flushes it was the last to hold, in order, and drops its references |
| `ForkQueues.ForkQueues.PushSend` | coproto/Socket/SocketScheduler.h:557-594 | a send joins the blocks of its fork, and the list exactly if its tail is one the send task reaches; every other queue stays as it is |
| `ForkQueues.ForkQueues.CompletePrevSend` | coproto/Socket/SocketScheduler.h:969-989 | the head of the list is completed and leaves the list and the front of its own fork's blocks, tombstones behind it included |
| `ForkQueues.ForkQueues.CancelSend` | coproto/Socket/SocketScheduler.h:601-611 | the handle is queued and the send unlinked in any case; it leaves the blocks exactly if its address is its logical index |
| `ForkQueues.ForkQueues.CancelRecv` | coproto/Socket/SocketScheduler.cpp:65-77 | the handle is queued in any case; the recv leaves the blocks exactly if its address is its logical index |
| `ForkQueues.ForkQueues.DrainList` | coproto/Socket/SocketScheduler.cpp:216-235 | walking the links completes every send in list order, the first with the error and the rest with cancel, each popped from its own fork, and leaves every block queue empty |
| `ForkQueues.ForkQueues.DrainFork` | coproto/Socket/SocketScheduler.cpp:245-254 | one fork's recvs are completed in order and the error becomes cancel once one has it |
| `ForkQueues.ForkQueues.DrainForks` | coproto/Socket/SocketScheduler.cpp:241-256 | every recv of every fork is completed, fork by fork, only the first of all with the error |
| `ForkQueues.ForkQueues.AttachToken` | coproto/Socket/SocketScheduler.cpp:165-171 | the loop of flush gives the token to the last recv and the last send of exactly the forks that have one |
| `Refine.Do` | coproto/Socket/SocketScheduler.h:542-1137 | whatever step comes next, the block queues, the list and the tokens end up holding what the state machine says, and every precondition of the queue and list operations on the way is met |
| `Refine.Replay` | coproto/Socket/SocketScheduler.h:542-1137 | so over every run from a new scheduler: at its end the live slots of every fork's blocks are the operations queued in it, in order, and the links are the send list |
| `Rings.AllLiveClear` | coproto/Common/Queue.h:381-394 | clearing a live slot removes exactly its element from the order of all live elements |
| `Rings.FrontLive` | coproto/Common/Queue.h:261-271 | the front slot holds the first element, and there is one unless the queue is empty |
| `Rings.SkipFront` | coproto/Common/Queue.h:285-303 | dropping a front tombstone, and the block it was the last slot of, changes no element |
| `Rings.PopItems` | coproto/Common/Queue.h:279-304 | popping removes the first live element and no other, however many tombstones and blocks it skips, and leaves a live front |
| `Rings.EraseItems` | coproto/Common/Queue.h:381-394 | erasing a slot removes its element and no other |
| `Rings.FoundAt` | coproto/Common/Queue.h:358-378 | an element that occurs once is found in the slot it stands in |
| `Queue.Block.PushBack` | coproto/Common/Queue.h:325-333 | a value written at the masked end is the new last entry of the window and no entry is overwritten |
| `Queue.Block.Reset` | coproto/Common/Queue.h:387-393 | resetting a logical index clears that entry of the window and no other |
| `Queue.Queue.RoundUp` | coproto/Common/Queue.h:219-229 | the bit smearing gives a power of two exactly if `capacity - 1` has no run of 32 clear bits below a set one, and then the least one that suffices |
| `Queue.Queue.WithCapacity` | coproto/Common/Queue.h:209-212 | a new queue is empty and its block holds the capacity asked for |
| `Queue.Queue.Reserve` | coproto/Common/Queue.h:219-232 | reserving keeps every element in place; the queue stays usable exactly if no block was added behind an empty one |
| `Queue.Queue.MakeRoom` | coproto/Common/Queue.h:234-253 | a full last block is followed by one of twice the capacity, and no element moves |
| `Queue.Queue.PushBack` | coproto/Common/Queue.h:325-354 | the contents grow by the value at the end, and every live element keeps its block and logical index |
| `Queue.Queue.PopFront` | coproto/Common/Queue.h:279-304 | the first element is removed, every other keeps its block and index, and after tombstones and empty blocks are skipped the front is live again |
| `Queue.Queue.Front` | coproto/Common/Queue.h:267-271 | it is the first of the contents |
| `Queue.Queue.Back` | coproto/Common/Queue.h:273-277 | it is the last of the contents exactly while the last slot is live, and fails otherwise |
| `Queue.Queue.Erase` | coproto/Common/Queue.h:381-394 | exactly the element the iterator refers to is removed, every other keeps its block and index |
| `Queue.Queue.EraseSlot` | coproto/Common/Queue.h:358-378 | erasing by address succeeds exactly if the block has not wrapped past the element, and otherwise changes nothing |
| `Queue.EraseSlotFails` | coproto/Common/Queue.h:374-377 | a queue of one element, after eight have passed through, that cannot erase it by its address |
| `Queue.BackFails` | coproto/Common/Queue.h:273-277 | a queue of one element on which `back()` fails |
| `Queue.ReserveFails` | coproto/Common/Queue.h:219-232 | an empty queue on which reserving 16 breaks the invariant |
| `Queue.Queue.Begin` | coproto/Common/Queue.h:170-176 | it refers to the first live element, or is end() |
| `Queue.Queue.Next` | coproto/Common/Queue.h:114-135 | from a live element it goes to the next live one, over tombstones and ends of blocks, and to end() after the last |
| `Queue.Queue.Collect` | coproto/Common/Queue.h:114-135 | a loop from begin() to end() terminates and sees exactly the contents in order |
| `Queue.Replay` | coproto/Common/Queue.h:279-394 | for any interleaving of pushes, pops and erases by iterator the contents are those of a plain sequence under the same calls |
| `Bits.MaskIsMod` | coproto/Common/Queue.h:42-46 | masking with a power of two minus one is the remainder |
| `Bits.SlotsApart` | coproto/Common/Queue.h:54-60 | logical indices less than a capacity apart are in different slots |
| `Bits.SlotIsIndex` | coproto/Common/Queue.h:88-99 | a logical index is its own slot exactly while it is below the capacity |
| `Bits.RoundsUp` | coproto/Common/Queue.h:219-229 | the exact condition for the smeared capacity to be a power of two, and that it is then the least that suffices |
| `Bits.SmallNoGap` | coproto/Common/Queue.h:219-229 | every capacity from 1 to 2^32 meets the condition |
| `Bits.GapAbove` | coproto/Common/Queue.h:219-229 | one more than a power of two from 2^32 on does not, and is rounded to a number that is not a power of two |
| `SendList.SendList.Append` | coproto/Socket/SocketScheduler.h:573-594 | a new send is reached by the send task exactly if the tail was right |
| `SendList.SendList.CompleteHead` | coproto/Socket/SocketScheduler.h:969-989 | the head leaves the list, and a list that becomes empty has a right tail again |
| `SendList.SendList.Cancel` | coproto/Socket/SocketScheduler.h:601-610 | exactly the cancelled operation leaves the list; the tail stays right exactly if it was not the last |
| `SendList.Replay` | coproto/Socket/SocketScheduler.h:573-610 | for any sequence of appends, completions and cancels the links hold what a plain sequence with one flag for the lost tail holds |
| `SendList.LosesNextSend` | coproto/Socket/SocketScheduler.h:607-609 | three sends, the second cancelled behind the first: the first is completed, the list is empty and the third is lost |
| `Operation.RefRecvBuffer.AsSpan` | coproto/Proto/Operation.h:252-277 | the span has the size of the message exactly if the message fits the buffer; otherwise the bad size is reported |
| `Operation.RefRecvBuffer.RejectMessage` | coproto/Proto/Operation.h:252-277 | a rejected message keeps the bad size as its error whatever code completes the recv later |
| `LocalPipe.StepKeeps` | coproto/Socket/LocalAsyncSock.h:289-564 | every start, stop and close keeps the invariant of the pair |
| `LocalPipe.Faithful` | coproto/Socket/LocalAsyncSock.h:436-510 | in each direction, for any split into sends and recvs with any stops and closes, the bytes taken from senders are in order the bytes written to receivers |
| `LocalPipe.Completion` | coproto/Socket/LocalAsyncSock.h:138-142 | an operation succeeds exactly if its whole span was transferred, is resumed exactly once, and no direction ever holds both a pending send and a pending recv |
| `LocalPipe.SpansKept` | coproto/Socket/LocalAsyncSock.h:476-480 | over any run a span is only consumed from its front, a send hands over what it was given, and a completed operation is not touched again |
| `LocalPipe.CloseCompletes` | coproto/Socket/LocalAsyncSock.h:305-334 | close completes every pending operation, with closed at its own end and remoteClosed at the other |
| `LocalPipe.NothingSucceeds` | coproto/Socket/LocalAsyncSock.h:298-303 | after close no operation of either end ever succeeds again |
| `LocalPipe.CodeAfterClose` | coproto/Socket/LocalAsyncSock.h:298-303 | over any run after a close, an operation started at an end completes at once, as aborted if its stop token had fired, else with the error of its end: the one it had, or closed at the end that was closed and remoteClosed at the other |
| `LocalPipe.Outcome` | coproto/Socket/LocalAsyncSock.h:305-395 | what each step does to a pending operation: a start completes it only with success and only with its span used up, its own stop callback aborts it, close gives it the code of its side |
| `LocalPipe.NewOutcome` | coproto/Socket/LocalAsyncSock.h:399-435 | the code of the operation a start makes: aborted, the error its end has or is given, which the end keeps, or none or success |
| `LocalPipe.ResumeOrder` | coproto/Socket/LocalAsyncSock.h:534-544 | a start that completes two operations resumes the waiting one first |
| `LocalPipe.StepsOpen` | coproto/Socket/LocalAsyncSock.h:399-470 | an operation can start exactly if its span is not empty and no other of its kind is pending at its end; a stop callback and a close can always come |
| `LocalAsyncSock.Awaiter.Resume` | coproto/Socket/LocalAsyncSock.h:138-142 | the count returned is the number of bytes transferred, all of them if nothing is left |
| `LocalAsyncSock.Transfer` | coproto/Socket/LocalAsyncSock.h:470-532 | the shorter span is used up, both buffers hold what has been transferred and then what is left, and each side succeeds exactly if its span is empty |
| `LocalAsyncSock.SharedState.MatchPair` | coproto/Socket/LocalAsyncSock.h:459-510 | the match under the lock is the step of the state machine |
| `LocalAsyncSock.SharedState.AwaitSuspend` | coproto/Socket/LocalAsyncSock.h:399-564 | starting an operation on a buffer no pending one uses is the step of the state machine, with the stop, the injected error, the parked and the matched case |
| `LocalAsyncSock.SharedState.StopCallback` | coproto/Socket/LocalAsyncSock.h:364-395 | the stop callback is the step of the state machine: nothing for a completed operation |
| `LocalAsyncSock.SharedState.Close` | coproto/Socket/LocalAsyncSock.h:289-342 | close is the step of the state machine |
| `BufferedLink.StepKeeps` | coproto/Socket/BufferingSocket.h:258-495 | every start, stop, carry, error and close keeps the invariant of the two sockets |
| `BufferedLink.Conservation` | coproto/Socket/BufferingSocket.h:258-344 | in every state the bytes one end sent are those its peer received, in the order its recvs completed, then the peer's inbound buffer, then those being carried, then its own outbound buffer |
| `BufferedLink.RecvOrder` | coproto/Socket/BufferingSocket.h:461-489 | the recvs of an end that take bytes complete in call order exactly if no reader past which another recv was served has taken any; then their bytes in call order are the bytes received |
| `BufferedLink.OutOfOrder` | coproto/Socket/BufferingSocket.h:461-489 | a run in which a recv is served past a parked one that is served later, and the bytes in call order are not those sent |
| `BufferedLink.Completion` | coproto/Socket/BufferingSocket.h:461-489 | a parked reader wants more than is buffered; an operation moves all of its span or nothing; each is resumed exactly once, when it completes; one is pending exactly if it is the parked reader or another recv took its place |
| `BufferedLink.Outcome` | coproto/Socket/BufferingSocket.h:258-438 | what each step does to a pending recv: bytes complete it exactly if it is the parked reader and there are then enough, its stop callback and a close of its socket abort it, the first error of its socket fails it with that error, nothing else completes it |
| `BufferedLink.SocketError` | coproto/Socket/BufferingSocket.h:285-308 | the error of a socket is the first it is given, closed for a close, and stays |
| `BufferedLink.LostForever` | coproto/Socket/BufferingSocket.h:484-489 | a reader whose place another recv has taken is never resumed over any further run, and its stop callback fails its assertion |
| `BufferedLink.StepsOpen` | coproto/Socket/BufferingSocket.h:361-401 | any operation with a span that is not empty can start, any part of the bytes taken can be given, and a stop callback fails exactly for a pending reader whose place another recv has taken |
| `BufferedLink.SecondReader` | coproto/Socket/BufferingSocket.h:484-489 | two recvs on a fresh pair: the second takes the place of the first |
| `BufferedLink.CloseCancelsFuture` | coproto/Socket/BufferingSocket.h:408-438 | a request made after close is cancelled exactly if its stop token had fired, succeeds exactly if it is a send or its bytes are there, and parks otherwise |
| `BufferedLink.RequestsAfterClose` | coproto/Socket/BufferingSocket.h:408-438 | after close on a fresh pair a send succeeds and a recv parks |
| `BufferingSocket.Buffer.Push` | coproto/Socket/BufferingSocket.h:193-198 | the bytes follow the flat contents |
| `BufferingSocket.Buffer.Pop` | coproto/Socket/BufferingSocket.h:168-190 | chunk by chunk, exactly the prefix of the flat contents is taken, however it is cut |
| `BufferingSocket.Buffer.PopAll` | coproto/Socket/BufferingSocket.h:216-230 | the flat contents are returned and nothing is left |
| `BufferingSocket.SockImpl.AwaitSuspend` | coproto/Socket/BufferingSocket.h:440-495 | a send is buffered; a recv gets the front of the buffer if there is enough, also past a parked reader, and otherwise parks in its place |
| `BufferingSocket.SockImpl.StopCallback` | coproto/Socket/BufferingSocket.h:361-401 | a pending recv is aborted and unparked, a completed operation is left alone |
| `BufferingSocket.SockImpl.ProcessInbound` | coproto/Socket/BufferingSocket.h:258-283 | the reader is resumed exactly if it now has enough, with exactly the bytes it asked for |
| `BufferingSocket.SockImpl.SetError` | coproto/Socket/BufferingSocket.h:285-308 | the first error is kept and fails the parked reader; a later one does nothing |
| `BufferingSocket.SockImpl.Close` | coproto/Socket/BufferingSocket.h:408-438 | the first error is kept and a parked reader is aborted in any case |
| `BufferingSocket.SockImpl.GetOutbound` | coproto/Socket/BufferingSocket.h:310-318 | everything buffered is taken; nothing is returned only by an empty socket that has failed |
| `BufferingSocket.ExchangeMessages` | coproto/Socket/BufferingSocket.h:320-344 | both outbound buffers are emptied, every byte has reached the other side's reader or inbound buffer in order, and either both sockets have failed or neither has |
| `Asio.ResumedOnce` | coproto/Socket/AsioSocket.h:938-995 | over any number of retries the handle is resumed at most once, never while a party has yet to arrive or a timer runs, no wake-up is lost, and the delay after n retries is min(2^n, 1000) ms |
| `Asio.LastArrivalActs` | coproto/Socket/AsioSocket.h:948-993 | an attempt ends in exactly one resume or one retry, taken by the last party to arrive |
| `Asio.StopEnds` | coproto/Socket/AsioSocket.h:905-920 | after a stop request a connect takes at most three more steps, with at most the retry whose timer was running, and then it has resumed |
| `Asio.NeverGivesUp` | coproto/Socket/AsioSocket.h:948-966 | with retrying on and no stop request a connect never resumes with a refused connection |
| `Asio.AsioConnect.InitiatorArrives` | coproto/Socket/AsioSocket.h:976-993 | the initiator does nothing unless the handler has come before it; if it has, exactly one of retry and resume happens, a retry exactly if the attempt was refused, retrying is on and no stop was requested |
| `Asio.AsioConnect.ConnectHandler` | coproto/Socket/AsioSocket.h:941-966 | the same for the handler, with the result it brings |
| `Asio.AsioConnect.TimerHandler` | coproto/Socket/AsioSocket.h:1045-1063 | a retry starts an attempt both parties have still to arrive at, and after n retries the delay is min(2^n, 1000) ms |
| `Asio.AsioConnect.CancelCallback` | coproto/Socket/AsioSocket.h:905-920 | a stop request is remembered and changes nothing else |
| `Asio.AcceptResumedOnce` | coproto/Socket/AsioSocket.h:1134-1185 | a TLS accept, failed or not, resumes its handle exactly once and only when the initiator and both handlers have left |
| `Asio.AcceptEnds` | coproto/Socket/AsioSocket.h:1134-1185 | it takes at most four steps, and until it has resumed some party can move |
| `Asio.AcceptAwaiter.AcceptHandler` | coproto/Socket/AsioSocket.h:1138-1149 | after it the handle has been resumed exactly if every party has left; a failed accept leaves with both counts at once, a successful one starts the handshake and never resumes |
| `Asio.AcceptAwaiter.AcceptHandlerLeave` | coproto/Socket/AsioSocket.h:1167-1172 | the accept handler that has started the handshake resumes the handle exactly if the others have left before it |
| `Asio.AcceptAwaiter.InitiatorLeave` | coproto/Socket/AsioSocket.h:1176-1185 | the initiator resumes the handle exactly if both handlers have left before it |
| `Asio.AcceptAwaiter.HandshakeHandler` | coproto/Socket/AsioSocket.h:1150-1162 | the handshake handler resumes it exactly if the others have left before it |
| `SessionIds.SessionID.Derive` | coproto/Proto/SessionID.h:41-65 | the five rounds in place give the derived id, the child starts with counter zero, and only the parent's counter moves |
| `SessionIds.RoundsInjective` | coproto/Proto/SessionID.h:54-59 | the rounds lose nothing: for each child index different ids stay different until the last exclusive-or |
| `SessionIds.ChildrenDiffer` | coproto/Proto/SessionID.h:41-65 | children of one socket whose indices differ in parity have different ids |
| `SessionIds.ForksApart` | coproto/Socket/SocketScheduler.cpp:92-99 | a fork moves its socket's counter on by one, and the next fork of that socket gets another id |
| `SessionIds.RootChildren` | coproto/Proto/SessionID.h:41-95 | the ids of the first two children of the root session, bit for bit |
| `SessionIds.ForkKeeps` | coproto/Socket/SocketScheduler.cpp:92-120 | a fork keeps the naming invariant: ids are those of the paths, counters are numbers of children, a fork only the peer has named has none |
| `SessionIds.NamesAgree` | coproto/Proto/SessionID.h:41-65 | the id of a socket depends only on the root and its path of child indices, at both endpoints and for every order of forks and of sessions first named by the peer |
| `SessionIds.SameForksSameNames` | coproto/Socket/SocketScheduler.cpp:92-155 | two endpoints that fork each socket equally often hold the same sockets with the same ids |
| `Sockets.SidOfInjective` | coproto/Proto/SessionID.h:68-74 | different ids have different bytes in a meta message |
| `Sockets.SidExample` | coproto/Socket/SocketScheduler.h:74-83 | the sixteen bytes of an id: its first word first, and of each word the low ones |
| `Sockets.SocketIsolation` | coproto/Socket/SocketScheduler.cpp:92-155 | in every state two users and their connected schedulers reach, a socket at one end talks to the socket at the other that the same forks led to and to no other: its recvs were given a prefix, message by message, of what was sent there |
| `Sockets.KthFork` | coproto/Socket/SocketScheduler.cpp:92-99 | the k-th fork of a socket is there exactly if it was forked more than k times, and talks to the k-th fork of the same socket at the other end |
| `Sockets.ForkAsserts` | coproto/Socket/SocketScheduler.cpp:101-127 | the scheduler finds the fork of every socket its user holds, and what fork asserts is that no socket of the user has the derived id |
| `Sockets.LocalSlots` | coproto/Socket/SocketScheduler.h:336-337 | in every reachable state the slots given to local forks are 1 up to their number, the root's being 1 |

## Left out

- Stop tokens, coroutines and `ExecutionQueue`: a stop callback and a transport completion are steps that may come at any time; the queue of handles is a log; executors of forks are not part of this model.
- The transport below the scheduler: it may take or deliver any number of bytes and fail at any time with any code but the two the scheduler makes itself; success means a full transfer. `checkRecv` and `checkSend` return `ioError` on a short transfer without assigning it (coproto/Socket/SocketScheduler.h:817-821, 1039-1043), so the code depends on that contract; `LocalPipe.Completion` proves it of the in-process socket.
- Scheduler.CanSend: a call of send that joins the list is a step only while the tail of the list has not been cancelled, because otherwise the operation is lost (see Findings); `ForkQueues.PushSend` and `SendList.Replay` cover that case. Bodies are below 2^32 - 1 bytes, as the send task asserts.
- Scheduler.CanCancelSend, Scheduler.CanCancelRecv, Scheduler.CanFlush: a stop callback that cannot erase by address, and a flush that reads an erased slot, are undefined from there on and are not steps; what they do up to the failure is in the contracts of `ForkQueues`.
- SessionIds.ChildrenDiffer: says nothing of indices of the same parity; whether such children collide depends on the hash.
- Scheduler.CanFork: assumes fewer than 2^32 - 2 forks and that derived session ids do not collide, as the source asserts; `Sockets.ForkAsserts` says what the latter means to a user.
- Regions of the scheduler that only assign error, status and program counter are functions of `Scheduler` and have no second form as methods; `ForkQueues` keeps everything the code links, loops over or finds by address. A send operation is a node the block's slot refers to, not stored in the slot itself.
- Byte counters, logical indices and the child counter do not wrap at 2^64.
- `LocalPipe` treats each match as one step: the copy made after the lock is released, and data races on it, are not part of this model.
- The stop callback of a recv whose place another recv has taken fails its assertion and is not a step of `BufferedLink`.
- BufferingSocket.ExchangeMessages: what resumed coroutines do happens after the exchange, not inside it; runs of `BufferedLink` cover any interleaving.
- `Buffer::push(Buffer&&)`, `Queue::clear`, `BlockingQueue`, `SessionID::random`: unused by the core or easy.
- `Buffers.h`, `Socket.h`, `InlinePoly`, `AnyNoCopy`, `TypeTraits`, `CLP`, `Util`, error messages, address resolution, Boost.Asio and OpenSSL calls, and the TLS connect awaiter, which repeats the accept counter with the connect retry.
