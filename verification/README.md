# Reactor, protocol and timetable: a verified model

The repository is a small server in C++: a reactor network library (`net/`) with one event loop per
thread, and a business server (`server/`) that speaks a length-prefixed protocol and keeps bitmask
timetables. This project models its stateful core in Dafny and proves what that core is for.

How the files are organised:

- `Poller.dfy` - channel interest bits and the epoll poller: the value functions (`PollerModel`) and
  the mutable `Channel` and `EPollPoller` (`PollerObjects`).
- `EventLoop.dfy` - the pending-functor list and the wakeup eventfd: a transition system in which every
  producer's push and wakeup are separate steps (`LoopModel`), and the mutable `EventLoop`, whose ghost
  `model` field makes the same steps (`LoopObjects`).
- `ConnModel.dfy`, `Reactor.dfy`, `ReactorInv.dfy`, `ReactorSteps.dfy`, `ReactorTheorems.dfy` - the
  multi-loop accept and teardown protocol: N IO loops and a base loop, each with a phase, a dispatch
  list, a functor FIFO and batch, a poller and a kernel interest set. A run is any interleaving of the
  loops' steps with calls from other threads.
- `ReactorProgress.dfy`, `ReactorFairness.dfy` - teardown gets done; `ReactorGuards.dfy`,
  `ReactorRuns.dfy` - exactly when `forceClose` and `send` do harm, and concrete runs in which they do.
- `Connection.dfy` - the mutable `TcpConnection`, `EventLoopThreadPool` and `TcpServer`. One dispatch and
  one posted functor act on an object exactly as `ActedAll` and `Performed` say, and so do the steps
  `Act` and `RunFunctor` of the transition system on its connections; `Enabling`, `Established` and
  `NewConn` are shared in the same way.
- `TimerModel.dfy`, `TimerInv.dfy`, `TimerSteps.dfy`, `TimerTheorems.dfy`, `TimerCancel.dfy`,
  `TimerQueue.dfy` - the timer queue as a transition system with a heap of timers, and the mutable
  `TimerQueue` that refines it.
- `Buffer.dfy`, `Framing.dfy`, `Output.dfy` - the byte buffer, the frame decoder, the output path.
- `Schedule.dfy`, `HourMask.dfy` - the timetable cache and the hour masks.
- `Common.dfy` - an option type and the like.

## What the code does not do

Some properties one would expect are false of the code. Each has a lemma that says exactly when the
property holds, and one that exhibits a failing input.

- A frame stream is not always independent of how it is cut into reads: an oversize header empties the
  buffer, so bytes behind it are lost or kept depending on the cut. Independence holds exactly when
  nothing follows the first oversize header (`ChunkInvarianceIff`, `LastByteSplit`).
- Buffered output is not always drained: `isWriting()` compares for equality, so with read interest on
  no buffered byte is written before the close. Until then it can be drained exactly when write interest
  is the only interest (`DrainsIff`, `PartialWriteIsFinal`). A send after the close makes it the only
  interest, and the old rest is then written (`SendAfterCloseDrains`).
- One dispatch can run `handelClose` and then the read path: exactly for a hang-up without `EPOLLIN`
  whose read callback still gets data or end of file (`DispatchSafeIff`); a report is safe whatever the
  read will return exactly when it does not both hang up and read (`SafeWhateverReadIff`).
- `forceClose` does no harm exactly on an open connection (`ForceCloseGuardIff`): on any other, some
  continuation fails an assert or runs the callbacks out of order. Runs: on a closed one, for instance from
  its down callback (`LateForceCloseRun`), and between accept and connectEstablished, where so far only the
  server's own code has the pointer (`EarlyForceCloseRun`).
- A send that leaves bytes over does no harm exactly when the connection is open, or its loop will put the
  channel in order before it polls again: by connectEstablished, by connectDestroyed, or by a write callback
  that drains what was left over (`SendGuardIff`). Otherwise it passes the poller's asserts, registers the
  channel of a connection that is not open, and a later hang-up makes `handelClose` fail its assert
  (`SendPasses`; `LateSendRun` for a connection closed by its peer's end of file, which can still be
  written to).
- A loop can go to sleep on work its owner queued before `loop()` (`StartAwakeIff`, `EarlyPushSleeps`).
- A cancel is not always final: exactly when it finds the timer active or a one-shot of the running batch
  that was already started (`CancelFinalIff`). It is ignored for a timer that waits to be added, for a
  batch member whose turn has not come (`FailingCancel` gives the run), and for a repeating member of the
  batch (`CancelInBatchIgnored`).
- `id()` returns an `int`, so the server erases the right map entry exactly for ids below 2^31
  (`EraseFindsEntryIff`).
- Switching off all interest does not always take the fd out of the kernel set: exactly when the channel
  was added (`EmptyMaskLeavesIff`). A new channel, and one disabled before, is registered with an empty
  mask instead (`SecondDisableAllReAdds`).

Where code and documentation disagree, the code is followed: `server/business/BusinessServer.h:163`
promises framed responses while `sendResponse` (`server/business/BusinessServer.cpp:1867-1871`) sends
the bare body; the message for an oversize header says that the connection is closed, and the code only
empties the buffer (`server/business/BusinessServer.cpp:384-389`); the schema of `course_templates`
(`sql/qinyun_all.sql:231-246`) has no `time_mask` column, which the code reads and writes.

## Model

| member | source | states |
|---|---|---|
| PollerModel.AssertsHoldIff | net/src/poller.cpp:60-103 | in a consistent world the asserts of updateChannel and removeChannel hold exactly for the operations a caller may make: remove after registering, register on a free fd |
| PollerModel.OpKeepsConsistent | net/src/poller.cpp:60-128 | every such operation keeps channel index, fd map, kernel set and kernel masks in agreement, and its ADD, MOD or DEL is accepted |
| PollerModel.RunStaysConsistent | net/src/poller.cpp:60-128 | the same over any sequence of operations on any number of channels |
| PollerModel.SecondDisableAllReAdds | net/src/poller.cpp:62-77 | disabling everything twice leaves the fd in the kernel set with an empty mask |
| PollerModel.EmptyMaskLeavesIff | net/src/poller.cpp:60-90 | an operation that leaves no interest takes the fd out of the kernel set exactly when the channel was added; otherwise it is registered with an empty mask |
| PollerModel.NewChannelKeepsConsistent | net/src/channel.cpp:8-19 | a new channel joins the world without disturbing it |
| PollerObjects.Channel.EnableReading | net/include/channel.h:25 | sets exactly the bits EPOLLIN and EPOLLPRI, and channel and poller become what the modelled operation says |
| PollerObjects.Channel.DisableReading | net/include/channel.h:26 | clears exactly the read bits, channel and poller as modelled |
| PollerObjects.Channel.EnableWriting | net/include/channel.h:27 | sets the write bit, channel and poller as modelled |
| PollerObjects.Channel.DisableWriting | net/include/channel.h:28 | clears exactly the write bit, channel and poller as modelled |
| PollerObjects.Channel.DisableAll | net/include/channel.h:29 | clears every bit, channel and poller as modelled |
| PollerObjects.Channel.Remove | net/src/channel.cpp:33-37 | the channel is in no map and no kernel set, and no longer counts as added |
| PollerObjects.Channel.Update | net/src/channel.cpp:27-31 | the poller is told the current events and the channel counts as added |
| PollerObjects.EPollPoller.UpdateChannel | net/src/poller.cpp:60-90 | under the two asserts: a new channel enters the fd map; one that was added is modified in the kernel set, or leaves it when its mask is empty; any other is added with its mask |
| PollerObjects.EPollPoller.RemoveChannel | net/src/poller.cpp:91-103 | under the two asserts: the fd leaves the map, and the kernel set when the channel was added |
| PollerObjects.EPollPoller.FillActiveChannels | net/src/poller.cpp:105-113 | the active list is the registered channels of the reported fds, in order, each with its reported events |
| PollerObjects.EPollPoller.UpdateKernel | net/src/poller.cpp:114-128 | the kernel set after epoll_ctl, or a refusal counted |
| LoopModel.StepKeepsInv | net/src/eventloop.cpp:69-180 | every step of owner and producers keeps the queue's history and announcement invariant |
| LoopModel.NoLostWakeup | net/src/eventloop.cpp:73-123 | over every interleaving, a loop at epoll_wait with pending functors has a readable eventfd or a producer about to write it, unless its owner queued them before loop() |
| LoopModel.StartAwakeIff | net/src/eventloop.cpp:69-76 | entering loop() is awake exactly when the owner queued nothing before or somebody announced work |
| LoopModel.EarlyPushSleeps | net/src/eventloop.cpp:113-123 | the failing run: queue from the owner thread, then loop() |
| LoopModel.FunctorsRunOnceInOrder | net/src/eventloop.cpp:113-123 | at every step of every run: executed, then the rest of the batch, then pending is the whole push history |
| LoopModel.FunctorsAt | net/src/eventloop.cpp:113-118 | a series of queueInLoop calls appends one functor per call, in the order of the calls |
| LoopObjects.EventLoop.QueueInLoop | net/src/eventloop.cpp:113-123 | appends the functor and makes exactly the model steps of a push; the eventfd is written exactly when the caller is another thread or functors are running |
| LoopObjects.EventLoop.Wakeup | net/src/eventloop.cpp:126-129 | the eventfd counter goes up by one below its limit of 2^64 - 2, and is readable |
| LoopObjects.EventLoop.HandleRead | net/src/eventloop.cpp:161-164 | the counter is zero afterwards, the pending list is untouched, and the loop stays awake for what is pending |
| LoopObjects.EventLoop.DoPendingFunctors | net/src/eventloop.cpp:166-180 | exactly the functors pending at the swap run, once and in order; what any thread queued meanwhile is pending in order and announced |
| LoopObjects.EventLoop.RunFunctor | net/src/eventloop.cpp:174-177 | one functor leaves the batch, and what it and other threads queue meanwhile is appended |
| LoopObjects.EventLoop.OneTurn | net/src/eventloop.cpp:73-87 | one poll, handle, run cycle runs everything queued, by whatever thread, up to the swap; when nothing is queued after epoll_wait returned, the eventfd is unreadable afterwards |
| LoopObjects.EventLoop.Loop | net/src/eventloop.cpp:69-90 | any number of turns executes exactly the concatenation of the turns' batches |
| ConnModel.DispatchSafeIff | net/include/channel.h:60-80 | the callbacks of one report stay inside the connection's window exactly when it is no double close |
| ConnModel.SafeWhateverReadIff | net/include/channel.h:60-80 | before the read is known: a report is safe whatever it returns exactly when it does not both hang up and read |
| ConnModel.ActedInOrder | net/include/channel.h:60-80 | a report's callbacks run in the order close, read, write, error, each under its own bits |
| ConnModel.CallbackBits | net/include/channel.h:63-78 | which event bits lead to which callback: close for EPOLLHUP without EPOLLIN, read for any of EPOLLIN, EPOLLPRI and EPOLLRDHUP, write for EPOLLOUT, error for EPOLLERR |
| ConnModel.ReportOutcome | net/include/channel.h:60-80 | on the event bits: a report closes the connection exactly on a hang-up without EPOLLIN or a read of end of file, records exactly the callbacks that run, and otherwise leaves state and channel alone |
| ConnModel.RegisteredStays | net/include/channel.h:60-80 | no callback of a dispatch takes the channel out of the poller's map, and the poller's asserts hold for it |
| Reactor.EraseFindsEntryIff | net/src/tcpserver.cpp:23 | erase(conn->id()) names the entry made under the 64-bit id exactly for ids below 2^31; the id is cut to 32 bits |
| Reactor.ActingSide | net/include/channel.h:60-80 | a callback in the multi-loop system does to connection and poller what the object's dispatch does, and queues one functor exactly when it closes |
| Reactor.PerformingSide | net/src/eventloop.cpp:174-177 | a functor in the multi-loop system does to connection and poller what the object's functor does |
| Reactor.PerformingQueues | net/src/tcpserver.cpp:19-25 | a functor queues exactly connectDestroyed or the hop to the base loop, when it closes or removes |
| Reactor.AcceptingSide | net/src/tcpserver.cpp:6-17 | accept enters the connection in the server map under the next id; a single loop establishes it at once, and otherwise exactly one functor on the loop whose turn it is will |
| Reactor.ForceClosingSide | net/src/tcpconnection.cpp:63-67 | forceClose sets the state whatever it was, queues exactly one forceCloseInloop on the connection's loop and touches nothing else |
| ReactorSteps.StepKeepsInv | net/src/tcpserver.cpp:6-25 | every step of every loop or thread satisfies its asserts and keeps the protocol invariant, sends on connections that are not open included wherever they do no harm |
| ReactorSteps.UnownedFinished | net/src/tcpserver.cpp:20-25 | a connection that nothing holds any more has been through connectDestroyed |
| ReactorTheorems.NoAssertFails | net/src/tcpconnection.cpp:34-145 | in every reachable state every enabled step's asserts hold: lifecycle states, poller and channel asserts, thread checks, destructor asserts, no dead object used; the steps include every send and every forceClose that do no harm |
| ReactorTheorems.LifeCycle | net/src/tcpconnection.cpp:63-145 | in every reachable state a connection's history has the allowed shape and its state, registration and life agree with it |
| ReactorTheorems.ShapeMeansOnce | net/src/tcpconnection.cpp:76-145 | in the allowed shape up, down and destroyed happen at most once and in that order, with messages only between up and down |
| ReactorTheorems.OnlyForward | net/src/tcpconnection.cpp:63-145 | one step only extends histories and moves states along Connecting, Connected, Disconnecting, Disconnected |
| ReactorTheorems.RegisteredIsHeld | net/src/tcpserver.cpp:15-24 | a connection in a poller map is alive, and in the server map or held by a queued connectDestroyed |
| ReactorTheorems.FreeFdUnregistered | net/src/poller.cpp:64-68 | an fd that no living connection owns is in no poller map and no kernel set, so a recycled fd can be registered |
| ReactorTheorems.DispatchKeepsChannels | net/src/tcpserver.cpp:20-25 | while a loop dispatches events, no step anywhere removes or destroys one of its registered channels |
| ReactorSteps.SendPasses | net/src/tcpconnection.cpp:53-60 | the poller's asserts hold for a send on any living connection, open or not |
| ReactorGuards.ForceCloseGuardIff | net/src/tcpconnection.cpp:63-67 | on a living connection of a reachable state, every continuation of forceClose meets its asserts and keeps all callbacks in order exactly when the connection is connected or disconnecting |
| ReactorGuards.SendGuardIff | net/src/tcpconnection.cpp:34-61 | the same for a send with bytes left over, exactly when the connection is open or its loop puts the channel in order before it polls again |
| ReactorGuards.ForcedTooEarly | net/src/tcpconnection.cpp:63-80 | once forced, a connection that is established afterwards fails connectEstablished's assert |
| ReactorGuards.ForcedTooLate | net/src/tcpconnection.cpp:63-75 | the queued functor of a forceClose on a closed connection closes it a second time |
| ReactorGuards.StrayFails | net/include/channel.h:60-80 | a connection that is not open but registered gets a hang-up reported, and handelClose's assert fails |
| ReactorRuns.LateSendRun | net/src/tcpconnection.cpp:34-61 | a connection closed by end of file, a send with bytes left over, a hang-up, and handelClose's assert fails |
| ReactorRuns.LateForceCloseRun | net/src/tcpconnection.cpp:63-75 | a reachable closed connection, a forceClose, and through the queue it is closed again after connectDestroyed |
| ReactorRuns.EarlyForceCloseRun | net/src/tcpconnection.cpp:63-80 | a reachable connection that is not established, a forceClose, and connectEstablished's assert fails |
| ReactorProgress.TurnComes | net/src/eventloop.cpp:73-87 | a queued functor gets its turn through its loop's own steps, whatever its callbacks and the other functors do |
| ReactorProgress.TeardownCanFinish | net/src/tcpserver.cpp:19-25 | from every reachable state the loops can, by their own steps, destroy every connection that was ever closed |
| ReactorFairness.RunsInTime | net/src/eventloop.cpp:73-87 | in every run in which a loop completes two turns, each functor that waited on it has run |
| ReactorFairness.TeardownFinishes | net/src/tcpserver.cpp:19-25 | in every run, a closed connection is destroyed once the base loop and then its own loop have completed two turns each |
| ReactorTheorems.SlotLoad | net/src/eventloop.cpp:242-250 | after n placements over k loops, loop j has floor((n+k-1-j)/k) of them |
| ReactorTheorems.RoundRobinFair | net/src/tcpserver.cpp:9-15 | in every reachable state the accepted connections are spread like that, and each got a new id |
| ConnectionObjects.TcpConnection.constructor | net/src/tcpconnection.cpp:5-18 | a connecting, unregistered connection with empty buffers, and the id cut to an int |
| ConnectionObjects.TcpConnection.ConnectEstablished | net/src/tcpconnection.cpp:76-85 | under its asserts: connected, read interest on in channel and kernel, up callback recorded |
| ConnectionObjects.TcpConnection.ConnectDestroyed | net/src/tcpconnection.cpp:86-96 | channel gone from poller and kernel; a connected connection gets its down callback but keeps its state |
| ConnectionObjects.TcpConnection.HandleClose | net/src/tcpconnection.cpp:134-145 | disconnected, all interest off, and exactly one functor queued: connectDestroyed inline on the base thread, else the hop to the base loop |
| ConnectionObjects.TcpConnection.ForceClose | net/src/tcpconnection.cpp:63-67 | disconnecting from whatever state, with exactly one forceCloseInloop queued |
| ConnectionObjects.TcpConnection.ForceCloseInLoop | net/src/tcpconnection.cpp:68-75 | closes an open connection, and touches nothing of a closed one |
| ConnectionObjects.TcpConnection.HandleRead | net/src/tcpconnection.cpp:98-113 | end of file closes, an error changes nothing, data is appended and all complete frames are delivered |
| ConnectionObjects.TcpConnection.SendInLoop | net/src/tcpconnection.cpp:34-61 | a payload goes behind what is buffered or while writing; otherwise a complete direct write leaves buffer and interest alone, a partial one buffers exactly the rest, a failed one changes nothing; write interest goes on exactly when a rest stays |
| ConnectionObjects.TcpConnection.HandleWrite | net/src/tcpconnection.cpp:114-133 | writes from the front of the output buffer only when write interest is the only interest, and switches it off when drained |
| ConnectionObjects.TcpConnection.HandleEvent | net/include/channel.h:46-80 | unless the close callback runs twice, one dispatch meets every assert and has the effects of its callbacks in order. On the event bits: with EPOLLIN and no end of file state, server map and queues stay; EPOLLHUP without EPOLLIN disconnects; with an input bit and data the frames of old contents and data are delivered, otherwise the input buffer stays; output moves only under EPOLLOUT with write interest alone |
| ConnectionObjects.TcpConnection.Dispatch | net/include/channel.h:60-80 | the three callbacks, each under its own bits, with everything they change |
| ConnectionObjects.TcpConnection.RunTask | net/src/eventloop.cpp:174-177 | a posted functor runs on the objects as in the multi-loop system, and queues what it queues there |
| ConnectionObjects.TcpConnection.HandleInput | net/include/channel.h:63-70 | the close and read callbacks of a dispatch, with delivered frames and queued functors |
| ConnectionObjects.TcpConnection.HandleOutput | net/include/channel.h:71-74 | the write callback of a dispatch, with the output path's bytes |
| ConnectionObjects.EventLoopThreadPool.GetNextLoop | net/src/eventloop.cpp:242-250 | the next loop in turn, or the base loop when there are no threads |
| ConnectionObjects.TcpServer.OnNewConnection | net/src/tcpserver.cpp:6-17 | a new connection in the map under a new id, established inline on the base loop or by exactly one functor on the chosen loop, other loops untouched |
| ConnectionObjects.TcpServer.RemoveConnection | net/src/tcpserver.cpp:19 | inline removal on the base thread, and otherwise exactly one functor on the base loop with the map unchanged |
| ConnectionObjects.TcpServer.RemoveConnectionInLoop | net/src/tcpserver.cpp:20-25 | the entry of id() leaves the map, and one connectDestroyed goes to the connection's loop |
| BufferObjects.FirstLineIs | net/src/buffer.cpp:141-146 | the first line is the shortest prefix that ends in a line end |
| BufferObjects.Buffer.constructor | net/src/buffer.cpp:29-31 | an empty buffer |
| BufferObjects.Buffer.Copy | net/src/buffer.cpp:32-34 | same bytes in storage of its own |
| BufferObjects.Buffer.Move | net/src/buffer.cpp:35-40 | takes over bytes and storage and leaves a usable empty buffer |
| BufferObjects.Buffer.Assign | net/src/buffer.cpp:41-46 | copy assignment, also from itself |
| BufferObjects.Buffer.AssignMove | net/src/buffer.cpp:47-52 | move assignment, also from itself |
| BufferObjects.Buffer.Swap | net/src/buffer.cpp:53-58 | exchanges storage and both indices |
| BufferObjects.Buffer.MakeSpace | net/src/buffer.cpp:12-27 | room for len bytes by growth or overlapping compaction, readable bytes unchanged; the assert in the compacting branch always holds |
| BufferObjects.Buffer.MoveDown | net/src/buffer.cpp:21-22 | the overlapping forward copy moves the readable bytes intact |
| BufferObjects.Buffer.Resize | net/src/buffer.cpp:16 | growing the storage keeps its bytes |
| BufferObjects.Buffer.Retrieve | net/src/buffer.cpp:65-69 | drops len bytes from the front |
| BufferObjects.Buffer.RetrieveAll | net/src/buffer.cpp:70-74 | empties the buffer |
| BufferObjects.Buffer.RetrieveAsString | net/src/buffer.cpp:79-86 | returns the first len bytes and drops them |
| BufferObjects.Buffer.RetrieveAllAsString | net/src/buffer.cpp:75-78 | returns everything and empties the buffer |
| BufferObjects.Buffer.Append | net/src/buffer.cpp:88-93 | the data follows what was readable |
| BufferObjects.Buffer.EnsureWritableBytes | net/src/buffer.cpp:94-100 | at least len writable bytes, readable bytes unchanged |
| BufferObjects.Buffer.HasWritten | net/src/buffer.cpp:102-106 | bytes already put at the write position become readable |
| BufferObjects.Buffer.ReadFd | net/src/buffer.cpp:107-132 | exactly the delivered bytes are appended, including those that spilled into the 64 KiB segment; an error appends nothing |
| BufferObjects.Buffer.Prepend | net/src/buffer.cpp:133-138 | the data goes before what was readable, down to index 0 |
| BufferObjects.Buffer.GetLine | net/src/buffer.cpp:139-148 | takes off the first complete line, or nothing |
| FrameModel.DigitsRoundTrip | server/business/BusinessServer.cpp:373-375 | k big-endian bytes give back every number below 256^k |
| FrameModel.BigEndianRoundTrip | server/business/BusinessServer.cpp:373-375 | conversely, any bytes are the big-endian form of the number they spell |
| FrameModel.HeaderRoundTrip | server/business/BusinessServer.cpp:373-375 | the header of a frame spells the length of its body, whatever follows the frame |
| FrameModel.HeaderBytes | server/business/BusinessServer.cpp:373-384 | the body length is the first four bytes, most significant first, and a frame is oversize above 4194304 |
| FrameModel.FirstFrame | server/business/BusinessServer.cpp:367-397 | on the bytes: fewer than four wait, a length above 4194304 is oversize, an incomplete body waits, a complete one is delivered and decoding goes on behind it |
| FrameModel.FrameRoundTrip | server/business/BusinessServer.cpp:339-397 | any list of legal bodies, empty ones included, is decoded exactly with nothing left over |
| FrameModel.EncodeDecode | server/business/BusinessServer.cpp:367-397 | conversely, any stream is the encoding of its decoded bodies followed by the undecodable rest |
| FrameModel.DecodeSplit | server/business/BusinessServer.cpp:339-397 | decoding is incremental: further bytes continue where it stopped |
| FrameModel.FramesBeforeOversize | server/business/BusinessServer.cpp:384-389 | frames before an oversize header are delivered, and nothing stays behind it |
| FrameModel.ChunksFrom | server/business/BusinessServer.cpp:339-397 | any split of a stream with legal headers delivers the same bodies and keeps the same rest |
| FrameModel.ChunksToOversize | server/business/BusinessServer.cpp:384-389 | the same for a stream that ends with an oversize header |
| FrameModel.FeedAppend | net/src/tcpconnection.cpp:98-113 | one more read at the end delivers after the earlier ones and continues from what they kept |
| FrameModel.ChunkInvarianceIff | server/business/BusinessServer.cpp:339-397 | all splits agree with decoding at once exactly when no byte follows the first oversize header |
| FrameModel.LastByteSplit | server/business/BusinessServer.cpp:384-389 | otherwise cutting off the last byte gives a different result |
| FrameObjects.TryExtractPacket | server/business/BusinessServer.cpp:367-397 | takes exactly the first frame off the buffer, at least four bytes; without one the buffer stays, and an oversize header empties it |
| FrameObjects.OnMessage | server/business/BusinessServer.cpp:339-365 | the loop delivers all complete frames in order and ends with the decoder's rest |
| FrameObjects.ReadAndExtract | net/src/tcpconnection.cpp:98-113 | one read event on the buffer is one step of the chunk model |
| FrameObjects.ReadSeries | net/src/tcpconnection.cpp:98-113 | a stream read in pieces of any size readFd can take is the chunk model of some split of it, and gives the result of decoding at once unless something follows an oversize header |
| OutputModel.DoConserves | net/src/tcpconnection.cpp:34-61 | every send, write event and close keeps written bytes followed by buffered bytes equal to what is owed, and all but the close keep write interest on while bytes are buffered |
| OutputModel.RunConserves | net/src/tcpconnection.cpp:114-133 | the same over any run with arbitrary partial writes; the write interest until the close |
| OutputModel.SentIs | net/src/tcpconnection.cpp:34-61 | a send that must queue, one that the socket refuses, and one that it takes in part or completely: bytes written, bytes buffered and interest of each |
| OutputModel.PayloadsInOrder | net/src/tcpconnection.cpp:34-61 | over every run the written bytes followed by the buffered ones grow by exactly the payloads in order, without those whose direct write failed |
| OutputModel.Stalls | net/src/tcpconnection.cpp:117-121 | while another interest bit is on, no run writes a further byte before the close, and all payloads pile up in order |
| OutputModel.DrainsIff | net/include/channel.h:32 | before the close buffered output can be drained exactly when write interest is the only interest |
| OutputModel.PartialWriteIsFinal | net/src/tcpconnection.cpp:34-61 | with read interest on, the rest of a partial first write is not written before the close |
| OutputModel.SendAfterCloseDrains | net/src/tcpconnection.cpp:134-139 | after the close the next send makes write interest the only one, and the old rest is written before the new payload |
| TimerSet.InsertedSorted | net/src/timer.cpp:128-129 | inserting a new entry keeps the set sorted |
| TimerSet.ErasedMembers | net/src/timer.cpp:109 | erasing removes exactly the entry |
| TimerSet.DueExactly | net/src/timer.cpp:140-142 | the entries below the bound (now, UINTPTR_MAX) are exactly those due |
| TimerModel.HowMuchTimeFromNow | net/src/timer.cpp:19-32 | a normalised timespec of at least 100 microseconds that never ends before the expiry, and ends exactly at the expiry when it is longer than that |
| TimerModel.AddTimeCut | net/include/timestamp.h:45-49 | adding seconds moves a timestamp by their microseconds, cut towards zero by less than one, and exactly by whole microseconds |
| TimerSteps.StepKeepsInv | net/src/timer.cpp:93-197 | every step satisfies its asserts and keeps ownership, index agreement, history and arming |
| TimerSteps.ResetAllKeeps | net/src/timer.cpp:154-167 | reset meets its asserts for every batch and keeps the invariant |
| TimerTheorems.NoAssertFails | net/src/timer.cpp:93-197 | in every reachable state no assert fails and no deleted timer is used or deleted again |
| TimerTheorems.OnePlace | net/src/timer.cpp:79-134 | an allocated timer is in exactly one of waiting, active and in flight, a deleted one in none |
| TimerTheorems.IndexesAgree | net/src/timer.cpp:105-152 | at every point the two indexes hold the same timers, sorted, under their current expiries |
| TimerTheorems.ExpiredExactly | net/src/timer.cpp:137-152 | getExpired takes exactly the due entries and leaves the others, in order |
| TimerTheorems.CallbacksOnTime | net/src/timer.cpp:180-197 | no callback before its expiry; a one-shot at most once; repeated runs are due at least the interval apart |
| TimerTheorems.PendingIsArmed | net/src/timer.cpp:93-101 | outside handleRead a pending timer has the timerfd readable or armed no later than the earliest expiry, up to the minimal delay |
| TimerTheorems.AddArmsIff | net/src/timer.cpp:93-101 | adding a timer arms exactly when it becomes the earliest, then for its expiry and never before it, but at least 100 microseconds ahead |
| TimerTheorems.FinishArmsIff | net/src/timer.cpp:168-178 | the end of handleRead arms in the same way for the earliest timer, exactly when there is one with a valid expiry |
| TimerTheorems.FiresOnDue | net/src/timer.cpp:137-152 | a timerfd armed like that becomes readable at its deadline and not before, and handleRead then finds something due |
| TimerTheorems.ResetAllOutcome | net/src/timer.cpp:154-167 | reset restarts the repeating members of its list, deletes the others, and touches no other timer |
| TimerTheorems.BatchRanOnce | net/src/timer.cpp:186-194 | each member of the batch ran exactly once, in order of expiry |
| TimerTheorems.BatchOutcome | net/src/timer.cpp:154-196 | after handleRead the batch's one-shots are deleted and its repeating timers active again one interval from now |
| TimerTheorems.CancelInBatchIgnored | net/src/timer.cpp:113-116 | cancelling a repeating timer of the running batch does not keep it from being active afterwards |
| TimerTheorems.GoneForever | net/src/timer.cpp:102-118 | once no allocated timer has a sequence number, its callback never runs again |
| TimerTheorems.CancelIsFinal | net/src/timer.cpp:102-112 | after the cancel of an active timer its callback never runs again |
| TimerCancel.CancelFinalIff | net/src/timer.cpp:102-118 | the callback of a cancelled timer runs in no continuation exactly when the cancel finds it active or a started one-shot of the batch |
| TimerCancel.StartedOnce | net/src/timer.cpp:191-194 | a one-shot whose callback was started runs in no continuation |
| TimerCancel.OthersRun | net/src/timer.cpp:93-197 | every other living timer runs in some continuation |
| TimerCancel.FailingCancel | net/src/timer.cpp:113-116 | for each ignored cancel, a run that calls the callback all the same |
| TimerObjects.TimerQueue.constructor | net/src/timer.cpp:57-66 | an empty, disarmed queue |
| TimerObjects.TimerQueue.Allocate | net/src/timer.cpp:79-84 | a new timer with the next sequence number, waiting to be added |
| TimerObjects.TimerQueue.AddTimerInLoop | net/src/timer.cpp:93-101 | the timer enters both indexes and nothing else does; the timerfd stays or is armed no earlier than the expiry, as the step says |
| TimerObjects.TimerQueue.CancelTimerInLoop | net/src/timer.cpp:102-118 | an active timer leaves both indexes and is deleted; otherwise the pointer is only remembered, and only while callbacks run |
| TimerObjects.TimerQueue.Insert | net/src/timer.cpp:121-134 | both indexes gain the timer, and the result tells whether it became the earliest |
| TimerObjects.TimerQueue.ResetTimerfd | net/src/timer.cpp:45-55 | armed at the expiry, or 100 microseconds from now if that is later |
| TimerObjects.TimerQueue.GetExpired | net/src/timer.cpp:137-152 | the batch is what lies below the bound, gone from both indexes |
| TimerObjects.TimerQueue.Reset | net/src/timer.cpp:154-178 | every member restarted or deleted, then armed for the earliest timer with a valid expiry |
| TimerObjects.TimerQueue.HandleRead | net/src/timer.cpp:180-197 | one handleRead, with callbacks that add and cancel, is a run of the transition system and keeps its invariant |
| ScheduleModel.FreeIff | server/business/BusinessServer.cpp:1109 | a derived day mask misses a mask exactly when every active rule does |
| ScheduleModel.DayMaskBits | server/business/BusinessServer.cpp:288-306 | a bit of the day mask is set exactly when a rule with that bit names the day, spans the week and fits its parity |
| ScheduleModel.UploadRules | server/business/BusinessServer.cpp:535-583 | after an upload the user's personal rules are exactly the uploaded ones, and everybody else's are unchanged |
| ScheduleModel.UploadClassRules | server/business/BusinessServer.cpp:539-560 | after a public upload the template of the target class is exactly the uploaded rules; every other class keeps its template, and a personal upload changes none |
| ScheduleModel.UploadKeepsOthers | server/business/BusinessServer.cpp:535-595 | no upload changes what a SELECT finds that asks for rows outside the user's personal rules or the target class |
| ScheduleModel.UploadKeepsLoose | server/business/BusinessServer.cpp:542 | rows with both a user and a class, or with neither, stay |
| ScheduleModel.UploadKeepsAgreement | server/business/BusinessServer.cpp:535-586 | an upload makes the uploader's cache agree with the rules and keeps the agreement of all others |
| ScheduleModel.CacheAgrees | server/business/BusinessServer.cpp:240-322 | over any sequence of uploads, successful or rolled back, the cache of every rebuilt user agrees with the rules on the whole grid, and rows of users never rebuilt are untouched |
| ScheduleModel.AvailabilityIsRight | server/business/BusinessServer.cpp:1094-1109 | so the availability test finds a rebuilt user free exactly when no active rule meets the mask |
| ScheduleObjects.Database.RebuildUserSchedules | server/business/BusinessServer.cpp:240-322 | every (week, day) row of the user is the OR of the active rules, stale bits included, and all other rows stay |
| ScheduleObjects.Database.RebuildWeek | server/business/BusinessServer.cpp:286-318 | the same for the seven days of one week |
| ScheduleObjects.Database.MaskOfDay | server/business/BusinessServer.cpp:288-306 | the rule loop with its skips computes the OR of exactly the active rules |
| ScheduleObjects.Database.HandleUploadSchedule | server/business/BusinessServer.cpp:522-595 | delete, insert, commit and rebuild, or a complete rollback at the first malformed course that leaves both tables as they were |
| ScheduleObjects.Database.IsFree | server/business/BusinessServer.cpp:1094-1109 | free exactly when the row is missing or misses the mask; on an agreeing cache that is the test against every active rule |
| HourModel.SlotsAreInterval | server/utils/TimeConverter.cpp:76-90 | the slots of any two times are exactly an interval of whole hours cut to the grid |
| HourModel.DurationOfTimes | server/utils/TimeConverter.cpp:121-132 | on the grid the number of slots is the rounded-up end minus the rounded-down start |
| HourModel.SharedInstantMeets | server/utils/TimeConverter.cpp:81-89 | times that share an instant of the grid have meeting masks |
| HourModel.MeetsIff | server/utils/TimeConverter.cpp:81-89 | on the grid masks meet exactly when the intervals widened to whole hours overlap |
| HourObjects.CalculateHourMask | server/utils/TimeConverter.cpp:64-92 | the slot loop computes exactly the slots that meet the stretch, whatever the rounding of its doubles |
| HourObjects.ClockAgainstSlot | server/utils/TimeConverter.cpp:83-86 | rounding never changes how a time of whole minutes compares with a slot boundary |
| HourObjects.CalculateDurationByMask | server/utils/TimeConverter.cpp:121-132 | one hour for each of the fifteen slot bits that is set |
| HourObjects.CreditedHours | server/utils/TimeConverter.cpp:64-132 | the two conversions together credit the rounded hours |

## Left out

- OnNewConnection: requires that the fd is not in the base loop's poller map; ReactorTheorems.FreeFdUnregistered proves that accept's fresh fd never is.
- HandleInput: requires that the close callback does not run twice in one dispatch, because handelClose asserts it; ConnModel.DispatchSafeIff gives the exact condition. The same holds for HandleEvent and Dispatch.
- QueueInLoop: the push and the wakeup of another thread are one call on the object; every interleaving of the two is the subject of LoopModel.
- FillActiveChannels: the reported fds are distinct and registered, as epoll reports them; the event array's growth in poll is not modelled.
- CalculateHourMask: starts after sscanf, and takes the rounding of doubles as a function of which only accuracy is used.
- AddTime: seconds are exact reals, and microseconds are unbounded integers.
- NoAssertFails: in the multi-loop system PollReturn excludes reports that are a double close, ForceClose is a step on open connections only and checks the state and acts at once, Send is a step wherever it does no harm, and Accept stops at id 2^31; DispatchSafeIff, ForceCloseGuardIff, SendGuardIff and EraseFindsEntryIff say exactly what lies behind each of these limits.
- System calls are environment choices: partial writes, readv results, reported events and the eventfd counter are arbitrary; epoll_ctl's refusals are modelled and proved not to happen; accept returns an fd that no living connection owns; the clock is positive and does not go back.
- The multi-loop system's functor queues are plain FIFOs; wakeups are proved separately in LoopModel. Acceptor, wakeup and timer channels are not in its pollers.
- runInLoop is written out at its call sites, where the thread test is; functors are data, not closures.
- User callbacks of connections are only recorded; what they could call is covered by the ForceClose, Send, Retain and Release steps.
- Channel::tie: its lock is a temporary and holds nothing during dispatch, so lifetimes are proved without it.
- TcpClient: it destroys its connection inline, outside the deferred teardown protocol.
- The destructor of TcpServer: connectDestroyed on a connected connection leaves the state connected, so the connection's destructor assert does not hold there.
- send from another thread: it binds a bare this. Lengths of 2^31 bytes and more.
- quit, thread start and join, the acceptor's spare-descriptor trick, logging, address formatting.
- Timer addresses may be reused only after deletion, and a cancel matches by pointer alone, as in the code; the destructor of TimerQueue is not modelled.
- 64-bit overflow of sizes, times and counters.
- Masks are sets of bit positions; SQL text, MySQL, JSON parsing and statement failures are not modelled: tables are sequences and maps, and statements succeed.
- Frames are encoded by a specification function, because the server does not frame its responses.
- Date parsing, convertQmlPeriodToDayMask, the unused weekly masks of handleBatchApplyClassTemplate, and the other request handlers: table lookups and plumbing over libraries outside this model.
