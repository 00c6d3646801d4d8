# Verified model of a reactor network library

Dafny models of the hard parts of a muduo-style C++ reactor, with proofs over
every run. Each component has two layers. A value-level state machine says what
each atomic step does; runs are arbitrary lists of events, so every interleaving
of threads, every script of a callback and every answer of the kernel is covered.
A class beside it has the fields and methods of the C++ class and refines the
machine step by step. The theorems are about the machines; the contracts of the
methods tie the classes to them. Where a theorem needs to know what happened in a
run (what was offered to a socket, asked of a connection, given to append or
addTimer), it takes it from the events and the states before them.

| file | what it models |
|---|---|
| `LogStream.dfy` | printing integers (truncated division, negative remainders, in-place reverse) into a fixed buffer |
| `AsyncLogging.dfy` | double-buffered logging: front-end appends against one back-end thread, with buffer ownership |
| `Buffer.dfy` | the growable byte queue over a real array, scatter read included |
| `Poller.dfy` | channels and the epoll poller against the kernel's interest set |
| `TcpConnection.dfy` | one connection: partial writes, write interest, half close, lifecycle |
| `TcpServer.dfy` | connection names, and the server with its io loop: connection map, pending functors, active list, deferred destruction |
| `EventLoop.dfy` | the task queue, the eventfd wakeup and quit under any interleaving |
| `TimerQueue.dfy` | timers on a heap whose addresses are used again, the two indexes, re-entrant callbacks, re-arming |
| `Seqs.dfy` | options, associativity, listing by index, flattening, reversal |

The socket, readv, epoll_wait, the eventfd, the timerfd, the clock and the memory
allocator are parameters: any prefix may be written, any bytes read, any set of
registered channels reported, any unused address returned, any time observed.

Some promises do not hold of the code as it stands. For each, the code is kept
and the exact condition under which it does what is promised is proved:

- The digit table lacks its second `1`: right exactly for values that are not
  positive (`LogStream.LiteralTablePrintsExactlyNonPositive`). The table is a
  parameter, and the symmetric one prints every value.
- A functor that the loop thread queues before `loop()` gets no wakeup
  (`LoopProtocol.NoLostWakeupIff`), and a `quit` before `loop()` is overwritten
  (`LoopProtocol.EarlierQuitIsForgotten`).
- A pass of the timer queue that finds nothing due does not re-arm the timerfd
  (`TimerProtocol.RearmedIff`, run in `TimerProtocol.StrandedAfterCancel`); with
  the re-arm after the loop of `reset` it is always armed
  (`TimerProtocol.IntendedAlwaysArmed`).
- `Buffer::append`, and `readFd` on top of it, never make space: over any run they
  stay inside the vector exactly while at most 1024 bytes come in between two
  moments at which the buffer is empty (`Buffers.RawRunsFitIff`; one read or one
  append too long is in `Buffers.OneByteTooMany`). `Buffer.Append`, used by the
  connection and by the second segment of `readFd`, is `makeSpace` followed by the
  source's append.
- A cancel that the loop thread runs before the add of the same timer, still queued
  by another thread, is lost (`TimerProtocol.CancelFinalIff`).
- `send(Buffer*)` from another thread discards its functor, and the text with it
  (`Connections.BufferSendKeptIff`). It is a call of every `Reactor` run as the source
  has it; what it throws away is in the accounts.
- `shutdownWrite` waits for the output buffer, not for sends still queued by other
  threads (`Reactor.ShutdownCompleteIff`, `Reactor.OffLoopSendMissesShutdown`, and
  `Reactor.BufferSendMissesShutdown` with nothing queued at all), and a send that is
  still queued is handed to the socket after it (`Reactor.ShutdownIsFinal`,
  `Reactor.QueuedSendFollowsShutdown`).
- `startReadInLoop` does not look at the state. A connection on which it never
  acts after the close is closed once at most (`Reactor.CloseCallbackOnce`); on
  any closed connection one such call lets the end of file close it again
  (`Reactor.StartReadAlwaysClosesAgain`, a whole run in
  `Reactor.StartReadClosesTwice`).
- Nor does `stopReadInLoop`. After the removal it adds the channel to the epoll set
  again, exactly when `reading_` is still set (`Reactor.StopReadAfterRemovalIff`),
  and exactly then can a removed connection be in a later active list
  (`Reactor.ReportedAfterRemovalIff`, a whole run in
  `Reactor.StopReadReportsRemoved`).
- A functor bound to `this` does not keep its connection alive. Those of `send` and
  `shutdown` are in front of the destruction in every run
  (`Reactor.QueuedSendsFindTheirConnection`); those of the read controls need not be
  (`Reactor.ReadControlBehindDestroy`).

No theorem of `Reactor` assumes that users avoid `startRead` and `stopRead` in the runs
as a whole; where one of them matters, the condition is on the one connection that the
theorem is about.

## Model

| member | source | states |
|---|---|---|
| `Decimals.ParseDecimal` | src/LogStream.cc:6-27 | the decimal text of every integer is canonical and reads back as that integer |
| `Decimals.DecimalParse` | src/LogStream.cc:6-27 | canonical text is the text of the number it reads as, so text and number correspond one to one |
| `Decimals.MagnitudeLength` | src/LogStream.cc:12-17 | a number has at most k digits exactly when it is below 10^k |
| `LogStream.RenderedIsDecimal` | src/LogStream.cc:6-27 | a digit table that is right for the remainders of one sign prints every value of that sign as its decimal text, the minimum of a signed type included |
| `LogStream.LiteralTablePrintsExactlyNonPositive` | src/LogStream.cc:3-4 | the table as written prints v correctly if and only if v is not positive |
| `LogStream.PrintParseRoundTrip` | src/LogStream.cc:3-27 | with the symmetric table, the printed text reads back as the value and is the only canonical text that does |
| `LogStream.NumericSizeSuffices` | src/LogStream.cc:29-37 | every 32- and 64-bit value takes at most 20 characters, so 48 free bytes hold text and NUL |
| `LogStream.ReverseRange` | src/LogStream.cc:25 | the range is reversed in place and nothing outside it changes |
| `LogStream.EmitDigits` | src/LogStream.cc:12-17 | the do-while loop terminates and writes the digits, least significant first, and nothing else; its variable never leaves the integer type |
| `LogStream.Convert` | src/LogStream.cc:6-27 | the buffer gets exactly the text and one NUL behind it; the length is that of the decimal text |
| `LogStream.FormatInteger` | src/LogStream.cc:29-37 | the text is appended when 48 bytes are free, otherwise the buffer is unchanged |
| `LogStream.FixedBuffer.Append` | include/LogStream.h:29-36 | a line goes in whole when it leaves a byte free, otherwise not at all |
| `LogPipeline.BufferPoolSafety` | src/AsyncLogging.cc:20-107 | in every interleaving both unchecked refills find a buffer, currentBuffer_ is never null outside a critical section, and at the loop head both spares are present and empty |
| `LogPipeline.BuffersUnaliased` | src/AsyncLogging.cc:20-107 | in every interleaving no buffer has two owners |
| `LogPipeline.LinesAreWholeAndOrdered` | src/AsyncLogging.cc:20-107 | accepted lines are the batches taken and then the front end; what is written and what will be written of the batch are the batches taken without the buffers from index 2 on of batches over 25 |
| `LogPipeline.NothingLostWithoutOverload` | src/AsyncLogging.cc:70-79 | while no batch exceeds 25 buffers, file, batch and front end hold every accepted line in order |
| `LogPipeline.AppendStaysIff` | src/AsyncLogging.cc:20-41 | in every run append leaves the current buffer where it is exactly when line and contents together are less than 4 000 000 bytes; otherwise the buffer is handed over, the spare is used first, and a buffer is allocated only without one |
| `LogPipeline.BuffersArePacked` | src/AsyncLogging.cc:20-68 | in every run each batch, and what is in front, is packed with the lines given to append in its period: every buffer but the last was left for a line it had no room for |
| `LogPipeline.NothingLostBelow` | src/AsyncLogging.cc:20-79 | as long as less than 13 buffers of text come in between two swaps, no batch exceeds 25 buffers, and file, batch and front end hold every line shorter than a buffer |
| `LogPipeline.PutAppends` | include/LogStream.h:29-36 | what append does to the lines of a buffer is what FixedBuffer::append does to its bytes |
| `LogPipeline.StopIsHeeded` | include/AsyncLogging.h:32-37 | after stop(), whatever is appended, the thread takes at most the batch it waits for and has left after 31 of its steps |
| `LogPipeline.LeavesOnlyAfterStop` | src/AsyncLogging.cc:53-108 | without stop() the thread, once started, never leaves |
| `LogPipeline.LoggedIffShorterThanBuffer` | src/AsyncLogging.cc:20-41 | in every run the accepted lines are exactly the lines given to append that are shorter than a whole buffer, in order |
| `LogPipeline.UndrainedAtExit` | src/AsyncLogging.cc:53-107 | after the thread exits the file holds all that the batches kept, and the lines left in memory are exactly those accepted after the last swap |
| `AsyncLogging.AsyncLogging.Append` | src/AsyncLogging.cc:20-41 | the method is the atomic append step of the machine and keeps the pool safe |
| `AsyncLogging.AsyncLogging.AppendBytes` | include/LogStream.h:29-36 | appending to the array of 4 000 000 bytes keeps it equal to the lines of the model's buffer |
| `AsyncLogging.AsyncLogging.TakeBatch` | src/AsyncLogging.cc:55-68 | the critical section takes all buffers, the current one last, and leaves both front buffers usable |
| `AsyncLogging.AsyncLogging.RefillFirst` | src/AsyncLogging.cc:91-96 | back() and pop_back() find a buffer when the first spare is missing |
| `AsyncLogging.AsyncLogging.RefillSecond` | src/AsyncLogging.cc:98-103 | afterwards both spares are present and empty |
| `LogPipeline.FrontRunKeepsBackEnd` | src/AsyncLogging.cc:20-41 | any run of append and stop calls keeps the pool safe and leaves what the back end works on alone |
| `AsyncLogging.AsyncLogging.WriteOut` | src/AsyncLogging.cc:70-105 | outside the lock the surviving lines of the batch are appended to the file, in order, while others append |
| `AsyncLogging.AsyncLogging.ThreadFunc` | src/AsyncLogging.cc:43-108 | between rounds and after the exit the file is exactly what the batches kept |
| `Buffers.Buffer.MoveToFront` | include/Buffer.h:76-82 | the overlapping copy to the front keeps the readable bytes |
| `Buffers.Buffer.MakeSpace` | include/Buffer.h:67-84 | afterwards len bytes are writable, the readable bytes are the same, and the vector grows exactly when the free bytes at both ends do not suffice |
| `Buffers.Buffer.AppendRaw` | include/Buffer.h:53-57 | where the data fit, the source's append puts them at the end of the queue |
| `Buffers.Buffer.Append` | include/Buffer.h:53-84 | the intended append, makeSpace first, pushes any data |
| `Buffers.Buffer.Retrieve` | include/Buffer.h:24-39 | drops len bytes from the front, all of them when len is larger |
| `Buffers.Buffer.RetrieveAsString` | include/Buffer.h:41-51 | returns the bytes it takes off the front |
| `Buffers.Buffer.ReadFd` | src/Buffer.cpp:8-36 | whatever readv splits over the two segments is appended in order; a failure changes nothing and reports errno |
| `Buffers.QueueConservation` | include/Buffer.h:24-57 | over every sequence of appends, reads and retrieves, what came out followed by what is left is what was there followed by what went in |
| `Buffers.Drive` | include/Buffer.h:24-84 | a Buffer refines the byte queue for every sequence of operations |
| `Buffers.RawRunsFitIff` | src/Buffer.cpp:18-33 | the append and the readFd of the source stay inside the vector over a run of appends, reads and retrieves if and only if at most 1024 bytes come in between two empty moments |
| `Buffers.OneByteTooMany` | include/Buffer.h:53-57 | one read or one append of 1025 bytes into a new buffer breaks that condition and writes past the vector |
| `Buffers.DriveRaw` | include/Buffer.h:24-57 | under that condition the code as it stands refines the byte queue, reads included |
| `Pollers.Channel.HandleEvent` | src/Channel.cc:45-82 | which callbacks run, and in which order, for every event mask; none when the tied owner is gone |
| `Pollers.Channel.EnableReading` | src/Channel.cc:7-9 | the mask asks for POLLIN and POLLPRI, on which handleEvent reads, and the poller knows it |
| `Pollers.Channel.EnableWriting` | src/Channel.cc:7-9 | the mask asks for POLLOUT, on which handleEvent writes, and the poller knows it |
| `Pollers.EpollPoller.Ctl` | src/EpollPoller.cc:117-128 | the kernel's rules: adding a known descriptor, or changing or deleting an unknown one, is fatal |
| `Pollers.EpollPoller.UpdateChannel` | src/EpollPoller.cc:70-102 | index, channels_ and the kernel set agree afterwards: a known channel without interest leaves the set, any other is in it with its mask; no other entry changes and the fatal branch is not taken |
| `Pollers.EpollPoller.RemoveChannel` | src/EpollPoller.cc:104-115 | exactly this channel leaves both sets, from every index state |
| `Pollers.EpollPoller.FillActiveChannel` | src/EpollPoller.cc:60-68 | the active list is the reported channels with their events, each of them in the epoll set |
| `Pollers.EpollPoller.DoAll` | src/EpollPoller.cc:70-128 | any operations on any channels in any order: the poller agrees with the kernel and epoll_ctl never fails |
| `Pollers.EpollPoller.ReuseDescriptor` | src/EpollPoller.cc:70-115 | a new channel on the descriptor of a removed one is added as if the number were fresh, and nothing else in either set changes |
| `Connections.SendInv` | src/TcpConnection.cc:106-151 | sendInLoop keeps output conservation, write interest, graceful shutdown, single close and registration for every outcome of write |
| `Connections.HandleWriteInv` | src/TcpConnection.cc:291-328 | so does handleWrite |
| `Connections.RunFunctorInv` | src/TcpConnection.cc:162-269 | so does every functor run in the loop, and it never takes the state back |
| `Connections.UserCallInv` | src/TcpConnection.cc:63-248 | so does every public call from any thread, send(Buffer*) as it stands included |
| `Connections.DrainingShutsDown` | src/TcpConnection.cc:293-312 | while disconnecting, the write that empties the buffer shuts the write side down with everything delivered, and no other write does |
| `Connections.UserSendBalance` | src/TcpConnection.cc:68-82 | every text that send accepts is handed to sendInLoop, or is the payload just queued, in order |
| `Connections.QueuedSendBalance` | src/TcpConnection.cc:76-80 | a queued send hands over exactly the oldest text still outstanding, or it is given up after the close |
| `Connections.BufferSendKeptIff` | src/TcpConnection.cc:84-99 | send(Buffer*) keeps every byte accounted for exactly when it is in the loop thread, not connected or empty, and does what send of a string does exactly in the first two cases |
| `Connections.StopReadRevivesIff` | src/TcpConnection.cc:241-248 | after the removal stopReadInLoop adds the channel to the epoll set again if and only if reading_ is set |
| `TcpConnections.TcpConnection.Send` | src/TcpConnection.cc:63-82 | the method does to state, channel, buffers and queue what the machine does |
| `TcpConnections.TcpConnection.SendBuffer` | src/TcpConnection.cc:84-99 | the same for send(Buffer*) as it stands; the caller's buffer is emptied, be it the connection's own input |
| `TcpConnections.TcpConnection.SendInLoop` | src/TcpConnection.cc:101-151 | the same for sendInLoop |
| `TcpConnections.TcpConnection.HandleWrite` | src/TcpConnection.cc:291-328 | the same for handleWrite |
| `TcpConnections.TcpConnection.HandleRead` | src/TcpConnection.cc:271-289 | the same for handleRead |
| `TcpConnections.TcpConnection.HandleClose` | src/TcpConnection.cc:330-339 | the same for handleClose |
| `TcpConnections.TcpConnection.Shutdown` | src/TcpConnection.cc:153-168 | the same for shutdown |
| `TcpConnections.TcpConnection.ForceClose` | src/TcpConnection.cc:170-199 | the same for forceClose |
| `TcpConnections.TcpConnection.ConnectEstablished` | src/TcpConnection.cc:250-257 | the same for connectEstablished |
| `TcpConnections.TcpConnection.ConnectDestroyed` | src/TcpConnection.cc:259-269 | the same for connectDestroyed |
| `ConnNames.NamesAlwaysDiffer` | src/TcpServer.cc:54-57 | no two connections of a server share a name, for every listening address and every number an int can hold |
| `ConnNames.IpPortLength` | src/SocketOops.cc:154-189 | the printed address has at most 21 characters |
| `ConnNames.NamesUniqueIff` | src/TcpServer.cc:54-57 | for any address text, the names of n connections differ if and only if the last printed suffix fits the 64-byte buffer |
| `Reactor.ReactorInvariant` | src/TcpServer.cc:51-88 | the global invariant of connections, pending functors, removals, map, active list and texts under way, after every run |
| `Reactor.LoopGetsOn` | src/EventLoop.cc:64-76 | in every run each step of the loop between two polls brings it closer to the next, and calls of others keep it where it is; the end of the walk takes up all that is queued |
| `Reactor.LifecycleMovesForward` | src/TcpConnection.cc:153-198 | between any two moments of any run, no connection goes back in state, or in stage between server and loop |
| `Reactor.AliveUntilDestroyed` | src/TcpServer.cc:65-88 | until it is destroyed a connection is held by the map, a queued removal or its queued destruction |
| `Reactor.QueuedSendsFindTheirConnection` | src/TcpConnection.cc:63-168 | in every run a queued functor of send or shutdown is in front of the destruction of its connection, which is then not destroyed and, unless started again after the close, held |
| `Reactor.ReadControlBehindDestroy` | src/TcpConnection.cc:222-239 | a run for each read control in which its functor is behind the destruction |
| `Reactor.ActiveListStable` | src/EventLoop.cc:66-75 | during the walk of any run every channel of the active list is registered; its connection is removed only if a read control acted on it since, and otherwise held alive |
| `Reactor.ReportedAfterRemovalIff` | src/EpollPoller.cc:60-68 | a removed connection can be reported again if and only if stopReadInLoop has acted on it since |
| `Reactor.StopReadAfterRemovalIff` | src/TcpConnection.cc:241-248 | in every run, stopRead on a removed connection makes it reportable if and only if reading_ is still set |
| `Reactor.RemovedStaysOut` | src/EpollPoller.cc:104-115 | over every continuation in which no read control acts on it, a removed connection is removed and in no active list at every moment |
| `Reactor.StopReadReportsRemoved` | src/TcpConnection.cc:241-248 | a run without startRead that ends with a destroyed connection in the active list |
| `Reactor.CloseCallbackOnce` | src/TcpConnection.cc:330-339 | on every connection whose reading was not started after the close, the close callback fires once at most, and exactly when it leaves the open stage |
| `Reactor.StartReadAlwaysClosesAgain` | src/TcpConnection.cc:227-234 | on every closed connection of every run, startRead lets the end of file close it again |
| `Reactor.StartReadClosesTwice` | src/TcpConnection.cc:227-234 | a whole run with two close callbacks of one connection |
| `Reactor.RegistryExact` | src/TcpServer.cc:65-84 | in every run names are distinct, each entry of the map is under its own name, and of the connections not started again after the close it holds exactly those accepted and not yet removed |
| `Reactor.RemovalTakesEffect` | src/TcpServer.cc:79-88 | in every run the first queued removal takes its connection out of the map and queues its destruction |
| `Reactor.EstablishPrecedesDestroy` | src/TcpServer.cc:71-88 | in every run destruction is queued only on a disconnected connection whose establishment has run, and once unless it was started again after the close |
| `Reactor.OutputConserved` | src/TcpConnection.cc:106-151 | for every connection of every run, bytes in the kernel and then the output buffer are the bytes sent without the dropped messages; writing is enabled exactly while something is buffered |
| `Reactor.StreamsAreTheSockets` | src/TcpConnection.cc:106-328 | for every connection of every run the output history is what the socket took of what it was offered, and the input buffer is what was read, whole and in order; both are summed up from the events alone |
| `Reactor.CompletionsAreCalled` | src/TcpConnection.cc:117-127 | in every run the write-complete callback has been called or is queued once for each time the socket took all that it was offered, in sendInLoop or handleWrite, if the connection has one |
| `Reactor.ReadingFollowsControls` | src/TcpConnection.cc:222-257 | while a connection is open its channel waits for input exactly when the last startRead or stopRead that acted says so, and before the first one |
| `Reactor.ControlsRunOnce` | src/TcpConnection.cc:153-248 | in every run the functors of shutdown, forceClose, startRead and stopRead that were run or are queued are exactly those the calls asked for, each once |
| `Reactor.WalkCallsWhatWasReported` | src/EventLoop.cc:66-75 | the callbacks called since the last poll and those still owed are those of the channels reported, in order, once each, read before write |
| `Reactor.DropsExactlyOnFault` | src/TcpConnection.cc:106-135 | in every step of every run a message handed to sendInLoop is dropped if and only if nothing was buffered and the direct write fails with EPIPE or ECONNRESET; at most one is handed over and none is dropped later |
| `Reactor.GivenIsLogged` | src/TcpConnection.cc:63-99 | the three histories of accepted text are what the calls of the run gave to the connection while it was connected, by thread and kind of send |
| `Reactor.AcceptedTextConserved` | src/TcpConnection.cc:68-99 | in every run the texts given to send in the loop thread are those handed over directly; those given elsewhere as strings are those that functors handed over, then those given up after the close, then those queued, in order; what was given elsewhere as buffers is the rest of the accepted bytes |
| `Reactor.ShutdownCompleteIff` | src/TcpConnection.cc:84-168 | when a step of any run shuts an open connection down, every accepted byte is in the kernel or was dropped on a fault if and only if no send of another thread is queued at that moment and no text was given to send(Buffer*) in another thread |
| `Reactor.LoopThreadShutdownComplete` | src/TcpConnection.cc:153-168 | in every run with the sends on a connection in the loop thread only, every shutdown of it before the close comes with every accepted byte in the kernel or dropped on a fault |
| `Reactor.ShutdownIsHeeded` | src/TcpConnection.cc:153-168 | at every moment after shutdown() on a connected connection, in whatever thread: it is shut down, or bytes are buffered, or shutdownInLoop is queued, or it has closed |
| `Reactor.ForceCloseIsHeeded` | src/TcpConnection.cc:170-199 | at every moment after forceClose() on an open connection it has closed, or is disconnecting with forceCloseInLoop queued |
| `Reactor.NothingGivenAfterEnd` | src/TcpConnection.cc:63-191 | after shutdown, forceClose or forceCloseWithDelay, from any thread, send accepts nothing more in any continuation of any run |
| `Reactor.OffLoopSendMissesShutdown` | src/TcpConnection.cc:76-80 | a run whose shutdown is not complete: a byte accepted from another thread misses it |
| `Reactor.BufferSendMissesShutdown` | src/TcpConnection.cc:93-97 | a run whose shutdown is not complete with nothing queued: a byte given to send(Buffer*) in another thread is lost |
| `Reactor.ShutdownIsFinal` | src/TcpConnection.cc:153-168 | in every run with the sends on a connection in the loop thread only, the kernel has at any time what it had at each shutdown of the connection before the close, and nothing waits to be written |
| `Reactor.QueuedSendFollowsShutdown` | src/TcpConnection.cc:76-80 | a run in which a send of another thread is handed to the socket after the shutdown |
| `TcpServers.TcpServer.NewConnection` | src/TcpServer.cc:51-72 | the new connection is in the map on a channel of its own, and every other connection is in it exactly if it was before |
| `TcpServers.TcpServer.RemoveConnectionInLoop` | src/TcpServer.cc:79-88 | of the accepted connections exactly this one leaves the map, and its destruction is handed to its loop |
| `LoopProtocol.NoLostWakeupIff` | src/EventLoop.cc:59-112 | in no interleaving does the loop sleep over work or a quit with nobody about to wake it, if and only if functors queued before loop() came with a wakeup |
| `LoopProtocol.CounterIsWritesSinceRead` | src/EventLoop.cc:157-175 | in every interleaving the eventfd holds the number of writes since the last read, so the loop is woken exactly when there was one and can sleep again after the read |
| `LoopProtocol.EnqueuedAreTheCalls` | src/EventLoop.cc:101-112 | the functors queued in a run are those queueInLoop was called with, in order |
| `LoopProtocol.LoopLeavesIff` | src/EventLoop.cc:59-87 | the loop leaves at a test if and only if quit was called since the entry |
| `LoopProtocol.FunctorsRunOnceInOrder` | src/EventLoop.cc:177-192 | functors run, rest of the batch and pending ones are the functors queued, in order; each runs in the batch after the one it was queued in |
| `LoopProtocol.FinishedBatchRanAllEarlier` | src/EventLoop.cc:177-192 | a finished batch has run exactly the functors queued before its swap |
| `LoopProtocol.EarlierQuitIsForgotten` | src/EventLoop.cc:62-64 | without a quit after entry the loop does not leave, whatever was set before |
| `EventLoops.ForeignRunKeeps` | src/EventLoop.cc:80-112 | any run of other threads, and of calls of the running handler, only adds to the queue and leaves the loop where it is |
| `EventLoops.RunWithoutKeeps` | src/EventLoop.cc:80-112 | any run without a thread leaves its pending wakeup alone and loses no functor and no quit |
| `EventLoops.EventLoop.QueueInLoop` | src/EventLoop.cc:101-112 | the loop thread's functor is appended, and written to the eventfd when functors are being called |
| `EventLoops.EventLoop.QueueInLoopElsewhere` | src/EventLoop.cc:101-112 | another thread's functor is queued and the eventfd written, whatever happens between |
| `EventLoops.EventLoop.Quit` | src/EventLoop.cc:80-87 | quit in the loop thread sets the flag and nothing else |
| `EventLoops.EventLoop.QuitElsewhere` | src/EventLoop.cc:80-87 | quit is set and the eventfd written |
| `EventLoops.EventLoop.DoPendingFunctors` | src/EventLoop.cc:177-192 | runs in order what was pending at the swap, everything pending before included, and nothing queued since |
| `EventLoops.EventLoop.Iterate` | src/EventLoop.cc:64-76 | one pass of the loop runs everything that was pending, or leaves when quit was set |
| `TimerProtocol.ErasedSize` | src/TimerQueue.cc:103-104 | erasing from the ordered set removes one entry exactly when it is there, and keeps the order |
| `TimerProtocol.DueExactly` | src/TimerQueue.cc:135-139 | lower_bound with the largest address separates exactly the entries with expiration at most now |
| `TimerProtocol.StepInv` | src/TimerQueue.cc:75-197 | every step keeps the invariant: indexes agree, ownership is exact, nothing deleted is dereferenced |
| `TimerProtocol.TimerOwnership` | src/TimerQueue.cc:97-177 | in every run each timer ever allocated is in exactly one of waiting, queued, in the batch and deleted; none is deleted twice or touched after deletion |
| `TimerProtocol.IndexesAgree` | src/TimerQueue.cc:179-197 | in every run timers_ holds (expiration, t) iff activeTimers_ holds (t, sequence), and their sizes are equal |
| `TimerProtocol.CancelExact` | src/TimerQueue.cc:97-112 | cancelling a queued timer deletes it with one entry from each index; any other id, a stale one included, changes neither heap nor index |
| `TimerProtocol.CancelIsFinal` | src/TimerQueue.cc:97-165 | a timer whose add has run, once cancelled, is never queued again and runs in no later pass; if it was queued it never runs again at all |
| `TimerProtocol.CancelFinalIff` | src/TimerQueue.cc:75-112 | a live timer is never queued after its cancel, whatever follows, if and only if its add had run before the cancel |
| `TimerProtocol.HandleReadRunsExactlyTheDue` | src/TimerQueue.cc:114-147 | a pass calls exactly the timers with expiration at most now, in order, once each, and none that a callback adds |
| `TimerProtocol.HandleReadRequeuesSurvivors` | src/TimerQueue.cc:149-166 | a repeater not cancelled during the pass is queued at now plus its interval in whole microseconds, otherwise as it was; any other timer of the batch is deleted |
| `TimerProtocol.QueuedTimersWait` | src/TimerQueue.cc:132-147 | a queued timer stays queued, unchanged, until it is cancelled or a later pass takes it |
| `TimerProtocol.TimersRunOnce` | src/TimerQueue.cc:114-177 | in every run two runs of one timer are in different passes and it repeats, so a one-shot timer runs once at most |
| `TimerProtocol.TimersKeepTime` | src/TimerQueue.cc:75-177 | in every run no timer runs in a pass that began before the time addTimer was given, it repeats exactly when its interval is positive, and two runs of it are in passes that began at least the interval apart |
| `TimerProtocol.AddTimeIsAfter` | include/TimeStamp.h:30-34 | addTime adds a number of seconds cut to whole microseconds |
| `TimerProtocol.RearmedIff` | src/TimerQueue.cc:114-177 | with positive times a pass leaves the timerfd armed in time for what remains, whatever its callbacks do, if and only if it does not use up the timerfd with timers left and none due |
| `TimerProtocol.ExecArmed` | src/TimerQueue.cc:87-177 | a run without such a pass has the timerfd armed in time whenever handleRead is not running |
| `TimerProtocol.CancelFreeRunsStayArmed` | src/TimerQueue.cc:87-177 | without cancels the timerfd is always armed for exactly the earliest timer and no pass is premature |
| `TimerProtocol.StrandedAfterCancel` | src/TimerQueue.cc:97-177 | a run in which cancelling the earliest timer leaves another queued with the timerfd unarmed |
| `TimerProtocol.IntendedAlwaysArmed` | src/TimerQueue.cc:149-177 | with the re-arm after the loop of reset, every run is armed in time outside handleRead |
| `TimerQueues.TimerQueue.NewTimer` | include/Timer.h:13-19 | a new timer gets the next number at an address that holds no timer |
| `TimerQueues.TimerQueue.Insert` | src/TimerQueue.cc:179-197 | both indexes gain exactly this timer, timers_ stays sorted, and the result is true if and only if it expires before every other entry |
| `TimerQueues.TimerQueue.AddTimerInLoop` | src/TimerQueue.cc:87-95 | the method is the add step of the machine |
| `TimerQueues.TimerQueue.CancelInLoop` | src/TimerQueue.cc:97-112 | the method is the cancel step of the machine |
| `TimerQueues.TimerQueue.GetExpired` | src/TimerQueue.cc:132-147 | the due prefix leaves both indexes |
| `TimerQueues.TimerQueue.ResetOne` | src/TimerQueue.cc:153-176 | one round of reset is the reset step of the machine, and dereferences only live timers |
| `TimerQueues.TimerQueue.HandleRead` | src/TimerQueue.cc:114-130 | for callbacks that do anything: exactly the due timers run, in order, and each of them ends queued at now plus its interval or deleted |

## Left out

- Buffers.Buffer.AppendRaw: requires room, which the source does not check; `Buffers.RawRunsFitIff` says when it is there.
- Buffers.Buffer.Append: is makeSpace followed by the source's append; the source never calls makeSpace.
- Buffers.Buffer.RetrieveAsString: requires that the len bytes lie inside the vector; the source reads past it otherwise.
- Buffers.Buffer.ReadFd: the second segment uses the intended append; the source's own writes past the vector whenever more bytes arrive than were writable (src/Buffer.cpp:30-31), see `Buffers.RawRead`.
- Buffers.Drive: takes the intended append and readFd in place of the source's; `Buffers.DriveRaw` is about the source's.
- TcpConnections.TcpConnection.SendBuffer: excludes the connection's own output buffer, which `outputBuffer()` hands out (include/TcpConnection.h:63), as its argument.
- TcpConnections.TcpConnection.SendInLoop: uses the intended append (src/TcpConnection.cc:145).
- TcpConnections.TcpConnection.HandleRead: reads through the intended readFd.
- AsyncLogging.AsyncLogging.ThreadFunc: observes a bounded number of rounds, because methods terminate; the theorems of `LogPipeline` are about runs of any length.
- AsyncLogging.AsyncLogging.WriteOut: the log file is an append-only byte sink; naming, rolling, flushing and the stderr note of the drop are not modelled.
- TimerQueues.TimerQueue.HandleRead: timers are values in a map from addresses rather than objects, and the ordered sets are a sorted sequence and a set; no object lies at UINTPTR_MAX.
- TimerProtocol.RearmedIff: resetTimerfd arms for the given time; the floor of 100 microseconds and the mix of wall and monotonic clocks (src/TimerQueue.cc:21-34) are not modelled.
- Times are unbounded microseconds; `TimeStamp` stores its `int64_t` in an `int` (include/TimeStamp.h:27) and truncates it.
- Seconds of `addTime` are exact reals, not doubles.
- Log buffers are values with an address, standing for unique_ptr; `bzero` and the cookies of FixedBuffer are left out.
- What message callbacks take out of the input buffer: in `Reactor` it keeps all that was read.
- Each check-and-set of `state_` is one atomic step; C++ data races on it and memory ordering are not modelled.
- Users call a connection from its first connection callback on, and keep it alive while a `startRead` or `stopRead` that they queue after its close is pending.
- User functors and timers of the loop have no events of their own in `Reactor`: a call in the loop thread can come between any two events.
- Destructors of server, loop and timer queue, and what is still queued then.
- `Acceptor`, `Socket`, `InetAddress`, endianness and `handleError`: thin wrappers of system calls.
- Thread creation, thread pool and `getNextLoop`: a connection has one fixed io loop, which may or may not be the server's.
- `DefaultPoller`, whose branches return nothing; the poller is EpollPoller, and growing its event list is left out.
- Overflow of the connection and timer counters: a server stops accepting before its int counter would overflow.
- Text formatting of time stamps, `Logging` and `StringPiece`: library formatting of little depth.
