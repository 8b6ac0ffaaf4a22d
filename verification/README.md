# A verified model of wserver

wserver is a multi-threaded HTTP server: a main loop accepts connections and hands each to one of
several I/O loops ("one loop per thread").  Loops talk to each other only through queues of functors.
Each I/O loop has a poller, a timer heap, and connections with an input buffer, an output buffer and
a resumable request parser.  Messages go to a double-buffered asynchronous log.

This project models that logic in Dafny and proves what it is for.  What the source does in place is a
class or a method with loops here, proved against functions on values; what spans threads is a
transition system whose steps are the atomic sections of the source, and the theorems hold in every
state of every run.

| file | contents |
|---|---|
| `Buffers.dfy` | the growable byte buffer, refining a plain byte queue |
| `Http.dfy`, `HttpContexts.dfy` | the request parser: specification and theorems; the parser object |
| `Headers.dfy` | which header lines mean what, in any case of their letters |
| `Chunks.dfy` | requests arriving in pieces; what is refused |
| `RoundTrip.dfy`, `WebBench.dfy` | printed requests parse back; the requests webbench sends and what the server makes of them |
| `Timers.dfy`, `TimerCover.dfy` | the timer heap and its drain; which timers the timerfd covers, over whole runs |
| `Poller.dfy` | channel index, channel map and kernel interest set; the call discipline; the Channel and Epoll objects |
| `EventLoops.dfy`, `LoopProgress.dfy` | functor queues, wakeups and batches of any number of loops; that they make progress |
| `Connections.dfy` | the handlers of one connection, as functions and as the TcpConnection object |
| `Turns.dfy`, `Sessions.dfy` | one connection over many events: when parsing returns; whole conversations of requests and answers |
| `Lifecycle.dfy` | the whole server: loops, pollers, connections, timers, references, fds |
| `LifecycleInvariant.dfy`, `LifecycleSteps.dfy` | the invariant, and that each kind of step keeps it |
| `LifecycleTheorems.dfy`, `LifecycleAbort.dfy` | safety over all runs; a run that ends in LOG_FATAL |
| `LifecycleBooks.dfy`, `LifecycleReuse.dfy` | what is open, registered and assigned, exactly; a whole life after which the fd comes back |
| `LifecycleEvents.dfy` | how a loop goes through an event |
| `LogStreams.dfy`, `AsyncLogs.dfy` | integer formatting, the fixed buffer, the asynchronous log |
| `Options.dfy` | the option type |

## Where the code falls short

The model follows the code.  These promises turned out not to hold of it as written; each has an exact
condition and, where it takes a run to get there, a run.

- **Closing twice.**  `Channel::handleEvent` may call a second handler after the first one has closed
  the connection (Channel.cpp:28-44).  That handler may close it again, which is LOG_FATAL.  In good
  order this is the only way to abort (`AbortsIff`), and a run gets there: an error reported together
  with the end of the stream (`ClosingTwiceIsReachable`).
- **disableAll.**  A second `disableAll` adds the fd to the interest set again, and because
  `Channel::remove` forces the index to kDeleted the following `remove` leaves it there
  (`DisableAllCleanIff`, `DisableTwiceLeaks`).
- **The parser at its end.**  Entered in CHECK_STATE_END with a complete line waiting, the loop of
  `handleHttpRequest` repeats without end (`EndNeverLeavesTheLoop`); otherwise it terminates.  The
  server gets there exactly through a stall: a complete request on a kept-alive connection whose
  answer the socket takes no byte of, because `handleClose` then returns before anything is reset
  (TcpConnection.cpp:113-123, 145).  Without a stall every event of every run returns
  (`EveryEventReturns`, `StaysReadyIff`); after one, the next complete line does not
  (`StallThenLoops`, `StuckAnswerThenNextRequest`).
- **Connection headers.**  Any value but Keep-Alive makes the request bad, so webbench's HTTP/1.1
  requests without keep-alive are refused (`BenchIsUnderstood`).  `work()` answers 400 to a request
  that is merely incomplete; incremental parsing is therefore a property of `handleHttpRequest`.
- **Mixed timer delays.**  Every add re-arms the one timerfd with its own delay and nothing re-arms it
  after a drain.  With one delay, as the server has, no timer is stranded (`NoTimerStranded`); with
  mixed delays `NeverStrandedIff` says which runs strand none, and a concrete run strands a timer
  (`MixedDelaysStrand`).
- **A full log without a spare.**  An append that finds the current buffer full and no spare goes
  through a null pointer; `AppendCrashesIff` says when.  Messages that each fit a buffer, however short, and together exceed
  the room left in the two front-end buffers always get there unless the back end takes the buffers
  meanwhile (`TooMuchBeforeTakeCrashes`).
- **Timers added for the past.**  A callback that adds a timer strictly earlier than the one firing
  displaces it, and the wrong timer is popped; `FireRoot` says that this is the exact condition.
- **Negative integers.**  `convert` stays inside its digit table exactly for non-negative values
  (`ConvertSafeIff`).

What the same second handler cannot do is to enable the channel of the closed connection again,
although no handler looks at the state before it does so (TcpConnection.cpp:124-132, `RearmsIff`):
`handleClose` has shut the socket for writing by then (TcpConnection.cpp:174-176), so nothing is sent
and the enabling branches are not reached.  `NoStepRearms` proves this in every interleaving, and all
theorems about the life of connections rest on it.

## Model

| member | source | states |
|---|---|---|
| `LifecycleTheorems.HeldUntilDestroyed` | TcpServer.cpp:31-60 | in every reachable state of every interleaving, a connection that connectDestroyed has not yet run on is held by the map, a queued functor or a timer, and its object exists |
| `LifecycleTheorems.WorksOnLiveObjects` | TcpConnection.cpp:58-186 | no handler, timer callback or functor, the one bound to a raw pointer included, ever acts on a connection that is gone or unheld |
| `LifecycleTheorems.NothingIsBlocked` | Channel.cpp:28-44 | in every reachable state the next handler of an event can be called whatever the kernel reports, and the next functor of a batch can run: their connection exists and belongs to the loop |
| `LifecycleTheorems.LifeIsOrdered` | TcpServer.cpp:41-60 | each connection is established, closed, unmapped and destroyed in this order, at most once each; when its last reference drops it is disconnected and all four have happened before the object goes |
| `LifecycleTheorems.RemovedOutsideHandling` | EventLoop.cpp:131-145 | a channel leaves its loop's map only in a step of a loop that runs functors, never while that loop handles events |
| `LifecycleTheorems.FdsAreReusedSafely` | Epoll.cpp:76-82 | if the kernel hands out only closed fd numbers, an fd is closed only after its channel left the map, an accepted fd is in no map, and the kNew branch never finds its fd taken |
| `LifecycleBooks.OpenFdsAreExact` | Socket.cpp:38-43 | in every reachable state the open fds are exactly those of the connection objects that still exist: none leaks, none is closed early |
| `LifecycleBooks.FreedFdCanBeAccepted` | TcpConnection.cpp:31-38 | when an object goes, its fd number can be handed out again at once |
| `LifecycleReuse.FdNumbersComeBack` | TcpServer.cpp:31-60 | a run from the start reaches a state in which two connections, one after the other, have had the same fd, the first with its whole life behind it |
| `LifecycleBooks.RegisteredForWhatIsLeft` | TcpConnection.cpp:124-132 | in every reachable state an established connection is in its loop's interest set, for writing exactly while the last write that sent something left output, and for reading otherwise |
| `LifecycleBooks.AwaitedEventsCanCome` | Epoll.cpp:31-70 | the poller can report what an established connection waits for, with an error or a hang-up or without |
| `LifecycleBooks.ConnectionsGoRound` | EventLoopThreadPool.cpp:29-36 | connections go round the I/O loops, the c-th one to loop 1 + c mod their number |
| `LifecycleBooks.ExpiryQueuesDrain` | TimerHeap.cpp:126-133 | a readable timerfd queues one drain behind everything else its loop has to run |
| `LifecycleEvents.DispatchCallsFirst` | Channel.cpp:28-44 | each handler an event asks for is called once, in the order close, error, read, write, with its own effect |
| `LifecycleEvents.EveryEventCanEnd` | EventLoop.cpp:82-85 | from every reachable state some continuation by the loop's own steps ends the event under way, or aborts |
| `LifecycleTheorems.ServerIsDisciplined` | Epoll.cpp:72-132 | the running server obeys the call discipline: index, map, interest set and mask agree for every connection in every reachable state, and no poller error was ever reported |
| `LifecycleTheorems.NothingIsForgotten` | TcpConnection.cpp:74-186 | no connection leaks: at each stage of its life the functor that takes it further is still to run, pending or in the rest of the batch, and an open keep-alive connection has its timer |
| `LifecycleTheorems.QueuesAreSound` | EventLoop.cpp:118-159 | the functor queues inside the running server are conserved, in order, and never miss a wakeup |
| `LifecycleTheorems.StepKeepsInv` | EventLoop.cpp:69-159 | every step of every thread that does not abort keeps the whole server in order |
| `LifecycleSteps.NoStepRearms` | TcpConnection.cpp:174-176 | no step of any interleaving enables the channel of a closed connection: a connection closed while its event is being handled has been shut for writing |
| `Connections.RearmsIff` | TcpConnection.cpp:105-137 | on a closed connection handleWrite and handleRead enable the channel exactly when bytes are sent and some are left or the connection is kept alive; the state is not looked at |
| `LifecycleTheorems.AbortsIff` | TcpConnection.cpp:139-181 | in good order the next step reaches LOG_FATAL if and only if it closes a connection that is closed already and not shielded by keep-alive |
| `LifecycleTheorems.RunKeepsInv` | EventLoop.cpp:69-91 | the invariant of the whole server holds at the end of every run that does not abort |
| `LifecycleSteps.AcceptKeepsInv` | TcpServer.cpp:31-46 | accepting a connection, mapping it and queueing its establishing keeps the server in order |
| `LifecycleSteps.RunRemoveKeepsInv` | TcpServer.cpp:53-60 | unmapping a connection and queueing its destruction keeps the server in order |
| `LifecycleSteps.RunDestroyKeepsInv` | TcpConnection.cpp:63-72 | connectDestroyed keeps the server in order |
| `LifecycleSteps.RunEstablishKeepsInv` | TcpConnection.cpp:58-61 | connectEstablished keeps the server in order |
| `LifecycleSteps.DispatchKeepsInv` | Channel.cpp:28-44 | calling the next handler of an event keeps the server in order unless it aborts |
| `LifecycleSteps.FireKeepsInv` | TimerHeap.cpp:114-124 | a timer callback that closes a connection, and the pop after it, keep the server in order |
| `LifecycleSteps.FreeKeepsInv` | TcpConnection.cpp:31-38 | dropping the last reference and closing the fd keeps the server in order |
| `LifecycleAbort.ClosingTwiceIsReachable` | TcpConnection.cpp:163-166 | a run from the start reaches a state in which the next handler closes a closed connection and aborts |
| `EventLoops.FunctorsAreConserved` | EventLoop.cpp:118-159 | at every point of every run of any number of loops, the functors queued on a loop are those executed, then the rest of the batch, then the pending ones: each runs at most once and in order |
| `EventLoops.NoLostWakeup` | EventLoop.cpp:69-129 | a loop blocked in poll with pending functors has an unreported eventfd edge, or some thread stands between its push and its write, also for functors queued from inside a batch |
| `LoopProgress.QueuedFunctorsCanRun` | EventLoop.cpp:69-91 | from every reachable state, in whatever phase a loop is, some continuation by its own steps alone executes every functor queued on it |
| `LoopProgress.WakeupsAreAccountedFor` | EventLoop.cpp:161-182 | in every reachable state the eventfd counts something exactly while epoll has yet to report it or the loop has yet to read it |
| `EventLoops.OwnWakeupsAreNeeded` | EventLoop.cpp:124-127 | a loop owes itself a wakeup only for what it queues while it runs functors |
| `EventLoops.BlockedLoopCanWake` | EventLoop.cpp:161-182 | once those writes are done, poll can return with the wakeup event |
| `EventLoops.StepKeepsInv` | EventLoop.cpp:107-182 | every atomic step of every thread keeps both properties on all loops |
| `Poller.EnableCleanIff` | Epoll.cpp:72-111 | enabling a channel reports nothing and leaves the books in agreement if and only if a new channel's fd is not in the map |
| `Poller.DisableAllCleanIff` | Epoll.cpp:94-105 | disableAll does so if and only if the channel is kAdded |
| `Poller.RemoveCleanIff` | Channel.cpp:125-130 | remove does so if and only if the channel is kDeleted, and then the fd is out of the map |
| `Poller.EnableReports` | Epoll.cpp:72-155 | whatever the books say, an enable is fatal exactly when the kernel has to refuse it and logged exactly when the map is wrong |
| `Poller.DisableAllReports` | Epoll.cpp:94-155 | the same for disableAll |
| `Poller.RemoveIsSilent` | Epoll.cpp:113-132 | remove never asks the kernel and never reports anything |
| `Poller.DisableTwiceLeaks` | Epoll.cpp:83-92 | disableAll twice and then remove leaves the fd in the interest set without a channel |
| `Poller.OthersKeepAgreeing` | Epoll.cpp:72-132 | an operation on one channel leaves every other channel's books in agreement |
| `Poller.StepGoodIff` | Epoll.cpp:72-132 | with any number of channels, an operation keeps all books in agreement without an error if and only if it follows the discipline |
| `Poller.DisciplineKeepsAgreement` | Epoll.cpp:72-155 | after every disciplined sequence of operations index, map, interest set and mask agree on all channels: ADD was never issued for a present fd, MOD or DEL never for an absent one |
| `PollerObjects.Channel.EnableReading` | Channel.cpp:96-99 | the object and its poller change as the specification says, including the reported errors |
| `PollerObjects.Channel.EnableWriting` | Channel.cpp:111-114 | likewise |
| `PollerObjects.Channel.DisableAll` | Channel.cpp:106-109 | likewise |
| `PollerObjects.Channel.Remove` | Channel.cpp:125-130 | likewise |
| `PollerObjects.Epoll.Update` | Epoll.cpp:134-155 | the interest set changes unless the kernel refuses; a refused DEL is logged, a refused ADD or MOD is fatal |
| `PollerObjects.Epoll.UpdateChannel` | Epoll.cpp:72-111 | map, interest set, index and error reports are those of the specification |
| `PollerObjects.Epoll.RemoveChannel` | Epoll.cpp:113-132 | likewise |
| `ConnectionObjects.TcpConnection.constructor` | TcpConnection.cpp:11-29 | a connection starts connecting, with empty buffers and a fresh parser |
| `ConnectionObjects.TcpConnection.ConnectEstablished` | TcpConnection.cpp:58-61 | the object refines the handler function used by the whole-server model |
| `ConnectionObjects.TcpConnection.ConnectDestroyed` | TcpConnection.cpp:63-72 | likewise |
| `ConnectionObjects.TcpConnection.HandleClose` | TcpConnection.cpp:139-181 | likewise, with the fatal case and the shutdown for writing |
| `ConnectionObjects.TcpConnection.CloseLongConnection` | TcpConnection.cpp:183-186 | likewise |
| `ConnectionObjects.TcpConnection.HandleWrite` | TcpConnection.cpp:105-137 | likewise; and on the wire: bytes the socket accepted, then unread output, are all responses in order, through partial writes, EAGAIN, errors and resets |
| `ConnectionObjects.TcpConnection.HandleRead` | TcpConnection.cpp:74-103 | likewise; a successful read adds exactly one response, a failed one none; what is kept alive is what the parser says of the old unread bytes and the new ones, and the parser and the unread bytes are left as that parse leaves them, or reset; bytes delivered before an end or an error stay unread |
| `ConnectionObjects.TcpConnection.OnData` | TcpConnection.cpp:80-94 | the branch for received data: one response, the parse, the keep-alive decision, and the write that follows |
| `ConnectionObjects.TcpConnection.Answer` | TcpConnection.cpp:209-211 | one response is appended to the output and no byte is lost |
| `Sessions.KeptConnectionServesAll` | TcpConnection.cpp:74-137 | any number of requests on one connection, each answered in any number of writes: once one of them is kept, every one is understood as itself, answered to its last byte, and leaves the connection registered for reading and waiting for the next |
| `Sessions.NewConnectionServesAll` | TcpConnection.cpp:58-137 | the same from a new connection whose first request asks to be kept |
| `Sessions.NextRequestIsItsOwn` | HttpContext.cpp:101-111 | after an event that sent the whole answer of a kept connection, the next request is parsed with its own method, URI and version, to its last byte, and stays kept |
| `Sessions.WholeAnswerListens` | TcpConnection.cpp:128-132 | after such an event the kernel watches the connection for reading, and whatever comes next can arrive |
| `Sessions.PartialAnswerWaits` | TcpConnection.cpp:124-127 | after one that left output it is watched for writing, and the next write can come |
| `Sessions.UnkeptRequestIsAnsweredAndClosed` | TcpConnection.cpp:133-181 | a first request that does not ask to be kept, accepted or refused for its Connection header, is answered, and then the connection is closed, out of the interest set and shut for writing |
| `Sessions.ExpiryCloses` | TcpConnection.cpp:139-186 | the keep-alive timer closes the connection without shutting it for writing |
| `Sessions.WriteOutcomes` | TcpConnection.cpp:105-137 | all that handleWrite does to an open connection, by what was sent, what is left and whether it is kept |
| `Turns.EveryEventReturns` | TcpConnection.cpp:74-137 | over any run of reads, writes, errors and timeouts of a connection, the second handler of an event on a connection just closed included, in which no complete request stalls, handleHttpRequest is never entered at its end with a complete line, so every event returns |
| `Turns.StaysReadyIff` | TcpConnection.cpp:105-145 | an event leaves the parser ready for whatever read handler may be called next if and only if it does not stall |
| `Turns.ListensAfterRead` | TcpConnection.cpp:74-137 | a read with data resets the parser exactly when the kept-alive connection sent its whole answer; without a reset the connection goes on listening exactly when it is kept alive and sent nothing |
| `Turns.StallThenLoops` | HttpContext.cpp:133-157 | after a stall the connection still listens, and any data completing a line makes the parser loop without end |
| `Turns.StuckAnswerThenNextRequest` | TcpConnection.cpp:113-123 | on a kept-alive connection every printed request, the first or a later one, stalls when the socket takes no byte of its answer, and the next one does not return |
| `Chunks.ChunkedRequestIsUnderstood` | HttpContext.cpp:113-165 | however a printed request is cut, every piece but the last leaves the parser waiting, and with the last it is accepted with its own fields, to its last byte |
| `Chunks.PartOfRequest` | HttpContext.cpp:159-161 | every proper part of an acceptable printed request is incomplete |
| `Chunks.OnlyTheGrammarPasses` | HttpContext.cpp:134-140 | a complete line passes as a request line with the fields of its shape; one without the shape is refused, consumes itself only, and leaves the parser waiting for a request line |
| `Chunks.LoneCrIsRefused` | HttpContext.cpp:123-125 | a CR followed by something else is refused and changes nothing else |
| `Headers.HeaderMeans` | HttpContext.cpp:229-246 | a header line that names Connection, in any case, is remembered exactly if Keep-Alive follows, in any case, after any spaces, and is otherwise refused with nothing remembered; any other line is passed over |
| `Headers.CaseDoesNotMatter` | HttpContext.cpp:229-234 | two header lines that differ only in the case of letters are accepted alike, decide alike and leave the same bytes |
| `Headers.AnyCaseKeepsAlive` | HttpContext.cpp:229-237 | field name in any case, any spaces, the value in any case and any tail: kept |
| `Http.AnyChunkingEqualsOneShot` | HttpContext.cpp:113-165 | however a byte string is cut into chunks of which all but the last parse as incomplete, appending and handling chunk by chunk ends with the same fields, states and unread bytes as handling the whole at once |
| `Http.IncrementalEqualsOneShot` | HttpContext.cpp:131-165 | the same for one cut, from every parser state but the end |
| `Http.HandleForgets` | HttpContext.cpp:131-165 | the line and the verdict left over from the last call do not influence the next |
| `Http.HandleLeavesNoBodyState` | HttpContext.cpp:131-165 | a call from any state but the end returns incomplete, accepted or bad; it is in the end state exactly when accepted |
| `Http.ParseLineExact` | HttpContext.cpp:113-129 | a line is complete exactly when the first CR is followed by LF (section 2.2 of RFC 9112), and then just that line is consumed; bad exactly when another byte and one more follow the CR; an open line consumes nothing |
| `Http.CompleteLineIsStable` | Buffer.cpp:62-76 | a complete line stays the same whatever bytes follow it |
| `Http.RequestLineComplete` | HttpContext.cpp:167-219 | every line of the grammar (method, spaces, URI, spaces, version, end) is accepted with exactly its own method, URI and version |
| `Http.RequestLineSound` | HttpContext.cpp:167-219 | and nothing else is: an accepted line has that shape with the parsed fields |
| `Http.EndNeverLeavesTheLoop` | HttpContext.cpp:133-157 | in CHECK_STATE_END no number of passes leaves the loop or fetches a line |
| `Http.TwoPassesSuffice` | HttpContext.cpp:133-157 | from every other state the loop stops or fetches a new line within two passes |
| `HttpContexts.HttpContext.constructor` | HttpContext.cpp:80-90 | a new parser waits for a request line with Connection close |
| `HttpContexts.HttpContext.Reset` | HttpContext.cpp:101-111 | back to the start with keep-alive; unread input is dropped, output is kept |
| `HttpContexts.HttpContext.ParseLine` | HttpContext.cpp:113-129 | status, line text and unread bytes are those the line theorems speak of |
| `HttpContexts.HttpContext.ParseRequestLine` | HttpContext.cpp:167-219 | the in-place scan sets exactly the fields the request-line theorems speak of |
| `HttpContexts.HttpContext.ParseMessageHeader` | HttpContext.cpp:221-247 | the empty line ends the headers, Keep-Alive is remembered, another Connection value is refused |
| `HttpContexts.HttpContext.ParseMessageBody` | HttpContext.cpp:249-253 | the request is accepted |
| `HttpContexts.HttpContext.HandleHttpRequest` | HttpContext.cpp:131-165 | terminates whenever the parser is not at its end with a complete line waiting, by a measure on unread bytes and state, with the result all parsing theorems speak of |
| `HttpContexts.HttpContext.Work` | HttpContext.cpp:94-99 | one response is appended whatever the verdict, an incomplete request included |
| `RoundTrip.RequestRoundTrip` | HttpContext.cpp:131-253 | a printed GET or HEAD request with a non-empty URI free of space, CR and NUL, version 1.0 or 1.1 and non-empty headers free of CR that do not start with NUL is accepted with the same fields and consumes exactly its bytes, if and only if each Connection header says Keep-Alive; otherwise it is bad |
| `RoundTrip.HeaderBlockParses` | HttpContext.cpp:221-253 | the same for the header block alone, from any header state |
| `RoundTrip.NulLineEndsHeaders` | HttpContext.cpp:223-228 | an empty line ends the headers, and so does one that starts with NUL, whatever follows on it |
| `RoundTrip.HeaderLineStep` | HttpContext.cpp:221-247 | one header line is consumed and remembered, or the request is refused |
| `WebBench.BuildRequest` | webbench/webbench.c:223-330 | with or without a proxy, the cuts of the URL and the successive strcpy and strcat produce a printed request of the form above, or nothing where the program exits |
| `WebBench.UrlIsCut` | webbench/webbench.c:265-291 | of a URL written as scheme, host, optional port and path, the cuts give exactly the host and the path |
| `WebBench.BenchIsUnderstood` | webbench/webbench.c:233-330 | for every job with a URL free of space, CR and NUL, with or without a proxy, the server accepts webbench's request if and only if it is GET or HEAD in HTTP/1.0, or in HTTP/1.1 with keep-alive, and then sees the method, target and version webbench meant and consumes exactly the request; everything else is bad |
| `WebBench.BenchOptionsDecide` | webbench/webbench.c:233-236 | the same in terms of the command line alone, with the version and the keep-alive decision the server sees |
| `WebBench.OneHostLine` | webbench/webbench.c:304-330 | a direct request has exactly one Host line, with the URL's host, one through a proxy none; cut into lines it is the request line, the headers of its options in order, and an empty line |
| `WebBench.SimpleRequestRefused` | webbench/webbench.c:299-304 | a request in HTTP/0.9 mode, which has no version, is refused |
| `RoundTrip.OtherMethodsRefused` | HttpContext.cpp:173-185 | a request line with another method is refused, whatever follows |
| `Buffers.Buffer.constructor` | Buffer.cpp:9-13 | an empty queue |
| `Buffers.Buffer.ClearUselessData` | Buffer.cpp:17-21 | compaction keeps the queue |
| `Buffers.Buffer.MakeSpace` | Buffer.cpp:34-48 | keeps the queue and yields the space asked for, in the same store exactly when the free space on both sides suffices |
| `Buffers.Buffer.EnsureEnoughSpace` | Buffer.cpp:28-32 | likewise |
| `Buffers.Buffer.Append` | Buffer.cpp:50-60 | the bytes join the end of the queue |
| `Buffers.Buffer.GetAnHTTPLine` | Buffer.cpp:62-76 | a complete line leaves the front of the queue; without one nothing leaves it |
| `Buffers.Buffer.ReadFromFd` | Buffer.cpp:85-107 | all delivered bytes join the queue, also when the report is 0 or -1 |
| `Buffers.Buffer.WriteToFd` | Buffer.cpp:109-136 | exactly the accepted bytes leave the front of the queue, whatever the report |
| `Buffers.ReadReportIff` | Buffer.cpp:85-107 | a read reports a positive count, that of all bytes delivered, exactly when something was delivered and the socket then would block; a negative one exactly after an error |
| `Buffers.WriteReportIff` | Buffer.cpp:109-136 | a write reports -1 exactly after an error, and otherwise all that was accepted |
| `Buffers.Buffer.RetrieveAll` | Buffer.cpp:138-141 | the queue is empty |
| `Timers.TimerHeap.HandleTimeoutEvents` | TimerHeap.cpp:114-124 | exactly the timers due at the captured time fire, once each and in order of expiry; later ones remain, and what was added is what the callbacks of the fired ones asked for, in their order |
| `Timers.TimerHeap.DrainHeap` | TimerHeap.cpp:116-123 | its loop, which terminates |
| `Timers.TimerHeap.FireRoot` | TimerHeap.cpp:117-122 | the timer that is popped is the one that fired if and only if its callback added no strictly earlier one |
| `Timers.TimerHeap.RunCallback` | TimerHeap.cpp:77-96 | re-entrant adds leave the root in place if and only if none of them is strictly earlier |
| `Timers.TimerHeap.AddTimerInLoop` | TimerHeap.cpp:90-96 | heap order is kept, exactly the new timer is added, the root is displaced exactly by a strictly earlier one, and the fd has the new timer's delay |
| `Timers.TimerHeap.Pop` | TimerHeap.cpp:99-106 | heap order is kept and exactly the root is removed |
| `Timers.TimerHeap.PercolateUp` | TimerHeap.cpp:77-84 | repairs a heap that is wrong upwards at one index, keeping its timers |
| `Timers.TimerHeap.PercolateDown` | TimerHeap.cpp:57-75 | repairs a heap that is wrong downwards at one index, keeping its timers |
| `Timers.TimerHeap.HandleRead` | TimerHeap.cpp:126-133 | the expiry is read and one drain is queued |
| `Timers.DeadlineMeetsExpiry` | Timer.h:12-15 | the fd's deadline is the delay away, never before the timer's expiry and less than a second after it |
| `Timers.RootIsLeast` | TimerHeap.cpp:109-111 | in heap order the root expires no later than any timer |
| `TimerCover.NoTimerStranded` | TimerHeap.cpp:90-96 | with one positive delay and a clock that never goes back, in every state of every run each pending timer is due by an armed deadline, or is due with an expiry unread or a drain queued |
| `TimerCover.QuietMeansEmpty` | TimerHeap.cpp:9 | with the server's delay, when nothing is armed, unread or queued, every timer has fired |
| `TimerCover.StepKeepsInv` | TimerHeap.cpp:27-35 | every step of the clock, the fd and the heap keeps this |
| `TimerCover.NeverStrandedIff` | TimerHeap.cpp:90-133 | over whole runs with any delays, no timer is ever stranded if and only if every add is harmless when made: with a positive delay each pending timer expires no later or is due with a drain queued, with delay zero all are due with a drain queued, with a negative one the new timer is covered already |
| `TimerCover.AddKeepsCoverIff` | TimerHeap.cpp:93-95 | the same for one add |
| `TimerCover.MixedDelaysStrand` | TimerHeap.cpp:90-133 | a run that leaves a timer pending with nothing armed, unread or queued |
| `AsyncLogs.MessagesAreConserved` | base/AsyncLog.cpp:31-117 | at every point of every run in which an append never lacks a spare, the file, the buffers taken and not yet written, the queued ones and the current one hold the messages of the run's appends, as strncpy copies them, in order |
| `AsyncLogs.BackEndIsNeverStarved` | base/AsyncLog.cpp:95-112 | both spares can always be refilled, the drop branch is never taken, and an empty next buffer means a full one is queued |
| `AsyncLogs.TakeRestoresSpares` | base/AsyncLog.cpp:65-77 | whenever the back end takes the buffers, the front end has two empty ones afterwards |
| `AsyncLogs.AppendCrashesIff` | base/AsyncLog.cpp:36-45 | in every reachable state an append goes through a null pointer if and only if the current buffer is too full and one was queued since the back end last took them |
| `AsyncLogs.FittingMessagesStay` | base/AsyncLog.cpp:33-35 | messages that together fit the 4,000,000 bytes of the current buffer go there in order and touch neither the spare nor the queue |
| `AsyncLogs.TooMuchBeforeTakeCrashes` | base/AsyncLog.cpp:31-48 | from any reachable state, appending messages that each fit a buffer, however short, and together exceed the room left in the two front-end buffers always reaches such an append, if the back end takes nothing meanwhile |
| `AsyncLogs.EightMillionBytesCrash` | base/LogStream.h:9-10 | from the start, messages of at most 4,000,000 bytes that together exceed 8,000,000 do so |
| `AsyncLogs.ThreeLongMessagesCrash` | base/AsyncLog.cpp:36-45 | any three messages of which no two neighbours share a buffer do so, appended before the back end wakes |
| `AsyncLogs.AsyncLog.Append` | base/AsyncLog.cpp:31-48 | the object's step is the step of the system above |
| `AsyncLogs.AsyncLog.TakeBuffers` | base/AsyncLog.cpp:65-88 | likewise |
| `AsyncLogs.AsyncLog.WriteBuffer` | base/AsyncLog.cpp:90-93 | likewise |
| `AsyncLogs.AsyncLog.RecycleBuffers` | base/AsyncLog.cpp:95-112 | likewise |
| `LogStreams.TextReadsBack` | base/LogStream.cpp:9-43 | a reader that lets the text choose the base (0x for 16, otherwise 10) and accepts only digits of that base and no superfluous zero gets the integer and the base asked for |
| `LogStreams.NumeralReadsBack` | base/LogStream.cpp:20-42 | decoding the text of any non-negative integer in base 10 or 16 gives the integer, and no superfluous zero leads it |
| `LogStreams.Convert` | base/LogStream.cpp:9-43 | the do-while loop and the reversal in place leave characters that read back as the integer in the base asked for, with a terminator, and nothing before them changes |
| `LogStreams.WriteDigits` | base/LogStream.cpp:20-26 | the loop writes the numeral backwards |
| `LogStreams.Reverse` | base/LogStream.cpp:35-41 | the range is reversed in place and nothing else changes |
| `LogStreams.SixtyFourBitsFit` | base/LogStream.cpp:46-53 | a 64-bit value and its terminator fit the 48 bytes formatInteger asks for |
| `LogStreams.ConvertSafeIff` | base/LogStream.cpp:20-26 | the loop stays inside the digit table if and only if the value is not negative |
| `LogStreams.FixedBuffer.FormatInteger` | base/LogStream.cpp:46-53 | text that reads back as the integer is appended whole, or nothing is when 48 bytes are not to spare |
| `LogStreams.FixedBuffer.Append` | base/LogStream.h:27-30 | the message is appended as strncpy copies it |
| `LogStreams.PaddedIsIdentityIff` | base/LogStream.h:27-30 | that is the message itself if and only if nothing but NULs follows its first NUL |
| `LogStreams.FixedBuffer.AddLen` | base/LogStream.h:44-44 | bytes written behind the contents become part of them |
| `LogStreams.FixedBuffer.Reset` | base/LogStream.h:48-48 | the contents are empty |

## Left out

- Socket, Acceptor, Thread: system-call wrappers; accept, read, write, epoll_ctl, eventfd and timerfd appear as steps of the environment with these assumptions: the kernel hands out only fd numbers that are closed, reports only registered fds, refuses epoll_ctl exactly for a present fd on ADD and an absent one on MOD or DEL, closing an fd takes it out of every interest set, and a socket that is shut for writing accepts no byte.  The signal that such a write may raise is left out; the model goes on where the process would end.
- Mutexes, conditions, thread start-up, quitting: a critical section is one atomic step; starting and stopping threads, the destructors of TcpServer and EventLoop, and the shutdown paths are not modelled.
- The server as objects: TcpServer, EventLoop and the interleaving of threads are transition systems on values, because steps of different threads alternate; aliasing of references is modelled by the sets of references, not by pointers.  At least one I/O loop is assumed.
- LOG_FATAL: a terminal state; the flush it waits for is not modelled.
- References held only on the stack (guard_this and temporary copies of shared pointers) are not counted; counting fewer references makes the liveness theorems stronger.
- The timers of the whole-server model are a set of connections, any of which may fire; that a drain fires exactly the due ones is stated of the heap itself.  Firing and popping are one step.
- Timers.TimerHeap.HandleTimeoutEvents: callbacks add timers that are not due in the same drain, as those with a positive delay by a clock that has not gone back are (`PositiveDelaysAreLater`); with others the drain may not end.
- Timers.TimerHeap.DrainHeap: the same condition.
- Timers: wall clock and monotonic clock are taken to run at the same rate, the clock counts in ticks of which a second has a fixed number.
- HttpContexts.HttpContext.HandleHttpRequest: requires that the parser is not at its end with a complete line waiting, since the source does not return then; `StaysReadyIff` says when the server meets this.
- HttpContexts.HttpContext.Work: the same condition.
- AsyncLogs.AsyncLog.Append: requires a spare when the current buffer is full, since the source dereferences a null pointer otherwise, and a message no longer than a buffer.
- AsyncLogs: a buffer has one owner and is a value; flush, stop, LogFile and the file system are left out, the file is the sequence of bytes appended to it.
- LogStreams.FixedBuffer.Append: the source does not check for space; the model requires it.
- LogStreams.FixedBuffer.FormatInteger: covers non-negative values, as `Convert` does.
- LogStreams.Convert: covers non-negative values; for negative ones the source reads outside its digit table.
- Formatting of floating-point values and the other stream operators, which only append.
- Integer widths: lengths, indices, counters and connection numbers are unbounded; the 64-bit range appears where the reserve of formatInteger depends on it.
- Event masks: three values (none, read, write), the only ones the server assigns; disableReading, disableWriting and isWriting are unused.
- Bytes are characters; the text of responses (status lines, favicon, time stamps) is an arbitrary string.
- Buffer::setContent and Buffer::reserve, which the server does not use.
- WebBench.BuildRequest: the arrays for host, port and request have no size limit in the model, and the port number is not read.
- webbench: option parsing, forking and the benchmark loop.
