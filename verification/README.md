# A verified model of the muduo-core connection output pipeline

This project models, in Dafny, the part of the muduo-core network library that turns calls of `send`, `sendFile` and
`shutdown` into bytes on a socket, and proves properties of it for every run. The layers are those of the library:

| file | models |
|---|---|
| `SystemCalls.dfy` | what the kernel may answer to `write`, `readv`, `sendfile` and `epoll_wait`; the epoll event bits |
| `BufferLayout.dfy`, `Buffer.dfy` | the two-index byte buffer over an array: compaction, growth, scatter read |
| `Links.dfy`, `Registries.dfy` | channel, poller table and kernel epoll set as values: for one channel, and for any number of them |
| `Dispatch.dfy`, `EventList.dfy` | which callbacks an event mask runs; how the poller's event list grows |
| `Reactor.dfy` | the classes `Channel` and `EPollPoller` over the heap |
| `ConnectionSpec.dfy`, `TcpConnection.dfy` | one connection as a value, and the class that is proved to follow it |
| `ConnectionMachine.dfy`, `Simulation.dfy` | every run of a connection: users, other threads, the loop and the kernel, step by step; and the class taken through any run |
| `ConnectionInvariants.dfy`, `HalfClose.dfy`, `Lifecycle.dfy`, `ForeignCalls.dfy`, `FileTransfer.dfy`, `Overtaking.dfy`, `Notifications.dfy`, `Draining.dfy` | theorems over those runs |
| `Witnesses.dfy` | concrete runs that show what is not true |
| `Startup.dfy`, `LoopPool.dfy` | the start-up handshake of a loop thread; the pool of loop threads and its round robin |

The classes are imperative, as the source is. Each method says what it does to the object's value (`View`, `Shape`,
`Contents`) by a function of the old value; the theorems over runs are lemmas about those functions. A run is a
sequence of machines joined by steps. The kernel's answers are part of a step and are arbitrary within their contract:
any count up to what was asked, or any error, and always a broken pipe once the write side is shut (the FIN of a
half-close, section 3.6 of RFC 9293). Other threads may interleave anywhere; a call from one of them looks at the state
in one action and queues its loop task in a later one, and a shutdown sets the state in a third. On the loop's thread only
connectDestroyed looks at the state and then overwrites what a shutdown sets (src/TcpConnection.cpp:178-180): its step
says how many settings fall in between.

Two classes that the source uses are not part of this model, `EventLoop` and `TcpServer`; of them only this is taken:
loop tasks run first in, first out, one at a time, on the loop's thread, after the callbacks of the event being
dispatched; `runInLoop` on that thread runs at once; `connectEstablished` runs once and `connectDestroyed` at most
once after it; and no two channels with one descriptor are registered at the same time. Connections on one poller share one loop;
its queue is modelled as one part for each connection.

## What is not true of the code

Six natural claims hold only with a restriction. Each is shown false by a concrete run, and the exact condition is proved.

- A shutdown from another thread can shut the write side twice (`ForeignShutdownTwice`); after the first end, a second
  one is exactly the queued half of such a shutdown running with no write pending (`AfterFin`).
- It can move the state back from Disconnected to Disconnecting (`ForeignShutdownGoesBack`); that happens exactly when
  its set-state action runs in Disconnected (`StateBackIff`).
- A send from another thread that is still queued when the connection closes is logged as given up but goes on
  (src/TcpConnection.cpp:87-90), and puts the closed descriptor back into the kernel's set (`ForeignSendPutsBack`);
  `PutBackIff` says exactly when a dead connection's descriptor is put back.
- A connection can go down more than once. In every run it does so exactly when its close handler runs again
  (`DownAgainIff`). Behind a send from another thread a plain hang-up is enough (`ForeignSendTwiceDown`). With sends on
  the loop's thread it takes a hang-up reported with urgent data and without EPOLLIN, the one kind of mask that runs both
  the close and the read callback (`ClosesAndReadsIff`), whose read callback then finds the end of the stream
  (`HangUpWithUrgentData`); `OneDownIff` says that this is the only way, and that it is also the only way in which the
  kernel ever watches a dead descriptor.
- A file that sendFile has taken on can be cut off: a shutdown right behind it shuts the write side while the rest waits
  for its retry, which then gives it up without a notification (`ShutdownCutsFile`). A request ends short exactly when
  one of its attempts finds the connection shutting down or the socket broken (`EndsShortIff`).
- A file never overtakes a send (`FilesNeverOvertake`), but a send can land inside a file whose rest waits for its retry
  (`SendInsideFile`). `SplitIff` says exactly when: a step sends while a request has begun and still has a task.

## Model

| member | source | states |
|---|---|---|
| BufferLayout.CompactionMovesDown | include/Buffer.h:91-110 | The compaction branch is taken only with the reader above the reserved prefix, so the overlapping forward copy is safe; either branch leaves room for the bytes asked for and the readable length as it was |
| BufferLayout.AppendStorage | include/Buffer.h:61-75 | An append that grows the storage grows it to at most twice what is then readable, plus seven |
| BufferLayout.Fifo | include/Buffer.h:31-75 | Over any run of appends, retrieves and scatter reads the buffer is a first-in first-out queue: bytes taken out, then bytes left, are the bytes put in, in order |
| BufferLayout.StorageBound | include/Buffer.h:91-110 | Over any run the storage stays within the first allocation or 2P + 7, where P is the largest readable length ever reached |
| BufferLayout.StorageNeverShrinks | include/Buffer.h:91-110 | No operation gives storage back |
| BufferLayout.EmptyIsReset | include/Buffer.h:31-48 | Over any run an empty buffer has both indices back at the reserved prefix, so that all storage behind it is writable |
| BufferLayout.OfferedRoom | src/Buffer.cpp:15-37 | One scatter read can always deliver 65536 bytes, on top of the tail while that alone is shorter |
| Buffers.Buffer.constructor | include/Buffer.h:15-20 | A new buffer is empty, with both indices at the reserved prefix |
| Buffers.Buffer.Retrieve | include/Buffer.h:31-41 | Drops the first len readable bytes, or all of them when there are no more than len |
| Buffers.Buffer.RetrieveAll | include/Buffer.h:44-48 | Empties the buffer and resets both indices |
| Buffers.Buffer.RetrieveAsString | include/Buffer.h:53-58 | What is returned followed by what stays is what was readable |
| Buffers.Buffer.RetrieveAllAsString | include/Buffer.h:51 | Returns everything readable and leaves the buffer empty |
| Buffers.Buffer.EnsureWritableBytes | include/Buffer.h:61-67 | Makes room without changing what is readable |
| Buffers.Buffer.MakeSpace | include/Buffer.h:91-110 | Growth and in-place compaction both keep the readable bytes |
| Buffers.Buffer.CopyForward | include/Buffer.h:104-106 | The ascending copy onto an overlapping lower region moves the whole old region |
| Buffers.Buffer.Append | include/Buffer.h:70-75 | Puts the data behind what was readable, byte for byte |
| Buffers.Buffer.ReadFd | src/Buffer.cpp:15-51 | Puts all delivered bytes, those in the vector's tail and those in the stack area, behind what was readable; an error changes nothing |
| Buffers.Buffer.WriteFd | src/Buffer.cpp:55-64 | The kernel takes a prefix of the readable bytes, of the length it reports |
| Buffers.Buffer.DoAll | include/Buffer.h:31-75 | Any list of operations on the array does what the run says: the bytes handed out and those left are the bytes there before and those put in, in order |
| Dispatch.HandlersExact | src/Channel.cpp:80-116 | Bit by bit, whatever else is reported: the close callback is run for a hang-up without EPOLLIN, the error callback for EPOLLERR, the read callback for EPOLLIN or EPOLLPRI, the write callback for EPOLLOUT; each once, in this order |
| Dispatch.ClosesAndReadsIff | src/Channel.cpp:84-107 | Close and read callbacks both run exactly for hang-up and urgent data without EPOLLIN |
| Links.WithEventsCoherent | include/Channel.h:41-45 | Changing a mask keeps index, table and kernel entry of the channel in step |
| Links.DisableAllToggles | src/EPollPoller.cpp:71-104 | Switching off all interest leaves the channel in the kernel's set exactly if it was not watched before |
| Registries.ChangeCoherent | src/EPollPoller.cpp:71-104 | Every enable or disable keeps table, channels and kernel set in step, touches no other channel, and is what one channel's view says |
| Registries.RemoveCoherent | src/EPollPoller.cpp:107-120 | So does every removal |
| Registries.ChangeCoherentIff | src/EPollPoller.cpp:76-88 | An update keeps them in step if and only if no other channel holds the descriptor, and the kernel refuses it exactly when a new channel's descriptor is already watched |
| Registries.RemoveCoherentIff | src/EPollPoller.cpp:107-120 | A removal keeps them in step if and only if no other channel holds the descriptor, and the kernel never refuses it |
| Registries.RunCoherent | src/EPollPoller.cpp:71-120 | For any number of channels and any sequence of operations they stay in step, and the kernel refuses no control call |
| Registries.DomainsExact | src/EPollPoller.cpp:71-120 | The kernel watches exactly the descriptors of Added channels, and the table holds exactly those of Added and Deleted ones |
| EventList.CapacityBound | src/EPollPoller.cpp:41-53 | Over any run of polls the event list's size is 16 times a power of two, and beyond 16 at most twice the largest batch |
| EventList.SteadyFeasible | src/EPollPoller.cpp:41 | The steady load is one the kernel can answer with: no batch exceeds the list |
| EventList.DoublingsLeast | src/EPollPoller.cpp:49-52 | The number of doublings needed is the least k with N at most 16 times 2 to the k |
| EventList.ShortPolls | src/EPollPoller.cpp:41-53 | While N descriptors stay ready, exactly the first polls miss some of them, one for each doubling needed |
| Reactor.Channel.constructor | src/Channel.cpp:13-21 | A new channel has no interest and is unknown to table and kernel |
| Reactor.Channel.EnableReading | include/Channel.h:41 | Adds the read bits to the mask and pushes the change to the poller |
| Reactor.Channel.DisableReading | include/Channel.h:42 | Takes the read bits out of the mask and pushes the change |
| Reactor.Channel.EnableWriting | include/Channel.h:43 | Adds the write bit and pushes the change |
| Reactor.Channel.DisableWriting | include/Channel.h:44 | Takes the write bit out and pushes the change |
| Reactor.Channel.DisableAll | include/Channel.h:45 | Empties the mask and pushes the change |
| Reactor.Channel.Update | src/Channel.cpp:42-45 | Hands the channel to the poller's update |
| Reactor.Channel.Remove | src/Channel.cpp:50-53 | Hands the channel to the poller's removal |
| Reactor.Channel.HandleEvent | src/Channel.cpp:58-74 | Runs the mask's callbacks in order unless the tied owner is gone |
| Reactor.Channel.HandleEventWithGuard | src/Channel.cpp:80-116 | The branches in the order of the code run exactly the callbacks of the mask |
| Reactor.EPollPoller.UpdateChannel | src/EPollPoller.cpp:71-104 | ADD, MOD or DEL and the index change for each of the three index values |
| Reactor.EPollPoller.RemoveChannel | src/EPollPoller.cpp:107-120 | Erases the table entry, deletes a watched descriptor from the kernel's set, resets the index |
| Reactor.EPollPoller.EpollCtl | src/EPollPoller.cpp:135-158 | The control call stores the current mask and this channel's pointer, or is refused |
| Reactor.EPollPoller.Poll | src/EPollPoller.cpp:35-67 | The channels found are pairwise distinct; each is the watched channel the table holds for its descriptor and carries the events reported for it; no other channel is touched; the list doubles exactly when it was filled |
| Reactor.EPollPoller.FillActiveChannels | src/EPollPoller.cpp:123-131 | Appends each reported channel once, with its events |
| TcpConnections.TcpConnection.constructor | src/TcpConnection.cpp:28-55 | A new connection is Connecting, with empty buffers, an unregistered channel and the default mark |
| TcpConnections.TcpConnection.Send | src/TcpConnection.cpp:62-76 | Sends at once on the loop's thread, queues from another one, does nothing unless Connected |
| TcpConnections.TcpConnection.SendInLoop | src/TcpConnection.cpp:81-143 | Over the real channel, poller, buffer and queue, the direct write, the fault, the high-water check and the buffering follow the specification |
| TcpConnections.TcpConnection.Shutdown | src/TcpConnection.cpp:146-154 | Moves Connected to Disconnecting and runs or queues the other half |
| TcpConnections.TcpConnection.ShutdownInLoop | src/TcpConnection.cpp:156-162 | Shuts the write side unless a write is pending |
| TcpConnections.TcpConnection.ConnectEstablished | src/TcpConnection.cpp:165-173 | Connected, tied, watched for reading, one up notification |
| TcpConnections.TcpConnection.Dispatch | src/Channel.cpp:58-74 | A reported event runs its callbacks, but none of a connection that has come up and whose owner is gone |
| TcpConnections.TcpConnection.ConnectDestroyed | src/TcpConnection.cpp:176-185 | Goes down if still Connected; removes the channel in any case |
| TcpConnections.TcpConnection.HandleRead | src/TcpConnection.cpp:188-207 | Buffers what was read and runs the message callback, closes at end of stream, changes nothing on an error |
| TcpConnections.TcpConnection.HandleWrite | src/TcpConnection.cpp:210-243 | Moves what the kernel took from the buffer to the wire; when the buffer is empty, stops writing, notifies, and finishes a waiting shutdown |
| TcpConnections.TcpConnection.HandleClose | src/TcpConnection.cpp:245-254 | Disconnected, no interest left, one down notification |
| TcpConnections.TcpConnection.SendFile | src/TcpConnection.cpp:276-287 | Takes a file request on only when Connected, at once or through the queue |
| TcpConnections.TcpConnection.SendFileInLoop | src/TcpConnection.cpp:290-324 | One attempt at a file request, and what it queues again |
| TcpConnections.TcpConnection.RunHandler | src/TcpConnection.cpp:44-51 | The four channel callbacks are bound to the four handlers |
| TcpConnections.TcpConnection.RunTask | src/TcpConnection.cpp:62-76 | The loop's tasks run the functions they were queued for, and a notification its callback |
| Simulation.PerformAll | src/TcpConnection.cpp:62-324 | A connection made of real parts, taken through the steps of any run, has at every point the value of the run's machine, and touches no other channel of its poller |
| TcpConnections.TcpConnection.StaysBeside | src/EPollPoller.cpp:71-120 | A change of one connection's channel leaves every other connection on the poller valid and as it was |
| TcpConnections.TcpConnection.EchoAmong | src/TcpConnection.cpp:62-76 | A message callback that sends back all that came in touches none of any number of other connections on the poller |
| TcpConnections.TcpConnection.SetWriteCompleteCallback | include/TcpConnection.h:51-52 | Sets the callback and nothing else |
| TcpConnections.TcpConnection.SetHighWaterMarkCallback | include/TcpConnection.h:55-56 | Sets the callback and the mark and nothing else |
| ConnectionMachine.ForeignSendQueues | src/TcpConnection.cpp:64-75 | A send from another thread that is not overtaken amounts to queueing its loop task |
| ConnectionMachine.ForeignShutdownQueues | src/TcpConnection.cpp:146-154 | So does a shutdown, after setting the state |
| ConnectionMachine.OnlyWhenConnected | src/TcpConnection.cpp:62-76 | In any state but Connected a send, sendFile or shutdown changes nothing, from whichever thread |
| ConnectionInvariants.NeverStranded | src/TcpConnection.cpp:93-141 | In every run, while the connection is live: bytes are waiting iff write interest is on iff the kernel watches for writability; the kernel's mask is the channel's; read interest is on |
| ConnectionInvariants.StepHolds | src/TcpConnection.cpp:81-143 | One step adds to wire and buffer exactly the payload it accepts |
| ConnectionInvariants.NothingLostOrReordered | src/TcpConnection.cpp:81-143 | In every run, send bytes on the wire followed by the output buffer are the payloads of the sends that did not fault, whole and in execution order |
| ConnectionInvariants.FaultDropsWholePayload | src/TcpConnection.cpp:106-117 | A send that ends in a fault drops its whole payload and changes nothing else |
| ConnectionInvariants.DirectSendByAnswer | src/TcpConnection.cpp:93-141 | With nothing waiting: a broken pipe or a reset drops the payload and changes nothing, any other error makes all of it wait with write interest on, and of n bytes taken the rest waits |
| ConnectionInvariants.WaitingSend | src/TcpConnection.cpp:93-141 | Behind waiting bytes a send goes to the buffer whole, and nothing to the socket |
| ConnectionInvariants.EveryCallbackRuns | src/Channel.cpp:80-116 | In every run, before the loop polls again it has run exactly the callbacks the reported events call for, in order |
| ConnectionInvariants.InputInOrder | src/TcpConnection.cpp:188-207 | In every run, the bytes consumed followed by the input buffer are the bytes read, in order |
| HalfClose.FlushedBeforeFin | src/TcpConnection.cpp:146-162 | With loop-thread shutdowns: once the write side is shut every accepted byte precedes the end, which is single and last; the buffer is empty and write interest off |
| HalfClose.NothingAfterFin | src/TcpConnection.cpp:156-162 | With loop-thread shutdowns nothing ever follows the end on the wire |
| HalfClose.FinNeedsShutdown | src/TcpConnection.cpp:146-154 | The write side is shut only after a shutdown was accepted in Connected |
| HalfClose.ShutdownNotForgotten | src/TcpConnection.cpp:219-231 | A live disconnecting connection has its write side shut iff its buffer is empty |
| HalfClose.ShutdownTakesEffect | src/TcpConnection.cpp:146-154 | An accepted shutdown moves the state to Disconnecting at once, and ends the write side at once exactly if nothing is waiting |
| Draining.ShutdownCarriedOut | src/TcpConnection.cpp:146-162 | In every run, once a shutdown from any thread has taken effect, a connection that is live with an empty buffer has its write side shut |
| Lifecycle.StateBackIff | src/TcpConnection.cpp:146-154 | A step moves the state back iff it is another thread's set-state action in Disconnected |
| Lifecycle.StateForward | src/TcpConnection.cpp:146-185 | With loop-thread shutdowns the state only moves forward |
| Lifecycle.LiveByState | include/TcpConnection.h:64-71 | With loop-thread shutdowns, a connection not yet destroyed is live iff it is Connected or Disconnecting |
| Lifecycle.LifeSteps | src/TcpConnection.cpp:165-254 | Coming up, closing and destruction leave input, output, wire and queue as they were, and the channel watched for reading, unwatched, or unknown to the poller |
| Lifecycle.OneUpOneDown | src/TcpConnection.cpp:165-185 | With loop-thread sends and no end of stream read behind a hang-up with urgent data: one up, at most one down notification, and a connection that is down is not watched |
| Lifecycle.NeverRegisteredAgain | src/TcpConnection.cpp:245-254 | Under the same conditions, once Disconnected the descriptor is never in the kernel's set again |
| Lifecycle.DownAgainIff | src/TcpConnection.cpp:245-254 | In every run, a connection that has gone down goes down again iff its close handler runs again |
| Lifecycle.OneDownIff | src/Channel.cpp:84-107 | With loop-thread sends: more than one down notification iff a read callback found the end of the stream behind a hang-up with urgent data and without EPOLLIN, and the kernel has ever watched the dead descriptor iff the same |
| Lifecycle.PutBackIff | src/TcpConnection.cpp:87-141 | In every run a dead connection's descriptor is put back iff a queued send has to wait or the close handler runs again |
| ForeignCalls.AfterFin | src/TcpConnection.cpp:156-162 | In every run, after the end no byte follows, and another end follows iff another thread's queued shutdown runs with no write pending |
| ForeignCalls.FlushedBeforeFinWhileLive | src/TcpConnection.cpp:219-231 | In every run, while live, whichever thread shuts the write side: every accepted byte is on the wire by then |
| ForeignCalls.FinishedMeansEmpty | src/TcpConnection.cpp:156-162 | In every run, a live connection with its write side shut has an empty buffer |
| ForeignCalls.EachCallRuns | src/TcpConnection.cpp:68-72 | In every run each send or shutdown queued by another thread is run by the loop once, in the order of queueing |
| ForeignCalls.EachCallArrives | src/TcpConnection.cpp:62-76 | In every run each send or shutdown that another thread called in Connected reaches the loop's queue once |
| Witnesses.ForeignShutdownTwice | src/TcpConnection.cpp:146-162 | A run that shuts the write side twice |
| Witnesses.ForeignShutdownGoesBack | src/TcpConnection.cpp:146-154 | A run that moves the state back |
| Witnesses.ForeignSendPutsBack | src/TcpConnection.cpp:87-90 | A run that re-registers a closed connection |
| Witnesses.HangUpWithUrgentData | src/Channel.cpp:84-107 | A run with two down notifications and all calls on the loop's thread |
| Witnesses.ForeignSendTwiceDown | src/TcpConnection.cpp:87-90 | A run with two down notifications and no such mask, behind a send from another thread |
| Witnesses.ShutdownCutsFile | src/TcpConnection.cpp:295-298 | A run in which a shutdown behind a sendFile leaves the file cut off and the write side shut |
| Witnesses.SendInsideFile | src/TcpConnection.cpp:93-105 | A run in which a send lands between two bytes of a file |
| FileTransfer.FileSlice | src/TcpConnection.cpp:290-324 | In every run a file request's bytes on the wire are a contiguous slice of the file from its offset on |
| FileTransfer.TaskIsRest | src/TcpConnection.cpp:319-323 | A request has at most one loop task, which starts where the slice ends; offset plus remaining count never changes |
| FileTransfer.AttemptOutcome | src/TcpConnection.cpp:290-324 | An attempt is given up, with nothing more of the file on the wire and no task left, exactly while shutting down or on a broken socket; otherwise the rest is queued again, or the whole slice is on the wire and no task is left |
| FileTransfer.AttemptByAnswer | src/TcpConnection.cpp:290-324 | With nothing waiting: a broken pipe or a reset leaves no task, any other error queues the request again whole, and of n bytes taken the rest is queued |
| FileTransfer.EndsShortIff | src/TcpConnection.cpp:290-324 | In every run a request has ended with part of its file unsent iff one of its attempts was given up with some of it to go |
| FileTransfer.FilesNeverOvertake | src/TcpConnection.cpp:301-303 | When a file byte reaches the wire, nothing is waiting, write interest is off, and every accepted payload is wholly on the wire |
| Overtaking.SplitIff | src/TcpConnection.cpp:301-323 | In every run a byte of a send stands inside a request's file on the wire iff some step sent while the request had begun and had a task for a rest that is not empty, and more of the file followed |
| FileTransfer.RecordGrows | src/TcpConnection.cpp:290-324 | Nothing on the wire is taken back, and a request keeps its offset and count |
| Notifications.StepNotes | src/TcpConnection.cpp:96-137 | One step queues exactly the notification that its visible effect calls for |
| Notifications.WriteCompletesCounted | src/TcpConnection.cpp:219-227 | Over any run, as many write-complete notifications as sends that went out whole, files finished and buffers run empty |
| Notifications.WriteCompleteMeansIdle | src/TcpConnection.cpp:96-105 | Each is queued with the buffer empty and write interest off |
| Notifications.EachNoteRuns | src/TcpConnection.cpp:99-104 | In every run the notifications whose callbacks have run, followed by those in the loop's queue, are those on record, in order |
| Notifications.HighWaterIffCrossing | src/TcpConnection.cpp:128-135 | A high-water notification is queued iff the buffered length crosses the mark upwards, and carries the length right after |
| Notifications.HighWaterRearms | src/TcpConnection.cpp:126-137 | With a fixed mark, between two of them a write to the socket brought the length from the mark or above it to below it |
| Draining.DrainedInTime | src/TcpConnection.cpp:210-232 | Without further sends, k buffered bytes of a live connection are gone after at most k write callbacks that each get anything taken, with one byte fewer waiting for each; nothing is lost on the way, and once the buffer is empty the connection is no longer watched for writing and a waiting shutdown has shut the write side |
| Draining.LastWrite | src/TcpConnection.cpp:219-231 | The write that empties the buffer leaves only read interest and, if a shutdown is waiting, puts the end right behind the last byte |
| Draining.WriteByAnswer | src/TcpConnection.cpp:210-243 | A write callback changes nothing without write interest, on an error or when nothing is taken; otherwise what is taken is on the wire, and with the last byte write interest goes off and a waiting shutdown ends the write side |
| Draining.WriteAlwaysPossible | src/TcpConnection.cpp:138-141 | A live connection with bytes waiting can always be polled writable and then write |
| Draining.CanDrain | src/TcpConnection.cpp:210-232 | From every reachable live state between events, k bytes can be written out in 2k steps, ending with the write side shut if a shutdown is waiting |
| Startup.ReturnsReadyLoop | src/EventLoopThread.cpp:27-67 | In every interleaving startLoop returns the new thread's own loop, with its init callback finished and the thread id recorded |
| Startup.NoLostWakeup | src/EventLoopThread.cpp:36-39 | After publication and notification the starting thread is not asleep |
| Startup.NeverReturns | src/EventLoopThread.cpp:36-39 | Once the loop has been taken back unread, startLoop never returns, in any continuation and with any spurious wakeups |
| Startup.CanReturnIff | src/EventLoopThread.cpp:27-67 | From a reachable state startLoop can still return iff its loop has not been taken back unread |
| Startup.ReturnsSoon | src/Thread.cpp:32-47 | While the loop stays, startLoop returns within sixteen steps of the two threads, and three more for each spurious wakeup |
| Startup.SomeThreadMoves | src/Thread.cpp:32-47 | Until startLoop returns one of the threads can move, unless its loop was missed; only a spurious wakeup is left iff the one sleeps and the other has ended |
| Startup.EarlyExitBlocks | src/EventLoopThread.cpp:62-66 | A run in which an early exit leaves the starting thread waiting, with no continuation in which it returns |
| RoundRobin.KthChoice | src/EventLoopThreadPool.cpp:56-78 | The call after k others chooses loop k mod n |
| RoundRobin.FairWindow | src/EventLoopThreadPool.cpp:56-78 | In every window of k calls each loop is chosen k / n times, rounded down or up |
| LoopPool.EventLoopThreadPool.SetThreadNum | include/EventLoopThreadPool.h:20 | Sets the number of threads and nothing else |
| LoopPool.EventLoopThread.StartLoop | src/EventLoopThread.cpp:27-67 | Returns the new thread's own loop, initialised if there is a callback |
| LoopPool.EventLoopThreadPool.Start | src/EventLoopThreadPool.cpp:25-50 | One new thread and its own new, distinct, initialised loop for each, behind those already there; with no threads, the callback on the base loop |
| LoopPool.EventLoopThreadPool.GetNextLoop | src/EventLoopThreadPool.cpp:56-78 | The loop whose turn it is; every other turn comes one call earlier |
| LoopPool.EventLoopThreadPool.GetAllLoops | src/EventLoopThreadPool.cpp:83-95 | Never empty; every loop that getNextLoop will ever return, and each entry is the choice of a call to come |

## Left out

- Socket and Acceptor: thin wrappers of system calls; of them only shutting the write side is kept, as an event on the wire.
- EventLoop, TcpServer, Timestamp, Logger, InetAddress, Callbacks: not part of this model beyond the assumptions stated above.
- handleError, logging, thread naming, CurrentThread, DefaultPoller: no state of interest; errno is taken to survive a log call.
- Ownership by shared_ptr and weak_ptr, and the lifetime of a payload bound into a queued send: a tied channel has an alive flag, and a payload is a value.
- The callbacks' own effects: a user callback is any sequence of user steps at the points where the library calls it in tail position.
- Event bits above the low byte of the epoll word: the library neither sets nor tests one.
- `size_t` overflow, `int` indices and vector capacity: unbounded numbers, and the vector's size.
- File contents: a file byte on the wire is its request and its position in the file.
- The order of loop tasks of different connections: each connection's part of its loop's queue is a queue of its own.
- Termination of a file request: a result of zero bytes is queued again without limit, so only the slice is proved.
- EventLoopThread's destructor, thread join and detach: they depend on `EventLoop::quit`, which is not part of this model.
- Startup: an interleaving of two threads is a state machine over their steps, not two classes; memory order below the mutex is not modelled.
- Buffers.Buffer.RetrieveAsString: requires len within the readable bytes, where the source would read past them.
- LoopPool.EventLoopThread.StartLoop: runs the two threads' halves one after the other; their interleavings are in `Startup.dfy`.
