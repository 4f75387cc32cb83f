# Verification of the muma event loop

muma is a reactor for Windows in the style of muduo. Each event loop owns a timer queue, a
vector of functors that other threads may append to, a poller over wait handles, and TCP
connections with an input and an output buffer. This project models those four parts in Dafny
and proves what they promise over every run. Clocks, wait results, socket results, allocator
addresses, other threads and user callbacks are arbitrary inputs of the model.

`dafny verify dfyconfig.toml` checks the whole project.

## How the model is built

Each mutable object of the program is a class whose methods update its fields in place
(`TimerQueues.TimerQueue`, `Buffers.Buffer`, `TcpConnections.TcpConnection`,
`Pollers.Channel`, `Pollers.Poller`, `Pollers.EventLoop`), with the program's loops and its
asserts. Every method is proved equal to a step of a specification machine
(`TimerSpec`, `BufferSpec`, `TcpSpec`, `PollScan`), and the promises are proved about all runs
of those machines. The hand-over of functors between threads is a machine of its own
(`FunctorProtocol`), whose steps are the atomic actions of the threads.

* **Timers** (`OrderedSet`, `TimerSpec`, `TimerInvariant`, `TimerHistory`, `TimerGuarantees`,
  `TimerProgress`, `TimerCancel`, `TimerSchedule`, `TimerIds`, `TimerPass`, `TimerQueue`). Timer objects lie at
  addresses of a heap; deleting one removes its address, which may then be allocated again. A
  step that would touch a deleted timer, or whose assert would fail, is a fault. `addTimer` is
  three steps, as in the program: `new Timer`, `queueInLoop`, and the read of the sequence it
  returns. Allocating a timer and posting a functor (an add, a `cancel` on the loop thread, any
  other functor) can happen between any two steps of the loop thread; that is how callbacks,
  functors and other threads are modelled. The wakeup event is part of this state, since poll
  reports no timer while it is set. The functor vector and the loop's batch are part of
  this state, because the safety of the queue rests on callbacks being unable to change the
  indexes in the middle of a pass.
* **Functors** (`FunctorProtocol`). Any number of threads inside `queueInLoop`, each between
  locking, pushing, unlocking and setting the event; one loop thread between waiting, resetting
  the event, dispatching, swapping and running its batch.
* **Poller and registries** (`ChannelBits`, `Registry`, `PollScan`, `Poller`). The poller's two
  parallel vectors and the loop's vector of channels, with the indexes stored in the channels; one
  turn of the loop, from the waits to the callbacks that are called.
* **Buffer and streams** (`BufferSpec`, `Buffer`, `TcpSpec`, `TcpStreams`, `TcpLife`, `TcpConnection`). A
  connection's write interest is the interest word of its channel, registered with the poller of
  its loop. What user code does in a callback are events after the handler's.

## Where the code does not do what is asked of it

* `addTimer` reads the new timer's sequence after it has queued the timer
  (src/net/TimerQueue.cpp:65-68). When another thread calls it, which its comment calls the usual
  case (include/net/TimerQueue.h:26-28), the loop thread may by then have called and deleted the
  timer, and the address may hold another one: `OtherThreadMayReadTooLate` is the smallest such
  case, `LateReads` gives both outcomes from every state. `ReadIsRightIffRepeating` is the exact
  condition: `runEvery` with a positive interval is safe from any thread, `runAt` and `runAfter`
  are not. `LoopThreadReadsItsOwn` covers callers on the loop thread, where every timer is safe.
* `cancel` only queues the cancel (src/net/EventLoop.cpp:109-119). From a functor or a handler it
  nevertheless always takes effect before the timer can be called again
  (`CancelOutsidePassIsInTime`), because queueing sets the wakeup event, and poll reports no timer
  while that is set. From a timer's callback it comes too late for a timer that the same pass has
  taken and not called yet: `CancelIsInTimeIff` is the exact condition, `CallbackCancelMisses` the
  smallest case. It also has no effect on a timer that `addTimer` has allocated and not queued yet,
  because the cancel then runs before the add; the id of such a timer is what a late read can
  return.
* `readFd` stores the tail's length in 32 bits (src/net/Buffer.cpp:18) and takes the number of
  received bytes as a signed 32-bit integer (src/net/Buffer.cpp:22). `ReceiveKeepsAllIffFits` says
  for every delivery when its bytes reach the buffer, `EveryDeliveryFitsIff` for which buffers all
  of them do. For a connection, `InputIsDeliveredIff` gives the bound user code can keep: input is
  delivered whatever the socket does exactly if the input buffer never has to hold 2^31 bytes or
  more; `FloodLoses` is the run that loses bytes beyond.
* `hasWritten` takes its length as 32 bits (include/net/Buffer.h:126-130), so `append` keeps all
  its data exactly when the length is below 2^32 (`AppendKeepsAllIffFits`), and the output stream
  is conserved over a run exactly when no send has 2^32 bytes or more to buffer
  (`OutputStreamIsConserved`). Buffering a non-zero multiple of 2^32 bytes on top of nothing is the
  one way to break the assert of `handleWrite` (`WriteInterestMatchesBacklog`).
* `handleEvent` calls the close callback before the read callback (src/net/Channel.cpp:48-56). When
  the poller finds the end of a connection together with data that has not been read, the close
  handler runs first and the read handler returns at once: `CloseHidesTheRest`.
* `connectEstablished` asserts that the connection is new; that holds exactly when neither it nor
  a close or a destroy ran before (`EstablishOnlyFirst`).

## Model

| member | source | states |
|---|---|---|
| OrderedSet.LowerBoundSplits | src/net/TimerQueue.cpp:136-142 | lower_bound on a sorted timer list separates exactly the smaller entries from the rest |
| OrderedSet.InsertAdds | src/net/TimerQueue.cpp:196-198 | set insertion keeps the order and adds that one entry |
| OrderedSet.EraseRemoves | src/net/TimerQueue.cpp:100-101 | set erasure keeps the order and removes that one entry |
| TimerInvariant.InsertOk | src/net/TimerQueue.cpp:183-209 | insert's four asserts hold for a live timer in neither index |
| TimerInvariant.AddedArmed | src/net/TimerQueue.cpp:80-89 | re-arming only when the new timer comes first keeps the OS timer early enough |
| TimerInvariant.CancelOk | src/net/TimerQueue.cpp:91-106 | cancelInLoop's asserts hold; it removes the named timer if indexed and otherwise nothing |
| TimerInvariant.CancelledArmed | src/net/TimerQueue.cpp:97-104 | never re-arming on cancel keeps the OS timer early enough |
| TimerInvariant.ExpirySplit | src/net/TimerQueue.cpp:136-142 | getExpired takes exactly the entries with expiration at most now and keeps exactly the later ones, both in order |
| TimerInvariant.DeactivateOk | src/net/TimerQueue.cpp:144-150 | the erase loop finds every expired timer in the second index, and removes just those |
| TimerInvariant.GetExpiredOk | src/net/TimerQueue.cpp:131-154 | no assert of getExpired fails and it reads live timers only |
| TimerInvariant.RestartPreserves | src/net/TimerQueue.cpp:164-168 | a repeating timer goes back into both indexes under its new expiration, all invariants kept |
| TimerInvariant.ReleasePreserves | src/net/TimerQueue.cpp:169-173 | a one-shot timer is freed once and nothing refers to it afterwards |
| TimerInvariant.FinishesResetPreserves | src/net/TimerQueue.cpp:176-180 | arming for the first entry left restores the arming invariant |
| TimerInvariant.StepPreserves | src/net/TimerQueue.cpp:60-209 | every step from a good state succeeds and leads to a good state |
| TimerInvariant.NoRunFaults | src/net/TimerQueue.cpp:60-209 | over every run no freed timer is read, called or freed again, and no assert fails |
| TimerHistory.RunHistory | src/net/TimerQueue.cpp:113-181 | every run keeps the firing log timely and tied to the expirations of the live timers |
| TimerGuarantees.ExactlyOneOwner | src/net/TimerQueue.cpp:60-181 | each timer ever allocated is in exactly one of: still in addTimer, queued add, _timers, current batch, freed; and is freed once |
| TimerGuarantees.IndexesAlwaysAgree | src/net/TimerQueue.cpp:183-209 | _activeTimers is exactly the (timer, sequence) image of _timers, keys are current expirations, no timer twice |
| TimerGuarantees.FiringsAreTimely | src/net/TimerQueue.cpp:113-129 | no firing is early; one-shot timers fire at most once; repeats are an interval apart, for any clock |
| TimerGuarantees.NoMissedTimer | src/net/TimerQueue.cpp:80-181 | outside a pass the OS timer has fired or is set no later than every pending expiration |
| TimerGuarantees.PassTakesExactlyTheExpired | src/net/TimerQueue.cpp:113-118 | a pass takes exactly the expired timers, earliest first |
| TimerGuarantees.PassFiresEveryExpired | src/net/TimerQueue.cpp:120-125 | when the callbacks are done, the log since the pass began is exactly the expired batch in order |
| TimerGuarantees.PassLeavesNothingExpired | src/net/TimerQueue.cpp:176-180 | after a pass every pending timer is strictly later than now and the OS timer is set for the earliest |
| TimerProgress.OthersKeep | src/net/TimerQueue.cpp:91-181 | only a timer's own cancel and its own turn in reset change or free it; every other step leaves it as it was |
| TimerProgress.FunctorSetsIndexed | src/net/EventLoop.cpp:173-175 | running a functor puts a timer into _timers or leaves it as it was exactly as the timer's own add and cancel demand |
| TimerCancel.CancelFrees | src/net/TimerQueue.cpp:72-104 | over every run: once a cancel posted after its timer's add has left the queue, the timer is freed, whether or not it has fired since |
| TimerCancel.CancelTouchesNothingElse | src/net/TimerQueue.cpp:96-104 | a cancel never affects a timer with another sequence, even at the same address; a stale, default or foreign id changes nothing |
| TimerCancel.FreedNeverFires | src/net/TimerQueue.cpp:102-103 | over every run a freed timer never fires again |
| TimerCancel.SilencedNeverFires | src/net/TimerQueue.cpp:72-76 | over every run, a timer whose queued cancel no callback of it can precede never fires again |
| TimerCancel.CancelIsInTimeIff | src/net/EventLoop.cpp:109-119 | for a cancel posted from wherever user code runs on the loop thread, some run fires the timer once more if and only if the current pass has taken it and not called it yet, or addTimer is still holding it |
| TimerCancel.CancelOutsidePassIsInTime | src/net/Poller.cpp:27-77 | a functor's or a handler's cancel of a timer that addTimer has queued is always in time: queueInLoop sets the wakeup event, and poll reports no timer before it has reset the event and the queue has been run |
| TimerCancel.CancelOfCalledIsInTime | src/net/TimerQueue.cpp:120-128 | a callback's cancel of its own timer, or of one called earlier in the pass, is always in time |
| TimerCancel.CallbackCancelMisses | src/net/TimerQueue.cpp:120-125 | on a new loop with two timers for the same time, the first callback cancels the second timer, which is still called |
| TimerSchedule.TimersFireAsAsked | src/net/Timer.cpp:10-32 | in every run that allocates a timer for a time and an interval: every firing has that interval and none is early, the first is due at that time, each later one an interval after the pass of the one before; until it first fires the live Timer holds that time, and after a reset the time it is due next |
| TimerSchedule.OsTimerIsSetForTheEarliest | src/net/TimerQueue.cpp:80-89 | the OS timer is set by an add whose timer comes first and at the end of a pass, each time for the earliest pending expiration; no other step sets it |
| TimerIds.ReadIsRightIffRepeating | src/net/TimerQueue.cpp:64-68 | from every reachable state: addTimer's final read gives the new timer's sequence in every run that does not cancel it, if and only if the timer repeats |
| TimerIds.LateReads | src/net/TimerQueue.cpp:164-174 | from every reachable state, for a one-shot timer: a run in which the read finds the timer deleted, and one in which it finds another timer |
| TimerIds.OneShotCanGo | src/net/EventLoop.cpp:75-87 | from every state the loop thread by itself finishes its pass and batch, polls, fires the one-shot timer and deletes it |
| TimerIds.LoopThreadReadsItsOwn | src/net/TimerQueue.cpp:64-68 | called on the loop thread addTimer always returns the right id |
| TimerIds.OtherThreadMayReadTooLate | src/net/EventLoop.cpp:121-124 | on a new loop, runAt(0) from another thread can read a deleted timer |
| TimerPass.WholePass | src/net/TimerQueue.cpp:113-181 | whatever is posted meanwhile, a pass keeps the later timers, renews the expired repeating ones one interval after now, frees the expired one-shot ones, and changes nothing else |
| TimerQueues.TimerQueue.NewTimer | src/net/Timer.cpp:10-19 | a Timer with the given expiration and interval, repeating exactly if the interval is positive, at an unused address with a sequence larger than any before; no other Timer, index or functor changes |
| TimerQueues.TimerQueue.AddTimer | src/net/TimerQueue.cpp:60-69 | allocates, queues the add and reads the sequence back, with arbitrary posts of other threads in between; the id returned is the new timer's, whose Timer holds the time and interval asked for |
| TimerQueues.TimerQueue.RunAt | src/net/EventLoop.cpp:121-124 | the timer is for this time, once |
| TimerQueues.TimerQueue.RunAfter | src/net/EventLoop.cpp:126-130 | the timer is for delay after now, once |
| TimerQueues.TimerQueue.RunEvery | src/net/EventLoop.cpp:132-136 | the timer is for an interval after now, and then for every interval |
| TimerQueues.TimerQueue.Cancel | src/net/TimerQueue.cpp:72-76 | queues the cancel |
| TimerQueues.TimerQueue.Insert | src/net/TimerQueue.cpp:183-209 | with its asserts, updates both indexes as the specification does and reports whether the earliest changed |
| TimerQueues.TimerQueue.AddTimerInLoop | src/net/TimerQueue.cpp:80-89 | refines the specified step |
| TimerQueues.TimerQueue.CancelInLoop | src/net/TimerQueue.cpp:91-106 | with its asserts, refines the specified step; what the completion callback does are posts after it |
| TimerQueues.TimerQueue.GetExpired | src/net/TimerQueue.cpp:131-154 | with its loop and asserts, refines the specified step and returns the expired part |
| TimerQueues.TimerQueue.Reset | src/net/TimerQueue.cpp:156-181 | its loop is the run of reset steps, ending in the re-arming |
| TimerQueues.TimerQueue.HandleRead | src/net/TimerQueue.cpp:113-129 | with arbitrary posts during each callback, is exactly the run of the pass's steps |
| TimerQueues.TimerQueue.DoPendingFunctors | src/net/EventLoop.cpp:164-176 | with arbitrary posts during each functor, is exactly the run of swap and functor steps |
| TimerQueues.TimerQueue.QueueInLoop | src/net/EventLoop.cpp:100-107 | appends to the functor vector, sets the wakeup event and changes nothing else |
| FunctorProtocol.NoLostWakeup | src/net/EventLoop.cpp:66-107 | for any number of threads and any interleaving: about to block with functors queued, the event is set or a thread is still going to set it |
| FunctorProtocol.BlockedMeansDone | src/net/EventLoop.cpp:100-107 | a loop that stays blocked with no call in progress has run every functor ever queued |
| FunctorProtocol.FunctorsConserved | src/net/EventLoop.cpp:164-176 | pushed = run ++ rest of the batch ++ pending, in order, at every moment |
| FunctorProtocol.RunsInTheNextBatch | src/net/EventLoop.cpp:164-176 | a functor runs in exactly the batch after the last swap before its push |
| FunctorProtocol.TouchedUnderLock | src/net/EventLoop.cpp:168-170 | the vector is only changed by the thread that holds the mutex |
| FunctorProtocol.WakeupDrains | src/net/EventLoop.cpp:75-87 | from a set event the loop thread's own steps lead back to poll with everything queued run |
| FunctorProtocol.EverythingSettles | src/net/EventLoop.cpp:66-107 | from every reachable state, without a new call, the threads can go on to the state in which no call is in progress, the loop waits, the event is clear and everything queued has run: no deadlock on the mutex |
| ChannelBits.InterestsAreIndependent | src/net/Channel.cpp:260-306 | enabling or disabling one interest leaves the other three as they were |
| Registry.MaskIsFaithful | src/net/Poller.cpp:265-282 | the network mask asks for exactly the enabled interests and has no other bit; without interests it is 0 |
| Registry.ResultIsFaithful | src/net/Poller.cpp:223-262 | a socket's handler is due exactly for what was reported without an error, its error handler for what was reported with one; of a timer's handlers only the read handler is due |
| Registry.SwapRemoveRemoves | src/net/Poller.cpp:202-221 | swap-with-last then drop removes that one element and moves one |
| PollScan.ScanIncreases | src/net/Poller.cpp:39-70 | whatever the waits return, slots are reported once and in increasing order |
| PollScan.PollIsExact | src/net/Poller.cpp:24-79 | for a fixed set of signalled handles poll reports exactly the signalled slots, or none if the wakeup event is among them |
| PollScan.PollCountsEach | src/net/Poller.cpp:24-79 | whatever the waits return: nothing if the first reports the wakeup event, otherwise the slot that each wait reports, in order, until one reports no slot of its suffix |
| Pollers.Poller.GetSockNetEventMask | src/net/Poller.cpp:265-282 | accumulates the mask of the interest word |
| Pollers.Channel.HandleEvent | src/net/Channel.cpp:44-72 | calls exactly the callbacks that are set and whose bit is in the result word, each once, closing first and errors last |
| Pollers.Poller.Poll | src/net/Poller.cpp:24-79 | returns the channels of the scanned slots, each with the handlers due that its socket or timer calls for, changes no other channel, resets the event when slot 0 is first |
| Pollers.Poller.AddChannelEvent | src/net/Poller.cpp:188-200 | appends one slot and stores its index in the channel, registry invariant kept |
| Pollers.Poller.RemoveChannelEvent | src/net/Poller.cpp:202-221 | removes exactly that slot from both vectors, repairs the moved channel's index, invalidates the removed one's |
| Pollers.Poller.UpdateChannel | src/net/Poller.cpp:82-132 | registers the channel or refreshes its slot's mask, so that every slot's mask agrees with its channel again |
| Pollers.Poller.RemoveChannel | src/net/Poller.cpp:135-159 | the registered set loses exactly this channel |
| Pollers.EventLoop.constructor | src/net/TimerQueue.cpp:29-41 | the timer queue's channel is registered at once, with its handle in the first slot after the wakeup event's, for reading, with handleRead as its read callback |
| Pollers.EventLoop.PollActive | src/net/EventLoop.cpp:77-84 | each reported slot gives its registered channel, once, in slot order, with its handlers due; for a fixed set of signalled handles without the wakeup event exactly the registered channels whose handle is signalled; the timer queue's channel before every other, with only its read handler due; none if the wakeup event was found set |
| Pollers.EventLoop.Turn | src/net/EventLoop.cpp:77-84 | every active channel's due callbacks are called, channel by channel; if the OS timer is reported, handleRead is called once and before every other handler |
| Pollers.EventLoop.NewChannel | src/net/EventLoop.cpp:178-182 | the new channel has this kind and handle, no interest and no callback, is the last of the loop's vector and is not registered |
| Pollers.EventLoop.EnableFunc | src/net/Channel.cpp:260-282 | the interest is set and has reached the poller |
| Pollers.EventLoop.DisableFunc | src/net/Channel.cpp:284-306 | the interest is cleared and has reached the poller; an unregistered channel becomes registered |
| Pollers.EventLoop.DeleteChannel | src/net/EventLoop.cpp:184-206 | the channel leaves both registries; every registered channel is still a live member of the loop |
| BufferSpec.RunRefinesQueue | include/net/Buffer.h:73-177 | over every sequence of operations the cursors stay ordered and the storage at least 8, and the readable bytes are those of a byte queue in every state if and only if every operation survives the casts to 32 bits |
| BufferSpec.AppendKeepsAllIffFits | include/net/Buffer.h:126-130 | append keeps all its data exactly when the length is below 2^32 |
| BufferSpec.ReceiveKeepsAllIffFits | src/net/Buffer.cpp:15-37 | readFd keeps every delivered byte, whatever the tail held, exactly when fewer than 2^31 came and the tail is below 2^32 bytes or not filled beyond its 32-bit length |
| BufferSpec.EveryDeliveryFitsIff | src/net/Buffer.cpp:15-22 | a buffer can take every possible delivery whole exactly while its tail and the overflow area are below 2^31 bytes |
| BufferSpec.BelowLimitAllFits | include/net/Buffer.h:157-177 | a buffer that never has to hold 2^31 bytes never loses any to a cast, over every run |
| BufferSpec.StorageIsBounded | include/net/Buffer.h:157-177 | with at most M bytes readable or reserved, storage never exceeds the start, 8 + M and 2M + 6 |
| BufferSpec.BoundIsReached | include/net/Buffer.h:157-163 | three operations reach 2M + 6 from a smaller start |
| Buffers.Buffer.MakeSpace | include/net/Buffer.h:157-177 | grows or moves the bytes left over themselves, content unchanged; its assert follows from the branch |
| Buffers.Buffer.Append | include/net/Buffer.h:99-104 | refines the specified append |
| Buffers.Buffer.Prepend | include/net/Buffer.h:133-139 | the data comes before the content, storage not replaced |
| Buffers.Buffer.Retrieve | include/net/Buffer.h:73-84 | drops from the front, cursors back to the start when empty |
| Buffers.Buffer.RetrieveUntil | include/net/Buffer.h:86-91 | drops everything before the position |
| Buffers.Buffer.EnsureWritableBytes | include/net/Buffer.h:111-118 | room for len bytes afterwards, content unchanged |
| Buffers.Buffer.ReadFd | src/net/Buffer.cpp:11-48 | fills the tail up to its 32-bit length and then the overflow area, reads the count as signed, and refines the specified receive |
| TcpStreams.OutputStreamIsConserved | src/net/TcpConnection.cpp:79-232 | over every run: bytes on the wire ++ buffered bytes = data of the successful sends in order, if and only if no send had 2^32 bytes or more to buffer; then the wire is a prefix |
| TcpStreams.InputStreamIsConserved | src/net/TcpConnection.cpp:179-199 | over every run in which each read fits the buffer: bytes retrieved ++ buffered bytes = bytes received |
| TcpStreams.InputIsDeliveredIff | src/net/TcpConnection.cpp:179-199 | every run in which the input buffer has to hold at most limit bytes delivers its input, if and only if limit < 2^31 |
| TcpStreams.FloodLoses | src/net/Buffer.cpp:22-47 | from an empty buffer of a suitable size: reads, each retrieved at once, that grow the tail until one delivery of 2^31 bytes is lost |
| TcpStreams.WriteInterestMatchesBacklog | src/net/TcpConnection.cpp:95-132 | over every run: in each state, while connected, write interest is on exactly when the output buffer is non-empty, if and only if no send buffers a non-zero multiple of 2^32 bytes on an empty buffer |
| TcpStreams.LeftForGood | src/net/TcpConnection.cpp:235-247 | after leaving kConnected nothing more is written, accepted, received or announced, and neither interests nor output buffer change |
| TcpStreams.EstablishOnlyFirst | src/net/TcpConnection.cpp:151-157 | connectEstablished's assert holds exactly when no establish, close or destroy came before |
| TcpStreams.WriteCompleteMeansFlushed | src/net/TcpConnection.cpp:208-221 | over every run whose sends fit, each write-complete notice is queued in a state in which everything accepted is on the wire |
| TcpStreams.HighWaterMeansCrossing | src/net/TcpConnection.cpp:119-126 | high-water is announced exactly when what is to be buffered crosses the mark upwards, with that size, which is what the buffer holds exactly if the send fits |
| TcpLife.ConnectedListens | src/net/TcpConnection.cpp:156-158 | over every run: while connected, a connection is interested in reading and closing, and never in accepting |
| TcpLife.StepEnds | src/net/TcpConnection.cpp:179-247 | a connected connection is left exactly by a read that fails or delivers nothing or 2^31 bytes or more, a write that was asked for and does not succeed, close and destroy; all but destroy leave it disconnecting, without interests |
| TcpLife.ConnectedIff | src/net/TcpConnection.cpp:179-247 | over every run: a connected connection is still connected at the end if and only if none of these events has occurred |
| TcpLife.AcceptedIsWhatWasReported | src/net/TcpConnection.cpp:79-138 | over every run: one report for each send, in order, and what counts as accepted is the concatenated data of exactly the sends reported successful |
| TcpLife.ReportedIff | src/net/TcpConnection.cpp:95-117 | a send is reported successful exactly if the connection is connected and there is a backlog, or the socket does not fail, or it would only block |
| TcpLife.ReceivedIsWhatWasDelivered | src/net/TcpConnection.cpp:179-188 | over every run: what counts as received is what the socket delivered while connected, and user code has got as many bytes as it took |
| TcpLife.WireIsWhatTheSocketTook | src/net/TcpConnection.cpp:95-117 | over every run in which write interest matches the backlog: the wire holds as many bytes as the socket took, from sends with nothing buffered and from the buffer |
| TcpLife.NoticesAreExact | src/net/TcpConnection.cpp:97-126 | over every run in which write interest matches the backlog: write-complete is queued by exactly the steps that empty the buffer or hand a send whole to the socket, high-water by exactly those that cross the mark |
| TcpConnections.CloseHidesTheRest | src/net/Channel.cpp:44-72 | in one handleEvent of a connected connection, what has arrived is received exactly if the end of the connection is not reported with it; otherwise the connection is left with nothing read or written |
| TcpConnections.TcpConnection.SlotAsksForWritesIffBacklog | src/net/Poller.cpp:114-127 | while connected, the connection's slot in the poller asks for FD_WRITE exactly when the output buffer is non-empty |
| TcpConnections.TcpConnection.SlotAsksForReadsAndCloses | src/net/TcpConnection.cpp:156-158 | while connected, the slot asks for FD_READ and FD_CLOSE, and not for FD_ACCEPT |
| TcpConnections.TcpConnection.SlotAsksForNothing | src/net/TcpConnection.cpp:235-247 | once closed, the slot of a connection that is still registered asks for nothing |
| TcpConnections.TcpConnection.SendInLoopFunc | src/net/TcpConnection.cpp:79-138 | refines the specified send; write interest reaches the poller |
| TcpConnections.TcpConnection.SendInLoop | src/net/TcpConnection.cpp:57-72 | on the loop thread, while connected, the specified send; otherwise nothing |
| TcpConnections.TcpConnection.HandleWrite | src/net/TcpConnection.cpp:202-232 | with its assert, refines the specified step; the end of the backlog reaches the poller |
| TcpConnections.TcpConnection.HandleRead | src/net/TcpConnection.cpp:179-199 | refines the specified step; a connected connection calls the message callback exactly when the count readv returned is positive, and otherwise is disconnecting without interests |
| TcpConnections.TcpConnection.TakeInput | include/net/Buffer.h:73-84 | user code retrieves from the front of the input buffer, in the callback or at any later time |
| TcpConnections.TcpConnection.HandleClose | src/net/TcpConnection.cpp:235-247 | refines the specified step; afterwards the state is disconnecting, and a connected channel has lost its interests, in the poller too |
| TcpConnections.TcpConnection.ConnectEstablished | src/net/TcpConnection.cpp:151-162 | refines the specified step; the channel, which was not registered, is registered with the poller |
| TcpConnections.TcpConnection.ConnectDestroyed | src/net/TcpConnection.cpp:164-177 | refines the specified step; whatever happened before, the channel is not registered with the poller afterwards, and every other is as it was |

## Left out

- TimerQueues.TimerQueue.Cancel: only for callers on the loop thread. On another thread `runInLoop` runs the functor at once (src/net/EventLoop.cpp:111-114), against the loop-thread assert of `cancelInLoop` (src/net/TimerQueue.cpp:93).
- TimerQueues.TimerQueue.AddTimer: as a method, for callers on the loop thread; for other threads its three acts are separate steps of `TimerSpec`, and `TimerIds` says what the read gives.
- TimerQueues.TimerQueue.QueueInLoop: as a method, on the loop thread; between threads the push, the mutex and the event are the steps of `FunctorProtocol`.
- TimerPass.WholePass: times are unbounded integers; overflow of a 64-bit millisecond count is undefined in the program's language.
- BufferSpec.BoundIsReached: for limits from 2 to 2^32.
- Pollers.EventLoop.DeleteChannel: not for the timer queue's own channel, which only the timer queue's destructor deletes.
- Pollers.EventLoop.NewChannel: on the loop thread only; on another thread the program queues the registration.
- Pollers.Poller.UpdateChannel: at most 64 slots, as the program's assert demands; a 65th registration is not modelled.
- TcpConnections.TcpConnection.ConnectDestroyed: shutting the socket down for writing is a socket call without an effect on this state.
- TcpConnections.TcpConnection.SendInLoop: not for sends from other threads, which queue a raw pointer to the caller's data.
- The delay computed by resetTimerfd: the OS timer is armed for an expiration, and when it signals is arbitrary.
- quit, EventLoopThread and tear-down (~EventLoop, ~TimerQueue, RemoveAllChannel, clearChannels).
- Deleting a channel while the channels of the same poll are still being dispatched.
- findCRLF and swap, which would only add easy members.
- Pollers.EventLoop.Turn: which callbacks are called and in which order; what they do are steps of the other machines.
- TcpClient, TcpServer, TcpAcceptor, TcpConnector, TcpSocket, InetAddress, ThreadPool and calendar conversion.
- Liveness that the operating system decides: that a signalled handle is eventually reported, and fairness between the wakeup event and the channels.
