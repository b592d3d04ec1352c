# nanoev in Dafny

nanoev is a single-threaded event loop in C with timers, TCP events, cross-thread notifications and name resolution.
This project models its state-changing core and a benchmark that runs on it, and proves what holds in every run.

* **Timers and clock.** `HeapOrder` and `TimerHeap` are the array heap with back indices, updated in place. `TimerTable`
  and `TimerPass` say what calls, firings and whole passes do to the timers seen as a table, and prove what follows from
  it; `Timers` and `LoopClock` are the code on the heap, each method proved to do to the table it stands for (`View`)
  exactly that. User callbacks are arbitrary finite sequences of calls on any timer; the clock may go back.
* **Poller queue and lazy deletion.** `CompletionQueue` is the sliding buffer of fake completions, `EndgameList` the linked
  list of freed events with its in-place sweep.
* **TCP events.** `TcpEvent` has the transition of each call and callback on the event's record. `TcpObject` is the event in
  memory: separate fields, two nodes in the timer heap of `TimerHeap`, completions in the queue of `CompletionQueue`; each
  method is proved to move all three as the transition says, and `TcpPeers` that the loop's other events do not notice.
  `TcpOutcomes` says what each call, completion and timeout means for one event, `TcpInvariant` what they keep. `TcpLoop`
  joins all events of a loop, the queues and the phases of a turn into one machine, `TcpSafety` has one preservation
  proof per step and `TcpTheorems` the results over all runs, for readiness backends (`Reactor`) and completion ports
  (`Iocp`). `TcpReports` is about what callbacks are told and when an event is
  in error, `TcpOrder` about the order of completions, `TcpInterest` about the assertion on write interest; `TcpRuns` and
  `TimerRuns` reach the exceptional states from the initial one.
* **Threads.** `Async` and `Dns`/`DnsSafety` interleave atomic sections of any number of threads; `DnsReports` accounts for
  every resolve, `DnsProgress` shows how each comes to its end; `DnsQueue` is the linked queue.
* **Benchmark.** `Protocol`, `Echo`, `EchoSafety`, `EchoTheorems` join client and server by two byte streams that may be cut
  anywhere; `EchoConn` and `ConnList` are the connection objects and their list; `Stats` is the latency histogram.

## What is assumed

The environment is nondeterministic: every outcome of a system call or an allocation is a parameter of the step. The code
needs the following of it, and the model says so where it is used.

* Clients make no call on a TCP event they have freed (`MayStart`, `Enabled`), and none on a timer whose memory is gone; calls on
  a timer that is only marked, inside its own callback, are carried out. Freeing is allowed at any time, which is more
  than the header promises (only in the error state).
* Clients connect only while a closed event has no flag and no write interest set (`MayOpen`), and listen only while it is
  neither connected nor connecting (`MayListen`). `ConnectIsSoundIff` and `ListenIsSoundIff` show that the code needs
  exactly this.
* With completion ports the timeout of a started operation can be armed (`MayStart`). `CompletionIsTrackedIff` shows that the
  code needs exactly this.
* One kernel wait reports each direction of a socket at most once and open sockets only (`TcpLoop.Enabled`).
* Name resolution is not terminated while a failed start of its workers is being taken back (`Dns.Enabled`).
* Clock claims start with the first completed turn of a run, because a run overwrites the loop's time without moving
  deadlines (`LoopClock.Loop.Run`).
* The array of timers has room when a repeating timer is put back; `AfterCallback` says exactly when it has not.
* Benchmark: the server's message size is at least the client's, and plus header it fits 32 bits (`Fits`).
  `BuffersSufficeIff` shows that the code needs exactly this.

## Where the code does not do what its interface suggests

Each item is proved as an exact condition or from a family of states, with the code modelled as it is.

* A timer deleted inside its own callback after having been armed again stays armed
  (`Timers.TimerDel`, `TimerRuns.DeletedStaysArmed`).
* A timer that its own callback frees and then adds again is given back with its node in the heap (`TimerTable.DanglesIff`,
  `TimerRuns.FreedTimerStaysInHeap`).
* A due timer repeating with period zero keeps one pass over the timers from ending (`TimerPass.PassEndsIff`,
  `TimerRuns.ZeroPeriodNeverEnds`).
* A repeating timer is put back without reserving room (`Timers.AfterCallback`, `TimerTable.OverrunNeedsEntries`,
  `TimerRuns.OverrunIsReached`).
* Waits of 2^31 ms and more are truncated (`LoopClock.WaitIsTightIffItFits`).
* On readiness backends a freed event with a pending operation and no completion under way stays until the loop is freed
  (`TcpTheorems.FreedEventIsReleasedIff`, `TcpRuns.StrandedIsReached`).
* After dropping write interest failed, the next write that has to wait fails its assertion
  (`TcpInterest.WriteAssertionHoldsIff`, `TcpRuns.WriteAssertionFails`).
* Message sizes of 2^32 - 8 and more, which the benchmark accepts, wrap around to buffers smaller than a header
  (`EchoTheorems.BuffersSufficeIff`).
* Percentiles above 2^31 microseconds are understated (`Stats.PercentileIsTightIff`).

## Model

| member | source | states |
|---|---|---|
| `Times.Add` | source/nanoev_misc.c:27-36 | the sum is normalised and is the sum in microseconds |
| `Times.Sub` | source/nanoev_misc.c:38-50 | the difference is normalised and is the difference in microseconds |
| `Times.SubAssertsIffNotLess` | source/nanoev_misc.c:38-50 | both assertions inside the subtraction hold if and only if the result is not negative |
| `Times.Cmp` | source/nanoev_misc.c:52-66 | comparing pairs field by field is comparing microseconds |
| `HeapOrder.RootIsMin` | source/nanoev_timer.c:186-205 | in every heap-ordered array the root is a minimum, by induction along parents |
| `HeapOrder.SiftUpStep` | source/nanoev_timer.c:334-351 | pulling a larger parent into the hole leaves all order violations above the new hole |
| `HeapOrder.SiftDownStep` | source/nanoev_timer.c:353-378 | pulling the smaller child up leaves all order violations below the new hole |
| `HeapOrder.LastMovedOrder` | source/nanoev_timer.c:290-307 | after the last element replaces an arbitrary one, that position alone needs repair, and the comparison with its parent tells in which direction |
| `TimerHeap.Heap.Reserve` | source/nanoev_timer.c:309-332 | capacity grows in fixed steps, contents are kept, and failure (no memory) changes nothing |
| `TimerHeap.Heap.ShiftUp` | source/nanoev_timer.c:334-351 | from any layout ordered except above the hole: an ordered layout of the same nodes, every node carrying its position |
| `TimerHeap.Heap.SmallestChild` | source/nanoev_timer.c:353-378 | picks the child with the earlier deadline, also when there is only one |
| `TimerHeap.Heap.ShiftDown` | source/nanoev_timer.c:353-378 | from any layout ordered except below the hole: an ordered layout of the same nodes; also the call with a hole one past the end |
| `TimerHeap.Heap.Place` | source/nanoev_timer.c:274-288 | exactly one node becomes active; order and back indices are kept |
| `TimerHeap.Heap.Insert` | source/nanoev_timer.c:274-288 | success or out of memory, exactly; the active set grows by that node or not at all |
| `TimerHeap.Heap.Erase` | source/nanoev_timer.c:290-307 | erasing any node, active or not, removes exactly that node from the active set and keeps order and back indices |
| `TimerHeap.Heap.EraseActive` | source/nanoev_timer.c:290-307 | the same for a node in the middle, including the choice of direction |
| `TimerHeap.Heap.RootIsEarliest` | source/nanoev_timer.c:186-205 | no active timer has an earlier deadline than the root |
| `Timers.TimerAdd` | source/nanoev_timer.c:66-95 | each return code exactly when it applies, also for a timer marked as freed inside its own callback; the deadline armed, the growth of the array, and that no other timer changes |
| `Timers.TimerDel` | source/nanoev_timer.c:97-125 | removes exactly that timer, except inside its own callback, where it only stops the repetition: a timer re-armed by its callback stays armed although success is reported |
| `Timers.TimerFree` | source/nanoev_timer.c:44-64 | the timer leaves the heap at once and is released now or, inside its callback, marked for release; never both |
| `TimerTable.CallsMove` | source/nanoev_timer.c:44-125 | what any finite sequence of add, del and free does to each timer: nothing if it is not named; freed if and only if it was or the calls free it (at once, or marked inside its own callback); armed no earlier than the smallest delay used; no released timer becomes armed |
| `TimerTable.CallsKeep` | source/nanoev_timer.c:44-125 | no sequence of calls releases a timer twice, marks one outside its callback or fills the array beyond its capacity |
| `TimerTable.SizeIsConserved` | source/nanoev_timer.c:44-125 | the number of armed timers changes by the calls that put a timer into the heap less those that take one out |
| `TimerTable.MarkedIsArmedIff` | source/nanoev_timer.c:44-95 | a timer freed inside its own callback is in the heap at the end if and only if one of the later calls adds it with a proper delay and finds or gets room |
| `TimerTable.DanglesIff` | source/nanoev_timer.c:241-266 | a released timer is left in the heap if and only if its callback frees it and later adds it with a proper delay while the array has room or gets it |
| `TimerTable.DanglesWithMemoryIff` | source/nanoev_timer.c:241-266 | when no reallocation fails, the calls alone decide: a free of its own timer and later an add with a proper delay |
| `TimerTable.OverrunNeedsEntries` | source/nanoev_timer.c:258-264 | the array is overrun only when the calls of the callback put more timers into the heap than they take out |
| `TimerTable.OverrunNeedsArm` | source/nanoev_timer.c:258-264 | a callback that arms nothing never overruns the array |
| `Timers.Perform` | source/nanoev_timer.c:44-125 | each call on the heap has exactly the effect and the result code that the table of timers says |
| `Timers.RunCalls` | source/nanoev_timer.c:44-125 | the same for any finite sequence of calls of a user callback, with all result codes |
| `Timers.AfterCallback` | source/nanoev_timer.c:251-266 | release or reinsertion after the user callback, and when each goes wrong: the reinsertion stores behind the array if and only if the timer repeats, is not marked, not armed and the array is full; memory goes while its node is in the heap if and only if the timer is marked and armed |
| `Timers.NodeCallback` | source/nanoev_timer.c:241-266 | whatever the callback does (re-add, del, free, on its own timer too) has exactly its effect in the table; a released timer is in the heap afterwards if and only if the calls free the own timer and later add it with room, and an overrun needs more entries than leavings |
| `TimerPass.FiringMoves` | source/nanoev_timer.c:241-266 | a firing does to every other timer only what the calls of its callback do |
| `TimerPass.FiringTurns` | source/nanoev_timer.c:241-266 | the fired timer is released if and only if its callback frees it, is armed only for later, and, left alone, is armed again one period ahead if and only if it repeats |
| `TimerPass.FiringKeeps` | source/nanoev_timer.c:241-266 | afterwards no timer is inside its callback, none is released twice, and a released one is in the heap if and only if the firing dangles |
| `Timers.FireTop` | source/nanoev_timer.c:207-224 | one firing on the heap: the root is an earliest due timer, it is erased before its callback runs, and the heap then stands for the timers after that firing |
| `TimerPass.PassKeeps` | source/nanoev_timer.c:207-224 | the invariants over every pass, whatever the callbacks do |
| `TimerPass.PassReleases` | source/nanoev_timer.c:207-224 | over every pass: exactly the timers released before and those that some callback frees are released, each once |
| `TimerPass.LastFaultIsExplained` | source/nanoev_timer.c:207-224 | a pass ends in a fault only through the calls of its last callback, by the exact condition of the single firing |
| `TimerPass.PassIsInOrder` | source/nanoev_timer.c:207-224 | over every pass: deadlines fire in non-decreasing order, none early, and no armed timer is overtaken |
| `TimerPass.PassLeavesUnnamed` | source/nanoev_timer.c:207-224 | a timer that no callback names and that has not fired is as it was |
| `TimerPass.PassFiresOnce` | source/nanoev_timer.c:207-224 | when callbacks arm strictly later and no due timer repeats with period zero, only timers due at the start fire, each at most once |
| `TimerPass.DueTimerIsYetToFire` | source/nanoev_timer.c:207-224 | the measure of the pass: while a timer is due, fewer have fired than were due at the start |
| `TimerPass.PassKeepsSpinning` | source/nanoev_timer.c:207-224 | a due timer with period zero that no callback names stays due for ever |
| `TimerPass.EndedPassEndsWell` | source/nanoev_timer.c:207-224 | a pass that leaves nothing due has fired every due timer that no callback named, and none of these had period zero |
| `TimerPass.PassEndsIff` | source/nanoev_timer.c:207-224 | callbacks that arm strictly later and name no due timer: a pass with as many rounds as timers are due leaves nothing due if and only if none of these repeats with period zero |
| `Timers.RootFiresNext` | source/nanoev_timer.c:207-217 | a due root is an earliest due timer; a root that is not due means that nothing is due |
| `Timers.Process` | source/nanoev_timer.c:207-224 | the loop on the heap is a pass in the sense above, for every behaviour of the callbacks, so order, releases, faults, what is left and termination hold of the heap |
| `Timers.ProcessEndsIff` | source/nanoev_timer.c:207-224 | the exact condition of termination for the loop on the heap |
| `LoopClock.AdjustIsSafeIff` | source/nanoev_timer.c:226-237 | all subtractions meet their assertions if and only if no armed deadline is below the offset |
| `LoopClock.AdjustBackward` | source/nanoev_timer.c:226-237 | exactly the armed deadlines move, each by the offset; the heap stays ordered, no subtraction fails its assertions |
| `LoopClock.DelaysAreKept` | source/nanoev_loop.c:253-266 | when the clock goes back every armed timer keeps its remaining delay exactly; otherwise no deadline moves |
| `LoopClock.Loop.UpdateTime` | source/nanoev_loop.c:253-266 | the update on the heap is that change of the table and nothing else |
| `LoopClock.TurnSettles` | source/nanoev_loop.c:90-126 | a completed turn leaves every deadline at or after the loop's time, which is what the next turn needs |
| `LoopClock.TurnArms` | source/nanoev_loop.c:90-126 | a timer armed by the callbacks dispatched in a completed turn is armed from the loop's time on |
| `LoopClock.Loop.Turn` | source/nanoev_loop.c:90-126 | one turn on the heap has exactly the effect of clock, pass and calls on the table, and completes if and only if the pass is sound and leaves nothing due |
| `LoopClock.RunSettles` | source/nanoev_loop.c:69-126 | over any number of turns and clock readings every subtraction meets its assertions, assuming only that the clock does not go back between the first two readings by more than some deadline |
| `LoopClock.RunKeeps` | source/nanoev_loop.c:69-126 | also after a turn that does not complete no timer is inside its callback and none is released twice |
| `LoopClock.Loop.Run` | source/nanoev_loop.c:69-126 | the run of the loop on the heap is such a run |
| `LoopClock.NextTimeout` | source/nanoev_timer.c:186-205 | no timers: the marker -1; otherwise the distance to the root's deadline, or zero when due |
| `LoopClock.WaitIsTightIffItFits` | source/nanoev_poller_epoll.c:165-170 | the millisecond wait ends no later than the deadline and less than 1 ms before it if and only if it is below 2^31 ms |
| `LoopClock.LongWaitBecomesEndless` | source/nanoev_poller_epoll.c:165-170 | the input for which an armed timer yields an endless wait |
| `LoopClock.ComputeWait` | source/nanoev_poller_epoll.c:165-170 | endless without timers, zero when one is due, otherwise within 1 ms below the earliest deadline of all armed timers if and only if that is less than 2^31 ms ahead |
| `TimerRuns.DeletedStaysArmed` | source/nanoev_timer.c:97-125 | whenever a callback arms its own timer and then deletes it, both calls succeed and the timer is armed afterwards |
| `TimerRuns.DeletedTimerStaysArmed` | source/nanoev_timer.c:97-125 | this is reached from an empty heap |
| `TimerRuns.FreedStaysInHeap` | source/nanoev_timer.c:251-256 | whenever a callback frees its own timer and adds it again with memory at hand, both calls succeed and the timer is released with its node in the heap |
| `TimerRuns.FreedTimerStaysInHeap` | source/nanoev_timer.c:251-256 | this is reached from an empty heap |
| `TimerRuns.ZeroPeriodNeverEnds` | source/nanoev_timer.c:207-224 | from an empty heap: one timer with period zero keeps a pass going for any number of rounds |
| `TimerRuns.DeletedSpinnerIsHarmless` | source/nanoev_timer.c:97-125 | once deleted outside its callback it does not |
| `LoopClock.OneMoreOverrunsIff` | source/nanoev_timer.c:258-264 | a callback that arms one more timer makes the reinsertion of its own overrun the array if and only if the array was full and the timer repeats |
| `TimerRuns.OverrunIsReached` | source/nanoev_timer.c:258-264 | from an empty heap: 64 repeating timers and one armed by the first callback overrun the array |
| `CompletionQueue.Queue.Compact` | source/nanoev_poller_epoll.c:212-239 | moving the window to the front keeps what is pending |
| `CompletionQueue.Queue.Submit` | source/nanoev_poller_epoll.c:212-239 | appends to the FIFO, across compaction and growth; fails if and only if every slot is live and no memory can be had |
| `CompletionQueue.Queue.Poll` | source/nanoev_poller_epoll.c:138-158 | takes the oldest events, at most the number asked for; all batches so far followed by the window are all events submitted |
| `EndgameList.EndgameList.Add` | source/nanoev_loop.c:184-190 | marks the node and puts it in front |
| `EndgameList.EndgameList.Skip` | source/nanoev_loop.c:234-251 | the write through the pointer-to-pointer bypasses exactly the current node |
| `EndgameList.EndgameList.Visit` | source/nanoev_loop.c:234-251 | one step of the sweep: kept nodes followed by the filtered rest never change |
| `EndgameList.EndgameList.Sweep` | source/nanoev_loop.c:234-251 | the in-place sweep equals filtering the list by outstanding I/O in order; each removed node is released exactly once; the enforcing sweep removes all |
| `EndgameList.FilterMembers` | source/nanoev_loop.c:202-251 | membership in the filtered list |
| `EndgameList.FilterAppend` | source/nanoev_loop.c:202-251 | what stays in the list does so in its order and as often |
| `TcpOutcomes.ConnectCode` | source/nanoev_tcp.c:122-218 | each return code of connect exactly, for every state of the event and every answer of the environment: success if and only if the event is closed, the socket, the attempt, the registration or queueing that this path needs work, and a wanted timeout can be armed; a refused call changes nothing |
| `TcpOutcomes.AcceptCode` | source/nanoev_tcp.c:278-384 | the same for accept, which succeeds when nobody is waiting to be accepted as well as when someone is |
| `TcpOutcomes.ReadCode` | source/nanoev_tcp.c:471-527 | the same for read |
| `TcpOutcomes.WriteCode` | source/nanoev_tcp.c:386-469 | the same for write |
| `TcpOutcomes.CallIs` | source/nanoev_tcp.c:122-527 | the four together, and what success leaves behind: the operation noted, the timeout armed if and only if one is wanted, write interest if and only if it waits to become writable, a completion under way if and only if it was over at once or overlapped |
| `TcpOutcomes.ListenIs` | source/nanoev_tcp.c:220-276 | each return code of listen exactly; the event is in error if and only if it was or the call failed, and open if and only if a socket was made |
| `TcpOutcomes.ErrorExitDisarms` | source/nanoev_tcp.c:212-217 | the error exit sets the error and leaves no timeout of a call that may have armed one |
| `TcpOutcomes.CompleteIs` | source/nanoev_tcp.c:687-933 | a completion puts the event in error if and only if it was or the status is nonzero, connects it if and only if a successful attempt is reported, runs the callback if and only if it is still to run on an event not freed, and leaves the other direction alone |
| `TcpOutcomes.StaleIs` | source/nanoev_tcp.c:729-933 | a completion is stale if and only if the flag it would be routed to is cleared; it runs no callback, still sets the error, and gives up a socket accepted too late |
| `TcpOutcomes.TimeoutIs` | source/nanoev_tcp.c:935-1066 | a timeout closes the event, sets the error, and leaves all else as it was |
| `TcpOutcomes.ReadyIs` | source/nanoev_tcp.c:1100-1187 | a context is filled if and only if the operation is pending and the kernel has an answer, with exactly that answer; a connect always has one |
| `TcpOutcomes.NoRoomIs` | source/nanoev_tcp.c:849-874 | an accepted connection without an event is reported as missing memory and leaves the listener as it is |
| `TcpInvariant.ConnectKeepsOk` | source/nanoev_tcp.c:122-218 | connect, every outcome of every system call, both backends: flags, timeouts and union stay in order; success starts exactly this operation, failure starts nothing, queues nothing and sets the error; the event is open if and only if a socket was made |
| `TcpInvariant.AcceptKeepsOk` | source/nanoev_tcp.c:278-384 | the same for accept |
| `TcpInvariant.WriteKeepsOk` | source/nanoev_tcp.c:386-469 | the same for write |
| `TcpInvariant.ReadKeepsOk` | source/nanoev_tcp.c:471-527 | the same for read |
| `TcpInvariant.StartKeepsOk` | source/nanoev_tcp.c:122-527 | the four together: no call both queues a completion and fails; a queued completion has its flag set and, on a reactor, no timeout; each code is returned exactly when it should be, and exactly the failing calls set the error |
| `TcpInvariant.CompleteKeepsOk` | source/nanoev_tcp.c:687-933 | a completion whose flag is set is routed by flags alone to the operation that was started, with its own callback, status and buffer; the event is in error afterwards if and only if it was or the status is nonzero |
| `TcpInvariant.TimeoutKeepsOk` | source/nanoev_tcp.c:935-1066 | a timeout ends the pending operation with its callback; the flag is cleared on a reactor and kept with completion ports until the late completion |
| `TcpInvariant.FreeKeepsOk` | source/nanoev_tcp.c:97-120 | an event is kept for later if and only if an operation is pending, closed and without timeouts |
| `TcpInvariant.ReadyKeepsOk` | source/nanoev_tcp.c:1100-1187 | performing a ready operation happens only for a set flag and an answer of the kernel, stores exactly that answer, and touches only the context and union of that operation |
| `TcpInvariant.CompletionIsTrackedIff` | source/nanoev_tcp.c:176-210 | a call that leaves a completion under way is tracked by a flag, except if and only if the timeout of an already started overlapped operation cannot be armed |
| `TcpInvariant.ConnectIsSoundIff` | source/nanoev_tcp.c:146 | connect meets its assertion, keeps the event in order and starts only itself, for all arguments and outcomes, if and only if the event is open (and the call refused) or has no flag and no write interest |
| `TcpInvariant.ListenIsSoundIff` | source/nanoev_tcp.c:235 | listen keeps the event in order and touches no operation, for all outcomes, if and only if the event is open (and the call refused) or neither connected nor connecting |
| `TcpInvariant.ListenKeepsOk` | source/nanoev_tcp.c:220-276 | every outcome of listen keeps the event in order |
| `TcpInvariant.ReconnectRunsOldWriteCallback` | source/nanoev_tcp.c:146 | from every closed event with a write pending: connect is accepted and its completion runs the old write's callback |
| `TcpSafety.StartKeeps` | source/nanoev_tcp.c:122-527 | connect, accept, read or write by user code keeps the invariant of all events, queues, callbacks and history |
| `TcpSafety.ListenKeeps` | source/nanoev_tcp.c:220-276 | listen keeps it |
| `TcpSafety.DeliverKeeps` | source/nanoev_tcp.c:687-933 | dispatching one completion keeps it, including the creation of an event for an accepted connection |
| `TcpSafety.TimeoutKeeps` | source/nanoev_tcp.c:935-1066 | a firing timeout keeps it |
| `TcpSafety.FreeKeeps` | source/nanoev_tcp.c:97-120 | freeing keeps it, at once or lazily |
| `TcpSafety.SweepKeeps` | source/nanoev_loop.c:234-251 | the lazy-delete sweep keeps it: no completion names a swept event |
| `TcpSafety.DrainKeeps` | source/nanoev_poller_epoll.c:144-158 | draining fake completions into a batch of at most 256 keeps it |
| `TcpSafety.ReportKeeps` | source/nanoev_poller_epoll.c:19-40 | a reported readiness adds a completion only when none is under way |
| `TcpSafety.DequeueKeeps` | source/nanoev_poller_iocp.c:106-118 | a dequeued overlapped completion keeps it |
| `TcpTheorems.StepKeeps` | source/nanoev_loop.c:90-126 | every step of users, timers, kernel and loop keeps the invariant |
| `TcpTheorems.RunKeeps` | source/nanoev_loop.c:90-126 | so does every run |
| `TcpTheorems.CompletionsAreTracked` | source/nanoev_loop.c:90-126 | in every run each event and direction has at most one completion under way, its event is not released and its flag is set; none ever reaches a released event; with completion ports flag and completion are equivalent |
| `TcpTheorems.CallbacksRunOnce` | source/nanoev_tcp.c:687-1066 | in every run a callback runs at most once, by completion or timeout, for an accepted call on that event, as the kind started, with the buffer passed, and never after the free |
| `TcpTheorems.EventsAreInOrder` | source/nanoev_tcp.c:28-37 | in every run no event is connected and listening, an armed timeout belongs to the pending operation, and the union holds the view that will be read |
| `TcpReports.RunKeepsHistory` | source/nanoev_tcp.c:687-1187 | every run keeps the history of outcomes, of statuses told and of failed events in agreement with contexts, callbacks and error flags |
| `TcpReports.CallbacksAreToldOutcomes` | source/nanoev_tcp.c:687-1187 | in every run each callback is told the latest outcome that the kernel gave for its event and direction, 0 for what was over at once, the timeout if that ended it, or that an accepted connection got no event |
| `TcpReports.ErrorIffFailed` | source/nanoev_tcp.c:724-727 | in every run an event is in error if and only if a call on it failed, one of its operations completed with a nonzero status, or one timed out |
| `TcpReports.FailedEventRefuses` | source/nanoev_tcp.c:492-498 | in every run, once a callback was told of a failure, every accept, read and write on that event is denied |
| `TcpReports.NoRoomKeepsListener` | source/nanoev_tcp.c:849-874 | an accepted connection that gets no event leaves the listener ready for the next accept |
| `TcpOrder.QueuedAreTakenInOrder` | source/nanoev_poller_epoll.c:138-159 | in every run the completions of operations over at once are dispatched in the order of the calls, none lost and none twice |
| `TcpOrder.StepKeepsOrder` | source/nanoev_loop.c:103-112 | a batch takes at most 256 of them, and all there are if they are fewer |
| `TcpOrder.ArrivedAreHandledInOrder` | source/nanoev_loop.c:103-117 | in every run whatever arrives for dispatch is handled in the order of arrival, none lost and none twice |
| `TcpOrder.WaitsReportAnew` | source/nanoev_loop.c:103-112 | every kernel wait can report every open event anew |
| `TcpOrder.EachConnectionGetsOneEvent` | source/nanoev_tcp.c:857-874 | in every run there are exactly as many events as clients created and accept callbacks were handed |
| `TcpOrder.NewEventsAreUsable` | source/nanoev_tcp.c:1068-1096 | the event of an accepted connection can be read and written at once, a new one connected |
| `TcpOrder.LoopCanReturn` | source/nanoev_loop.c:90-132 | wherever the loop thread is, it can finish the turn with everything handled and leave the loop |
| `TcpTheorems.StrandedForever` | source/nanoev_loop.c:202-251 | on a reactor, a freed event whose pending operation has no completion under way is not released by any continuation |
| `TcpTheorems.Reclaim` | source/nanoev_loop.c:90-126 | the loop alone releases a freed event that waits only for completions under way (with the run that does it) |
| `TcpTheorems.FreedEventIsReleasedIff` | source/nanoev_loop.c:202-251 | a freed event is released by some continuation if and only if each pending operation has a completion under way; with completion ports always |
| `TcpTheorems.LoopFreeSweeps` | source/nanoev_loop.c:234-251 | the enforcing sweep, node by node, releases every listed event once and leaves the others |
| `TcpTheorems.LoopFreeReleasesAllFreed` | source/nanoev_loop.c:53-66 | after every run, freeing the loop releases every freed event exactly once; memory is released under a pending overlapped operation if and only if a freed event has one |
| `TcpTheorems.FailedTimerLeavesOrphan` | source/nanoev_tcp.c:176-210 | how a failed timeout leads to a kernel operation on a released event, from any loop with an unused event |
| `TcpTheorems.OrphanIsReached` | source/nanoev_tcp.c:176-210 | the loop in which that happened to the first event |
| `TcpTheorems.OrphanFaults` | source/nanoev_poller_iocp.c:106-118 | the next turn of that loop dequeues a completion that names released memory |
| `TcpInterest.RunKeepsInterests` | source/nanoev_tcp.c:716-721 | over every run: registered write interest without a pending write is what the latest failed attempt to drop it left |
| `TcpInterest.WriteAssertionHoldsIff` | source/nanoev_tcp.c:446 | in every run the assertion of an admitted write holds if and only if the latest attempt to drop this event's interest, if any, succeeded; that of connect holds whenever connect is allowed |
| `TcpRuns.WriteAssertionFails` | source/nanoev_tcp.c:446 | a run after which an admitted write fails its assertion |
| `TcpRuns.StrandedIsReached` | source/nanoev_tcp.c:97-120 | a run after which a freed event is never released while the loop lives |
| `TcpRuns.MisroutableIsReached` | source/nanoev_tcp.c:146 | a run to an event on which connect would run an old write's callback |
| `TcpObject.NodeAdd` | source/nanoev_timer.c:147-160 | exactly this node enters the heap, with this deadline; refused when active or without room |
| `TcpObject.TcpTimeout.Set` | source/nanoev_tcp.c:1246-1270 | the timeout's operation is noted if and only if its node entered the heap |
| `TcpObject.TcpTimeout.Unset` | source/nanoev_tcp.c:1272-1279 | the node leaves the heap, whatever its position, and no other does |
| `TcpObject.Event.constructor` | source/nanoev_tcp.c:74-95 | two new timeouts whose new nodes join the heap's nodes without entering the heap; the memory stands for the initial record |
| `TcpObject.Event.TimeoutAdd` | source/nanoev_tcp.c:1246-1270 | the record's armed bit follows the heap: it is set if and only if there is room and the node was out; the node expires at now plus the timeout and no other timer moves |
| `TcpObject.Event.Connect` | source/nanoev_tcp.c:122-218 | fields, heap and poller queue together move as the record's transition: on a reactor the queue grows by exactly this event's completion if and only if the transition says so, an armed timeout expires as asked, other timers keep their place and deadline |
| `TcpObject.Event.Listen` | source/nanoev_tcp.c:220-276 | the fields move as the record's transition, registered interest being replaced; heap and queue are untouched |
| `TcpObject.Event.Accept` | source/nanoev_tcp.c:278-384 | as connect, with the accepted socket taken back when its completion cannot be queued |
| `TcpObject.Event.Write` | source/nanoev_tcp.c:386-469 | as connect |
| `TcpObject.Event.Read` | source/nanoev_tcp.c:471-527 | as connect; the queue is untouched |
| `TcpObject.Event.Complete` | source/nanoev_tcp.c:687-933 | the completion's node leaves the heap, other timers stay, and the callback that runs is the transition's, told of missing memory when an accepted connection gets no event |
| `TcpObject.Event.Timeout` | source/nanoev_tcp.c:935-1066 | the node is out of the heap when its callback runs; fields and callback are the transition's |
| `TcpObject.Event.Free` | source/nanoev_tcp.c:97-120 | both nodes leave the heap, other timers stay; the memory is kept if and only if the transition keeps it |
| `TcpObject.Event.Ready` | source/nanoev_tcp.c:1100-1187 | only contexts and union change, as the transition says |
| `TcpPeers.ActsAlone` | source/nanoev_tcp.c:122-1187 | whatever call or callback runs on one event of a loop, every other event of it keeps its record, although heap and queue are shared |
| `TcpPeers.Join` | source/nanoev_tcp.c:74-95 | a new event of the loop is apart from any set of events already there and leaves them as they are; exactly its two nodes join the heap |
| `Async.StepKeeps` | source/nanoev_async.c:140-235 | every step of senders and loop, with the unlocked read possible between a sender's write and its flag, keeps: outside the critical section bytes in the pipe plus the drained notification equal the flag; writes equal callbacks started, suppressed and in flight |
| `Async.RunKeeps` | source/nanoev_async.c:140-235 | so does every interleaving |
| `Async.EverySendIsAnswered` | source/nanoev_async.c:140-191 | under every interleaving: the token equation outside the critical section, at most one byte is ever in the pipe, the read on readiness never fails, and with nothing in flight every successful send is followed by a callback that started after it |
| `Async.InFlightIsDeliverable` | source/nanoev_async.c:195-235 | a notification in flight leads to exactly one more callback in at most three steps of the loop thread alone |
| `Async.SendIsRefusedIff` | source/nanoev_async.c:140-191 | a send is refused if and only if no notification is outstanding and its byte cannot be written; it joins if and only if one is outstanding; otherwise its byte is in the pipe and the flag set before the lock is released |
| `Async.SendIsFollowedByCallback` | source/nanoev_async.c:140-235 | from every reachable state of an event not deleted a send that can write succeeds, and the loop thread alone gets to a callback that starts after it, in at most five steps in all |
| `Async.NoCallbackAfterDeletion` | source/nanoev_async.c:207-215 | under every interleaving no callback starts after the deletion, and no notification is suppressed before it |
| `DnsSafety.FreeKeeps` | source/nanoev_dns.c:127-145 | freeing marks a pending event and destroys any other, never one in somebody's hands |
| `DnsSafety.OnAsyncKeeps` | source/nanoev_dns.c:223-269 | delivery clears the request, runs the callback or destroys a freed event, and conserves the count |
| `DnsSafety.EnqueueAcceptedKeeps` | source/nanoev_dns.c:371-394 | queueing with a signal keeps every queued request matched by an awake worker while others sleep |
| `DnsSafety.EnqueueRefusedKeeps` | source/nanoev_dns.c:190-198 | a refused resolve leaves no trace |
| `DnsSafety.LookKeeps` | source/nanoev_dns.c:285-301 | a worker under the lock takes the oldest request, sleeps or leaves; the invariants hold in each case |
| `DnsSafety.CompleteKeeps` | source/nanoev_dns.c:335-340 | storing the result keeps the event in that worker's hands until it notifies |
| `DnsSafety.NotifyKeeps` | source/nanoev_dns.c:342 | after notifying, only the notification names the event |
| `DnsSafety.ModeStepKeeps` | source/nanoev_dns.c:70-88 | starting, failing to start, stopping and joining workers keep the invariants |
| `DnsSafety.RunKeeps` | source/nanoev_dns.c:271-394 | every interleaving of loop threads and any number of workers keeps them |
| `DnsSafety.RequestsAreConserved` | source/nanoev_dns.c:127-269 | accepted resolves = callbacks run + dropped + in flight; nothing is used after destruction, nor destroyed while queued, held by a worker or with a notification outstanding |
| `DnsSafety.NoWakeupIsLost` | source/nanoev_dns.c:285-301 | while some worker sleeps unsignalled the queue is no longer than the number of workers awake and still to look |
| `DnsSafety.TermDrainsTheQueue` | source/nanoev_dns.c:70-88 | requests are taken in queueing order and termination returns only after all were taken |
| `DnsReports.RunKeepsReports` | source/nanoev_dns.c:127-269 | every interleaving keeps the accounts below |
| `DnsReports.EachResolveIsAccounted` | source/nanoev_dns.c:147-269 | event by event: each accepted resolve has run its callback once, was dropped once, or is in flight; no callback runs for an event that is freed |
| `DnsReports.DroppedAreFreedPending` | source/nanoev_dns.c:127-145 | a resolve is dropped if and only if it was pending when its event was freed and its notification has been dispatched since; an idle event is gone when freed, a pending one stays marked exactly until then |
| `DnsReports.LiveEventsAreCalled` | source/nanoev_dns.c:258-268 | an event that is not freed has had its callback run exactly once for each notification dispatched, and nothing dropped |
| `DnsReports.ResolveIsQueuedIff` | source/nanoev_dns.c:167-200 | a resolve is taken up if and only if the event is idle, and queued if and only if the pool is running; otherwise the event is idle again |
| `DnsProgress.EveryResolveCanEnd` | source/nanoev_dns.c:223-344 | from every reachable state, for every accepted resolve whose notification was not lost: steps of workers and one dispatch run its callback, or drop it if the event was freed |
| `DnsProgress.ResolveLeadsToCallback` | source/nanoev_dns.c:147-394 | from every reachable state of a running pool a resolve of an idle event is accepted and its callback can be brought about |
| `DnsProgress.TermCanReturn` | source/nanoev_dns.c:70-88 | from every reachable state termination can return, with every accepted request taken |
| `DnsProgress.FailedStartIsTakenBack` | source/nanoev_dns.c:346-369 | a failed start of the workers can be taken back: the pool runs again, without workers |
| `DnsQueue.RequestQueue.Enqueue` | source/nanoev_dns.c:383-389 | the linked queue with its tail pointer grows by this request at the end |
| `DnsQueue.RequestQueue.Dequeue` | source/nanoev_dns.c:295-300 | takes the oldest request, or none from an empty queue; the others keep their links |
| `Protocol.DecodeEncode` | bench/protocol.h:8-22 | reading a written 32-bit number gives it back, whatever follows |
| `Protocol.EncodeDecode` | bench/protocol.h:8-22 | writing a read number gives the same four bytes back |
| `Protocol.BigEndian` | bench/protocol.h:8-14 | the value of each written byte: the most significant comes first |
| `Protocol.HeaderRoundTrip` | bench/protocol.h:24-38 | size and sequence of a written header are read back, whatever follows, and lie in its first and second four bytes |
| `Protocol.WriteU32` | bench/protocol.h:8-14 | the in-place write changes exactly four bytes |
| `Protocol.WriteHeader` | bench/protocol.h:24-28 | the in-place write changes exactly the header |
| `Echo.ServerReadKeeps` | bench/tcp_server.c:334-364 | for any bytes from any peer: the buffer holds exactly what was received and not yet sent |
| `Echo.ServerWriteKeeps` | bench/tcp_server.c:366-392 | the same when part of the answer leaves |
| `Echo.ClientChecksAnswer` | bench/tcp_client.c:274-384 | whatever the peer sends: the client fails if and only if a whole header announces another size or a whole answer carries another number, and sends the next request if and only if a whole answer carries the right one |
| `Echo.ServerChecksSize` | bench/tcp_server.c:313-364 | the server closes the connection if and only if a whole header announces more than its configured size |
| `EchoSafety.ServerTakes` | bench/tcp_server.c:334-364 | bytes that continue a frame pass the size check and are stored in place |
| `EchoSafety.ClientTakes` | bench/tcp_client.c:333-381 | bytes that continue the echoed frame pass the size and sequence checks; a complete echo starts the next frame |
| `EchoSafety.ClientReadKeeps` | bench/tcp_client.c:333-381 | the client's state follows the stream of frames through every partial read |
| `EchoSafety.ServerReadKeeps` | bench/tcp_server.c:334-364 | the server's state follows it too |
| `EchoTheorems.StepKeeps` | bench/tcp_server.c:305-392 | every partial read or write on either side keeps the joint invariant |
| `EchoTheorems.RunKeeps` | bench/tcp_client.c:253-381 | so does every run, and every step moves at least a byte |
| `EchoTheorems.EchoIsExact` | bench/tcp_server.c:305-392 | under every fragmentation: server output is a prefix of its input and equals it at frame ends, all positions stay inside the buffers, no check fails (for sizes that fit 32 bits with the header), and the client has received exactly the frames of its finished exchanges and a prefix of the current one |
| `EchoTheorems.BuffersSufficeIff` | bench/tcp_server.c:233 | in no run does either side reach outside its buffer, if and only if the server's message size plus header fits 32 bits |
| `EchoTheorems.ClientBufferSufficesIff` | bench/tcp_client.c:146 | the client's frame lies inside its buffer if and only if its size plus header fits 32 bits |
| `EchoTheorems.LargestSizeOverruns` | bench/tcp_client.c:146 | the accepted size for which it does not |
| `EchoTheorems.NeverStuck` | bench/tcp_client.c:253-381 | for every accepted message size some step is possible after every run |
| `EchoTheorems.StuckIffEmpty` | bench/tcp_client.c:274-285 | with size 0, which the program rejects, the exchange would be stuck if and only if the first header came back |
| `EchoTheorems.ExchangesComplete` | bench/tcp_client.c:304-381 | a run longer than four times the bytes of m frames has finished m exchanges |
| `EchoTheorems.ServerOnlyEchoes` | bench/tcp_server.c:305-392 | against any peer: what is sent is a prefix of what was received, and only a header announcing too much closes the connection |
| `EchoConn.ServerConn.OnRead` | bench/tcp_server.c:334-364 | the in-place callback equals its transition; errors and end of stream close |
| `EchoConn.ServerConn.OnWrite` | bench/tcp_server.c:366-392 | likewise for writes |
| `EchoConn.ServerConn.StartReadPayload` | bench/tcp_server.c:313-325 | likewise the start of a payload |
| `EchoConn.ClientConn.FillPayload` | bench/tcp_client.c:258-259 | the loop derives every payload byte from sequence number and position and leaves the header |
| `EchoConn.ClientConn.Send` | bench/tcp_client.c:253-265 | the buffer becomes the frame of this sequence number |
| `EchoConn.ClientConn.OnRead` | bench/tcp_client.c:333-381 | the in-place callback equals its transition |
| `EchoConn.ClientConn.OnWrite` | bench/tcp_client.c:304-331 | likewise for writes |
| `ConnList.ConnList.Add` | bench/tcp_server.c:216-244 | the connection comes first in the doubly linked list |
| `ConnList.ConnList.Unlink` | bench/tcp_server.c:280-292 | removes exactly this connection, from any position, with both directions of links intact |
| `ConnList.ConnList.CloseAll` | bench/tcp_server.c:198-202 | empties the list and releases each connection exactly once |
| `Stats.LatencyBucket` | bench/stats.c:8-18 | the loop finds the first bucket whose power of two is not below the sample |
| `Stats.BucketBound` | bench/stats.c:8-18 | a sample is in the first i+1 buckets if and only if it is at most 2^i, for all but the last bucket |
| `Stats.UpToIsAtMost` | bench/stats.c:20-43 | adding up buckets counts the samples at most 2^i, and all samples at the end |
| `Stats.Histogram.constructor` | bench/stats.c:99-103 | no samples |
| `Stats.Histogram.Record` | bench/stats.c:128-139 | count, sum, minimum, maximum and every bucket are those of the samples with the new one |
| `Stats.TargetIsRank` | bench/stats.c:29-31 | where 64 bits do not wrap, the target is the percentage rounded up and an existing rank, so the fallback to the maximum is never reached |
| `Stats.Histogram.Percentile` | bench/stats.c:20-43 | 0 without samples, the maximum if the rank does not exist, otherwise the first power of two at which enough samples are counted; up to 100 percent without 64-bit wrap a power of two r such that the percentage rounded up of the samples is at most r (if and only if at most 2^31) and fewer are at most r/2 |
| `Stats.PercentileCovers` | bench/stats.c:20-43 | enough samples are at most the reported value if and only if enough are at most 2^31; fewer than that are at most half of it |
| `Stats.ReportedIsPercentile` | bench/stats.c:20-43 | joins rank and coverage for every percentage up to 100 |
| `Stats.PercentileIsTightIff` | bench/stats.c:20-43 | the reported value is the true percentile rounded up to a power of two if and only if the true one is at most 2^31 |
| `Stats.LongLatencyIsUnderstated` | bench/stats.c:20-43 | the input for which it is not |

## Left out

- UDP events: the shape of TCP without timeouts; their readiness callback does not check the reading flag.
- The kqueue poller: its queue is the one modelled in `CompletionQueue`; its system calls are foreign.
- The completion-port poller and the operating-system wrappers: present only as the environment (one completion per started operation).
- Ownership of an accepted socket when no event can be allocated for it, and closing of sockets in general.
- Liveness of pending writes: nothing says that a ready socket is reported.
- Async events freed while a notification is outstanding: the flags tested by the sweep do not include it, so the sweep is modelled for TCP events.
- `nanoev_loop_break` and the poller's wake-up: a run may end after any turn, so results hold with and without it.
- Timeouts of TCP events in the timer heap: `TcpLoop` lets an armed timeout fire at any point of the timer phase, in any order; `Timers` proves the order for timer events.
- Address helpers, socket options, error texts, accessors: single-branch code over the C library.
- Argument parsing, printing, floating-point rates and the measuring of time in the benchmark; its deadline, after which the client closes instead of sending.
- TimerHeap.Heap.Reserve: sizes are unbounded; the wrap-around of a 32-bit capacity is not modelled.
- Timers.Rounds: `script` fixes what each callback does; a script of every length covers every finite part of a pass, and `done` tells whether the pass ended.
- Timers.RunCalls: a call on a timer whose memory is gone is skipped, and so is freeing a marked timer again, which the code asserts against.
- Timers.Process: a pass stops at the first fault (array overrun, or a released timer in the heap), where the code's memory is no longer defined.
- DnsSafety.RunKeeps: the two locked sections at the start of a resolve are one step, as the copy of the host name between them is not modelled; invalid arguments and a failed copy return before anything changes.
- DnsSafety.ModeStepKeeps: termination during a failed start is not a step; both would count down the same unlocked counter.
- DnsSafety.RequestsAreConserved: a notification that cannot be written leaves its request in flight for good (place `Lost`).
- Stats.Histogram.Record: the number of samples is unbounded; the sum wraps at 64 bits as in the code.
- EchoConn.ClientConn.OnRead: counting of requests and latencies is not part of it.
- ConnList.ConnList.Unlink: the position of the connection in the list is a ghost argument.
