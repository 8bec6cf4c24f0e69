# Verification model of the kernel-interface layer

A Dafny model of the concurrent bookkeeping in the open GPU kernel modules' Linux interface layer
(`kernel-open/nvidia-drm` and `kernel-open/nvidia-modeset`), with proofs about all of its runs.
`dafny verify dfyconfig.toml` checks the whole project.

Concurrent protocols are state machines. A `Label` is one atomic action of one thread: a region under
one lock, one semaphore or atomic operation, one call into code outside the model. `Enabled` says when
it can happen, `Apply` what it does, and a `Run` is any finite interleaving from the initial state. A
theorem about runs holds in the last state of every run, hence in every reachable state. Code that
updates fields, lists and counts is also written in place, as classes whose methods are proved against
the functions that the machines use.

| module | component |
|---|---|
| `KthreadQ` | the kthread work queue: FIFO list, counting semaphore, flush markers, stop |
| `WorkThread` | the DRM work thread on top of that queue, and its shutdown |
| `SemsurfContext` | the locked regions of a semaphore-surface fence context |
| `SemsurfProtocol` | the waiter protocol around them: ioctl threads, callbacks, queued work, timeouts, destroy |
| `SemsurfFences` | where each fence is, over whole runs of that protocol |
| `SemsurfStranded` | when such a context stops looking after a fence, and what can still help it |
| `SemsurfService` | the exact conditions for serving and for timing out the first pending fence |
| `PrimeFence` | prime fence contexts with 32-bit thresholds |
| `Timers` | NVKMS timers and ref_ptrs, from allocation to module exit |
| `TimerQueue` | those timers on the work queue itself: `Timers` and `KthreadQ` side by side |
| `FlipQueue` | flip events of a CRTC: blocking and nonblocking commits, deferred completion, closing drain |
| `Permissions` | modeset permissions: which file holds which connector and CRTC |
| `DisplaySemaphores` | round-robin display semaphores and the fences behind them |
| `PlaneRefs` | reference counts of property blobs and LUT surfaces held by plane states |
| `Lut` | LUT interpolation, header packing and the layout of the output LUT surface |
| `Base` | shared counting and summing lemmas |

## What is proved

The results a reader should start from:

- **No lost wake-up** (`SemsurfProtocol.NoLostWakeup`, `QuiescentIsArmed`). While a context is live and
  no allocation or registration has failed, a pending fence always has someone coming back for it; when
  all threads are at rest, that someone is a stored callback, registered with the resource manager (RM)
  for exactly the head's value. Sampling the semaphore, taking the lock, signalling each fence and each
  call into RM are separate steps.
- **Each fence exactly once** (`SemsurfFences.FenceInOnePlace`, `SignalledWasReached`). A fence is on
  the pending list, in one thread's hands or retired, never two of these; destroying the context retires
  the rest; a fence is signalled without error exactly if the look that took it had sampled its value
  (`RetiredAsDeserved`).
- **Nothing accepted is lost at shutdown, and nothing is refused without reason**
  (`WorkThread.ShutdownDrains`, `AcceptedInOrder`, `RefusedOnlyRightly`), resting on
  `KthreadQ.NeverEmptyQueue`, `FifoRefinement`, `DoubleFlush` and `StopDrains`.
- **Timer life cycle and module exit** (`Timers.ReleasedOnce`, `NoUseAfterRelease`, `ProcStarts`,
  `RefCounting`, `DrainTerminates`, `ExitReleasesAll`), and the same on the real queue, whose stop is
  shown to return only when no timer is linked or running (`TimerQueue.QueueAsExpected`,
  `ExitLeavesNothing`).
- **Event order** (`FlipQueue.DeliveryInOrder`, `ListsStayShort`). Events leave in commit order exactly if
  no flip with an event was queued in front of a queued event; deferral keeps the order, and no more
  than one completion is ever deferred behind a flip.
- **Conservation elsewhere**: flip events (`FlipQueue.EventInOnePlace`), the pairing of granted
  connectors and CRTCs (`Permissions.PairingHolds`, `LeaseKeepsPairing`), display semaphores
  (`DisplaySemaphores.EveryUseEndsOnce`), plane-state references (`PlaneRefs.CountsMatchSlots`), prime
  fences (`PrimeFence.SignalledInOrder`).

These properties, which one might expect, do not hold of the code in general. Each has a concrete
witness next to the exact condition under which the code does meet it:

- Rebuilding a 64-bit value from a 32-bit semaphore is exact if and only if the submitted value is less
  than 2^32 ahead of the semaphore modulo 2^64 (`SemsurfContext.RebuildExact`). If the semaphore passes
  the submitted value between the two reads, the result overshoots (`RebuildOvershoots`).
- A failed allocation or registration can strand a fence (`SemsurfStranded.FailureCanStrand`), even
  while a callback is still registered (`SemsurfService.ArmedCanStrand`). The exact condition
  (`SemsurfService.ServedIffWatched`): take any reachable state with all threads at rest, whatever failed
  before. Left to itself and without further failures, the context never comes to rest with its first
  pending fence on the list and nothing armed, if and only if something is armed now and, in case the
  fence is neither due already nor different in value from the waited-for one, the timer cannot go off
  before the fence's deadline or a callback is registered for the fence's value or a larger one. If
  nothing failed the condition holds (`UnfailedIsServed`). With nothing armed nobody comes back
  (`SemsurfStranded.AsleepIffUnarmed`), and a head whose value is the waited-for one then stays forsaken
  until a fence with a lower value is added, a look finds the head reached or expired, or the context is
  destroyed (`StaysForsaken`, `NextLook`). The comment at
  `kernel-open/nvidia-drm/nvidia-drm-fence.c:1069-1074` relies on the fence timeout for progress after a
  failure, but the code sets the context's timer only after a registration has succeeded. The model
  follows the code.
- With nothing failed, a timeout can be lost (`SemsurfService.TimeoutCanBeLost`): a thread that
  registers late moves the timer before the head's deadline, and the look that the timer then starts does
  not set it again (`EarlyTimerIsLost`). In a reachable state at rest, with nothing failed and the head
  unreached, the timeout is kept over all later runs in which the context is left to itself if and only
  if the timer is set and cannot go off before the head's deadline (`TimesOutIff`).
- A flush does not reach the third generation: when it returns, an item queued by an item that was
  itself queued by one from before the call can still be linked (`KthreadQ.ThirdGenerationEscapes`). It
  covers everything queued before its second marker (`FlushCovers`) and at its earliest return nothing
  else (`FlushCoversNoMore`), hence two generations (`DoubleFlush`); one round would cover only one (`SingleFlushFallsShort`).
- Events can be sent out of commit order (`FlipQueue.OverlapReorders`): a blocking commit whose first
  wait timed out queues its flip in front. Order is kept if and only if no flip with an event is queued in
  front of a queued event (`DeliveryInOrder`).
- Revoking a lease can separate a connector from its CRTC (`Permissions.OpenLeaseExample`). It keeps the
  pairing if and only if every granted CRTC among the revoked objects has its connector among them
  (`LeaseKeepsPairing`).
- Once the pairing is broken, closing a file can take another file's CRTC
  (`Permissions.CloseTakesExample`). A close takes nothing from others if and only if the file's
  connectors name no CRTC of another file (`CloseTakesNothing`).

## Model

| member | source | states |
|---|---|---|
| `KthreadQ.NeverEmptyQueue` | kernel-open/nvidia-drm/nv-kthread-q.c:81-109 | in every run, semaphore count, raises still owed and the worker's token account for the linked items plus the stop wake-up, so the worker never reaches its empty-queue warning |
| `KthreadQ.FifoRefinement` | kernel-open/nvidia-drm/nv-kthread-q.c:102-115 | the history of successful schedules is the started items followed by the list, and no item is linked twice, even if items reschedule themselves |
| `KthreadQ.RawScheduleFifo` | kernel-open/nvidia-drm/nv-kthread-q.c:257-275 | scheduling, of an item already linked or not, keeps that order and the absence of duplicates |
| `KthreadQ.ScheduleRecords` | kernel-open/nvidia-drm/nv-kthread-q.c:257-275 | a schedule of an unlinked item appends it to list and history, with the item that made it, and owes one raise; of a linked one it changes nothing |
| `KthreadQ.NeverStuck` | kernel-open/nvidia-drm/nv-kthread-q.c:75-148 | in every reachable state scheduling is possible, the worker or a raise can move while an item is linked or running, and a flush and stop can go on exactly when what they wait for has happened |
| `KthreadQ.MarkerFresh` | kernel-open/nvidia-drm/nv-kthread-q.c:306-319 | the on-stack marker of a flush is not linked when the flush links it |
| `KthreadQ.DoubleFlush` | kernel-open/nvidia-drm/nv-kthread-q.c:321-334 | when a flush returns, every item queued before the call has finished, and so has every item those queued while running |
| `KthreadQ.DoubleFlushOfCall` | kernel-open/nvidia-drm/nv-kthread-q.c:321-334 | the same from the call on: what was queued before the step that called the flush, and what that queued, has finished when the flush has returned |
| `KthreadQ.FlushCovers` | kernel-open/nvidia-drm/nv-kthread-q.c:306-334 | when a flush returns, every item queued before its second marker has finished |
| `KthreadQ.FlushCoversNoMore` | kernel-open/nvidia-drm/nv-kthread-q.c:306-334 | at the earliest moment a flush can return, what has finished is exactly what was queued before its second marker |
| `KthreadQ.SingleFlushFallsShort` | kernel-open/nvidia-drm/nv-kthread-q.c:329-333 | a run in which one marker has run and an item queued by an item from before the call has not |
| `KthreadQ.ThirdGenerationEscapes` | kernel-open/nvidia-drm/nv-kthread-q.c:321-334 | a run in which the double flush has returned and an item of the third generation is still linked |
| `KthreadQ.StopDrains` | kernel-open/nvidia-drm/nv-kthread-q.c:124-148 | if nothing is scheduled after stop's second marker, stop returns with the list empty and every item ever scheduled finished |
| `KthreadQ.StopCompletes` | kernel-open/nvidia-drm/nv-kthread-q.c:124-148 | a run of stop, with both its flush rounds, to the join |
| `KthreadQ.Queue.ScheduleItem` | kernel-open/nvidia-drm/nv-kthread-q.c:257-297 | in place: accepts exactly if the queue is alive and the item not linked, appends it and raises the semaphore, as the machine's steps do |
| `KthreadQ.Queue.Pass` | kernel-open/nvidia-drm/nv-kthread-q.c:81-115 | one pass of the worker takes exactly the first item, or exits when told to |
| `KthreadQ.Queue.MainLoop` | kernel-open/nvidia-drm/nv-kthread-q.c:75-122 | left alone, the worker loop runs all linked items in order and stops at the semaphore with an empty list, or exits without taking any |
| `WorkThread.RefinesQueue` | kernel-open/nvidia-drm/nvidia-drm-os-interface.c:187-217 | every step of the work thread is a step of the queue or leaves the queue alone |
| `WorkThread.AcceptedInOrder` | kernel-open/nvidia-drm/nvidia-drm-os-interface.c:205-217 | what add_work accepted is, in order, what was queued; started items come first, then the list; no attempt reaches a stopped queue |
| `WorkThread.RefusedOnlyRightly` | kernel-open/nvidia-drm/nvidia-drm-os-interface.c:205-217 | over every run each call is accepted, refused or under way, and a refused one found the flag set or its own item linked |
| `WorkThread.NoneAfterShutdown` | kernel-open/nvidia-drm/nvidia-drm-os-interface.c:187-217 | nothing is accepted after the step that sets the flag |
| `WorkThread.CallsGoOn` | kernel-open/nvidia-drm/nvidia-drm-os-interface.c:187-217 | a free lock can be taken by a call or by shutdown, and its holder can always go on |
| `WorkThread.CallsRefused` | kernel-open/nvidia-drm/nvidia-drm-os-interface.c:205-217 | a run with one acceptance and both kinds of refusal |
| `WorkThread.FlushedIsEmpty` | kernel-open/nvidia-drm/nv-kthread-q.c:131-137 | the list is empty once stop has flushed, so its warning about items left over is unreachable |
| `WorkThread.ShutdownDrains` | kernel-open/nvidia-drm/nvidia-drm-os-interface.c:187-196 | once shutdown has returned, every accepted item has finished once per acceptance, nothing is linked, and no call is under way |
| `SemsurfContext.RebuildExact` | kernel-open/nvidia-drm/nvidia-drm-fence.c:719-745 | the rebuilt 64-bit value is the true one if and only if the submitted value is less than 2^32 ahead modulo 2^64 |
| `SemsurfContext.RebuildOvershoots` | kernel-open/nvidia-drm/nvidia-drm-fence.c:719-745 | a concrete overshoot outside that window |
| `SemsurfContext.ProcessSameOn32Bit` | kernel-open/nvidia-drm/nvidia-drm-fence.c:819-904 | inside the window, completion processing on a 32-bit semaphore has the same outcome as on a 64-bit one |
| `SemsurfContext.InsertSorted` | kernel-open/nvidia-drm/nvidia-drm-fence.c:1391-1435 | adding a fence keeps the list sorted |
| `SemsurfContext.InsertCount` | kernel-open/nvidia-drm/nvidia-drm-fence.c:1391-1435 | adding a fence adds that fence once and nothing else |
| `SemsurfContext.SplitIsProcess` | kernel-open/nvidia-drm/nvidia-drm-fence.c:839-854 | any early-exit split of a sorted list is the split into all reached fences, the maximal expired prefix of the rest, and what is left |
| `SemsurfContext.ProcessFacts` | kernel-open/nvidia-drm/nvidia-drm-fence.c:837-883 | finished, timed-out and remaining fences partition the list in order; only reached ones are finished, only late ones above the sample time out, the new head is neither |
| `SemsurfContext.ProcessWaiter` | kernel-open/nvidia-drm/nvidia-drm-fence.c:856-883 | afterwards the waited-for value is the head's or 0; a value handed to the caller is new, is that value, and is above the sample |
| `SemsurfContext.Context.AddPending` | kernel-open/nvidia-drm/nvidia-drm-fence.c:1391-1435 | the insertion loop in place computes the sorted insertion |
| `SemsurfContext.Context.DrainCompleted` | kernel-open/nvidia-drm/nvidia-drm-fence.c:839-854 | the early-exit loop in place removes exactly the reached fences and the maximal expired prefix |
| `SemsurfContext.Context.ProcessCompleted` | kernel-open/nvidia-drm/nvidia-drm-fence.c:819-885 | the whole locked region in place has the specified outcome and keeps the list sorted |
| `SemsurfContext.Context.Fired` | kernel-open/nvidia-drm/nvidia-drm-fence.c:906-940 | a fired callback is forgotten if it was the stored one, and its value if it was waited for |
| `SemsurfContext.Context.Store` | kernel-open/nvidia-drm/nvidia-drm-fence.c:948-993 | a callback is stored exactly if its value is still waited for, and the displaced one is handed back |
| `SemsurfContext.Context.ForceComplete` | kernel-open/nvidia-drm/nvidia-drm-fence.c:747-785 | every pending fence is signalled, in order, and the list is emptied |
| `SemsurfProtocol.RunInv` | kernel-open/nvidia-drm/nvidia-drm-fence.c:819-1117 | the protocol's invariant over every run: sorted list, what each thread and callback may rely on, and, while nothing failed, that the waited-for value is kept by someone |
| `SemsurfProtocol.NoLostWakeup` | kernel-open/nvidia-drm/nvidia-drm-fence.c:819-1117 | a pending fence has a thread that will look at the list again, or its head's value is being registered or is armed |
| `SemsurfProtocol.QuiescentIsArmed` | kernel-open/nvidia-drm/nvidia-drm-fence.c:948-1117 | with all threads at rest the stored callback is registered for the head's value, and can fire once the semaphore gets there |
| `SemsurfProtocol.RetryMovesOn` | kernel-open/nvidia-drm/nvidia-drm-fence.c:1021-1059 | a thread told that its value is already signalled looks again, and then the value is no longer waited for unless it has a new one in hand |
| `SemsurfProtocol.WaiterStays` | kernel-open/nvidia-drm/nvidia-drm-fence.c:948-993 | a callback that waits for the current value keeps waiting through every step except storing another |
| `SemsurfProtocol.FiredStep` | kernel-open/nvidia-drm/nvidia-drm-fence.c:906-940 | a value whose callback has already been through its locked region is waited for again only while some thread has it in hand |
| `SemsurfProtocol.ThreadsGoOn` | kernel-open/nvidia-drm/nvidia-drm-fence.c:819-1117 | in every reachable state each thread has a step that moves it, RM can fire exactly what is registered and reached, and the timer can go off exactly when due |
| `SemsurfFences.FenceInOnePlace` | kernel-open/nvidia-drm/nvidia-drm-fence.c:747-904 | over every run each fence added is in exactly one place, and is retired exactly once when the context is destroyed |
| `SemsurfFences.SignalledWasReached` | kernel-open/nvidia-drm/nvidia-drm-fence.c:887-904 | with a semaphore that only grows, a fence signalled without error had its value reached |
| `SemsurfFences.RetiredAsDeserved` | kernel-open/nvidia-drm/nvidia-drm-fence.c:887-904 | over every run a fence taken by a look is signalled without error exactly if the look's sample had reached it, and with an error only if its deadline had passed; before destruction every signalled fence was taken by a look |
| `SemsurfFences.RetiredGrows` | kernel-open/nvidia-drm/nvidia-drm-fence.c:747-904 | what has been signalled stays so; every step only appends |
| `SemsurfFences.PendingSorted` | kernel-open/nvidia-drm/nvidia-drm-fence.c:1411-1428 | the pending list is sorted in every reachable state |
| `SemsurfFences.DestroyConserved` | kernel-open/nvidia-drm/nvidia-drm-fence.c:1119-1188 | destroying a context retires exactly what was still pending |
| `SemsurfFences.NoneAfterClose` | kernel-open/nvidia-drm/nvidia-drm-fence.c:1119-1188 | no fence is added after user space has closed the context |
| `SemsurfFences.OneCallbackAtRest` | kernel-open/nvidia-drm/nvidia-drm-fence.c:948-1117 | with all threads at rest at most one callback is registered, the stored one, and none once the context is destroyed |
| `SemsurfFences.WaitsForFences` | kernel-open/nvidia-drm/nvidia-drm-fence.c:1021-1080 | in every reachable state callbacks wait only for values of fences that were added, the timer holds the deadline of one, and a thread about to register has both from the same fence |
| `SemsurfStranded.AsleepIffUnarmed` | kernel-open/nvidia-drm/nvidia-drm-fence.c:906-1117 | in every reachable state at rest, whatever failed before, no advance of semaphore or clock makes the context look at its fences again exactly if its timer is unset and no callback is registered |
| `SemsurfStranded.IdleLook` | kernel-open/nvidia-drm/nvidia-drm-fence.c:839-883 | a look changes nothing and registers nothing exactly if the head is neither reached nor expired and its value is already waited for |
| `SemsurfStranded.StaysForsaken` | kernel-open/nvidia-drm/nvidia-drm-fence.c:856-883 | a forsaken head stays pending and forsaken over every run, through all looks, until a lower fence, a look that finds it reached or expired, or destruction |
| `SemsurfStranded.NextLook` | kernel-open/nvidia-drm/nvidia-drm-fence.c:1002-1078 | a context asleep with a pending fence has seen a failure; its next look registers the head exactly if the head is not the waited-for value, and the head is forsaken exactly if it is |
| `SemsurfStranded.FailureCanStrand` | kernel-open/nvidia-drm/nvidia-drm-fence.c:1050-1080 | a run that ends at rest, asleep, with a forsaken fence |
| `SemsurfService.ServedIffWatched` | kernel-open/nvidia-drm/nvidia-drm-fence.c:819-1117 | in every reachable state at rest, whatever failed before, the first pending fence is served over all calm later runs exactly if something is armed and, when only a late enough look can help, the timer or a registered callback guarantees one |
| `SemsurfService.UnfailedIsServed` | kernel-open/nvidia-drm/nvidia-drm-fence.c:819-1117 | while nothing has failed, the first pending fence of a context at rest is served |
| `SemsurfService.KeptPath` | kernel-open/nvidia-drm/nvidia-drm-fence.c:819-1117 | over every calm run the fence is off the list, or some thread will look late enough, or the armed looks cover it, or the first look will register it, or the waiter protocol is intact |
| `SemsurfService.SlipsAway` | kernel-open/nvidia-drm/nvidia-drm-fence.c:906-940 | a fence that no armed look covers is lost: all callbacks and the timer can go off one after the other, their looks idle, until nothing is armed |
| `SemsurfService.LowCallbackIsLost` | kernel-open/nvidia-drm/nvidia-drm-fence.c:906-940 | a callback for a value below the head's fires, makes two idle looks and is gone |
| `SemsurfService.ArmedCanStrand` | kernel-open/nvidia-drm/nvidia-drm-fence.c:1050-1080 | a run after which a callback is still registered and yet the head is not served, and its continuation without failure to a forsaken head |
| `SemsurfService.TimesOutIff` | kernel-open/nvidia-drm/nvidia-drm-fence.c:1080-1221 | in every reachable state at rest with nothing failed and the head unreached, over all calm later runs the head is off the list or the timer set at every rest, exactly if the timer is set and cannot go off before the head's deadline |
| `SemsurfService.EarlyTimerIsLost` | kernel-open/nvidia-drm/nvidia-drm-fence.c:856-883 | a timer that goes off before the head's deadline is used up, with the context unchanged and no timer set |
| `SemsurfService.TimeoutCanBeLost` | kernel-open/nvidia-drm/nvidia-drm-fence.c:1059-1088 | a run without failures that ends at rest with an overdue head and no timer |
| `PrimeFence.SignalledInOrder` | kernel-open/nvidia-drm/nvidia-drm-fence.c:346-387 | over any operations, thresholds and reads, the pending list is sorted and bounded by the last threshold, and the fences created are those signalled, in order, followed by those pending |
| `PrimeFence.EventIsExact` | kernel-open/nvidia-drm/nvidia-drm-fence.c:170-203 | an event signals only fences at or below a value it read, and leaves only fences above the last value it read |
| `PrimeFence.CreateIsExact` | kernel-open/nvidia-drm/nvidia-drm-fence.c:346-387 | a creation signals every older fence exactly if its threshold is below that of the creation before it |
| `PrimeFence.DestroySignalsAll` | kernel-open/nvidia-drm/nvidia-drm-fence.c:210-240 | destroying the context leaves no fence unsignalled |
| `PrimeFence.ReadyIs` | kernel-open/nvidia-drm/nvidia-drm-fence.c:170-203 | the number of fences an event signals is determined by where its reads first fall short |
| `PrimeFence.Context.ForceFenceSignal` | kernel-open/nvidia-drm/nvidia-drm-fence.c:155-168 | the loop in place signals every pending fence, in order |
| `PrimeFence.Context.Create` | kernel-open/nvidia-drm/nvidia-drm-fence.c:346-387 | a threshold below the last one signals everything older before the new fence is added |
| `PrimeFence.Context.FenceEvent` | kernel-open/nvidia-drm/nvidia-drm-fence.c:170-203 | the event loop in place signals the specified prefix |
| `Timers.ReleasedOnce` | kernel-open/nvidia-modeset/nvidia-modeset-linux.c:731-919 | a timer is released at most once, never while pending, handled, linked or listed, and for a handle exactly after both its callback and nvkms_free_timer |
| `Timers.NoUseAfterRelease` | kernel-open/nvidia-modeset/nvidia-modeset-linux.c:731-919 | every step that works on a timer finds it unreleased |
| `Timers.QueueingSucceeds` | kernel-open/nvidia-modeset/nvidia-modeset-linux.c:791-806 | a handler never queues an item that is linked or whose queue is being stopped, so the scheduling warning is unreachable |
| `Timers.ProcStarts` | kernel-open/nvidia-modeset/nvidia-modeset-linux.c:763-784 | a proc starts at most once, for a handle's timer exactly if the handle was not freed, for one allocated on a ref_ptr exactly if the owner has not cleared the pointer |
| `Timers.NoProcAfterOwner` | kernel-open/nvidia-modeset/nvidia-modeset-linux.c:763-784 | no proc of a timer allocated on a ref_ptr starts once its owner has freed it |
| `Timers.RefCounting` | kernel-open/nvidia-modeset/nvidia-modeset-linux.c:653-696 | a ref_ptr's count is one for a live owner plus one per timer that still owes its drop, and the object is released exactly when it is zero |
| `Timers.MutualExclusion` | kernel-open/nvidia-modeset/nvidia-modeset-linux.c:731-789 | a caller that holds nvkms_lock and a callback past its down() exclude each other |
| `Timers.TimersEnd` | kernel-open/nvidia-modeset/nvidia-modeset-linux.c:731-919 | every step that works on a timer brings it closer to its end, except freeing its handle and the drain passing over it; other steps leave it alone |
| `Timers.CallbackGoesOn` | kernel-open/nvidia-modeset/nvidia-modeset-linux.c:731-789 | the callback waits for nothing but the drain's lock, its own handler and a caller with nvkms_lock |
| `Timers.CallsGoOn` | kernel-open/nvidia-modeset/nvidia-modeset-linux.c:828-919 | allocation and freeing are always possible before exit, and kernel timers and handlers can go on |
| `Timers.NewTimerAt` | kernel-open/nvidia-modeset/nvidia-modeset-linux.c:828-903 | a timer just started is on the list and either linked or waiting for its kernel timer |
| `Timers.AllocMakes` | kernel-open/nvidia-modeset/nvidia-modeset-linux.c:828-903 | an allocation makes one timer of the kind asked for, queued at once or with its kernel timer pending, and on a ref_ptr adds one to the count and to the references owed |
| `Timers.DrainTerminates` | kernel-open/nvidia-modeset/nvidia-modeset-linux.c:1924-1961 | every step of the restart loop lowers a lexicographic rank that no other thread raises |
| `Timers.DrainGoesOn` | kernel-open/nvidia-modeset/nvidia-modeset-linux.c:1924-1961 | the drain waits for nothing but the running handler of the timer it looks at |
| `Timers.NoneAfterExit` | kernel-open/nvidia-modeset/nvidia-modeset-linux.c:1919-1964 | no timer is allocated once module exit has begun |
| `Timers.ExitReleasesAll` | kernel-open/nvidia-modeset/nvidia-modeset-linux.c:1919-1964 | after the queue is stopped every timer has been released exactly once, and the list and the queue are empty |
| `Timers.CallbackPath` | kernel-open/nvidia-modeset/nvidia-modeset-linux.c:731-789 | the callback in place is a path of the machine, with or without the proc freeing its own handle |
| `Timers.CallbackInv` | kernel-open/nvidia-modeset/nvidia-modeset-linux.c:731-789 | the callback keeps the invariant, runs the proc exactly if the timer was not cancelled, and releases the timer exactly if it is a ref timer or its handle is free by the end |
| `Timers.TimerTable.Callback` | kernel-open/nvidia-modeset/nvidia-modeset-linux.c:731-789 | the callback's code in place has that effect on timer, list, queue and ref_ptr |
| `Timers.TimerTable.DrainTurn` | kernel-open/nvidia-modeset/nvidia-modeset-linux.c:1924-1957 | one timer of the drain: released here if it had not fired, otherwise its handler is waited for; the list shrinks or the scan advances |
| `Timers.TimerTable.Drain` | kernel-open/nvidia-modeset/nvidia-modeset-linux.c:1924-1961 | the restart loop in place terminates, releases each timer that had not fired exactly once, leaves the others to their callbacks, and no kernel timer stays pending |
| `TimerQueue.RefinesBoth` | kernel-open/nvidia-modeset/nvidia-modeset-linux.c:731-872 | each step of the combined machine is a step of the timers and of the queue, or leaves one alone |
| `TimerQueue.QueueingAllowed` | kernel-open/nvidia-modeset/nvidia-modeset-linux.c:791-806 | whenever a timer queues its item, the item is unlinked and the queue has not been stopped |
| `TimerQueue.TakeExpected` | kernel-open/nvidia-drm/nv-kthread-q.c:102-115 | the item the worker takes is the one at the head of the timers' view, at a time when no callback runs |
| `TimerQueue.StopExpected` | kernel-open/nvidia-drm/nv-kthread-q.c:124-148 | stop returns only with nothing linked and no callback running, because nothing is queued after its markers |
| `TimerQueue.QueueAsExpected` | kernel-open/nvidia-modeset/nvidia-modeset-linux.c:791-806 | over every run the queue does what the timers take for granted: it accepts, orders and drains their items |
| `TimerQueue.SidesMoveTogether` | kernel-open/nvidia-modeset/nvidia-modeset-linux.c:791-806 | an item queued for a timer is linked on both sides, an item taken starts its timer's callback, and stop returns for both |
| `TimerQueue.QueueGoesOn` | kernel-open/nvidia-drm/nv-kthread-q.c:75-148 | the queue's worker and stop can go on whenever the timers' side allows |
| `TimerQueue.ExitLeavesNothing` | kernel-open/nvidia-modeset/nvidia-modeset-linux.c:1919-1964 | once nvkms_exit's queue stop has returned, every timer has been released exactly once, both lists are empty and every queued item has finished |
| `FlipQueue.WillGenerateFlipEvent` | kernel-open/nvidia-drm/nvidia-drm-modeset.c:98-137 | counts exactly the planes whose flip will be reported, and answers whether there is one |
| `FlipQueue.DequeueFacts` | kernel-open/nvidia-drm/nvidia-drm-crtc.h:314-340 | a dequeue never wraps the count, takes exactly one awaited event, and keeps every owed event in order |
| `FlipQueue.CountDefer` | kernel-open/nvidia-drm/nvidia-drm-modeset.c:761-779 | deferring a completed flip keeps every event and adds its own once |
| `FlipQueue.DeferAppends` | kernel-open/nvidia-drm/nvidia-drm-modeset.c:761-779 | a completion deferred behind a last flip that has none is sent after everything queued |
| `FlipQueue.Crtc.Enqueue` | kernel-open/nvidia-drm/nvidia-drm-crtc.h:303-309 | a new flip goes to the front of the list |
| `FlipQueue.Crtc.HandleFlipEvent` | kernel-open/nvidia-drm/nvidia-drm-modeset.c:573-615 | sends nothing, or the finished flip's event followed by its deferred ones |
| `FlipQueue.Crtc.Drain` | kernel-open/nvidia-drm/nvidia-drm-modeset.c:822-832 | the time-out loop ends after exactly as many rounds as events were awaited, with every owed event sent in list order |
| `FlipQueue.NeverWraps` | kernel-open/nvidia-drm/nvidia-drm-crtc.h:314-340 | in every run each queued flip waits for at least one event |
| `FlipQueue.EventsAddUp` | kernel-open/nvidia-drm/nvidia-drm-modeset.c:98-137 | over every run the hardware events announced by commits are those that found a flip and those still awaited; a flip is handed out after exactly as many as it was queued for |
| `FlipQueue.QueuedForItsCount` | kernel-open/nvidia-drm/nvidia-drm-modeset.c:455-473 | a commit that announces hardware events queues its event in a flip for exactly that many; one that announces none queues nothing |
| `FlipQueue.CommitsGoOn` | kernel-open/nvidia-drm/nvidia-drm-modeset.c:639-832 | a commit is refused exactly if it does not block and a flip is queued, and can otherwise always go on |
| `FlipQueue.CommitsEnd` | kernel-open/nvidia-drm/nvidia-drm-modeset.c:750-832 | every step of a commit brings it closer to its end |
| `FlipQueue.ListsStayShort` | kernel-open/nvidia-drm/nvidia-drm-modeset.c:639-832 | over every run the list holds at most two flips, at most one between commits, no flip has more than one deferred completion, and a nonblocking commit never finds a flip |
| `FlipQueue.EventInOnePlace` | kernel-open/nvidia-drm/nvidia-drm-modeset.c:573-832 | over every run each commit's event has been sent once, or is held once by a handler, the flip list, a deferred list or the commit |
| `FlipQueue.EnqueueKeepsOrderIff` | kernel-open/nvidia-drm/nvidia-drm-crtc.h:303-309 | queueing a flip keeps commit order exactly if it carries no event or no event is queued |
| `FlipQueue.DeliveryInOrder` | kernel-open/nvidia-drm/nvidia-drm-modeset.c:573-832 | over every run all events, sent, in hand, queued, deferred or with the commit, are in commit order exactly if no flip with an event was queued in front of a queued event; then what was sent is a prefix of what was committed |
| `FlipQueue.OvertakingBlocks` | kernel-open/nvidia-drm/nvidia-drm-modeset.c:666-679 | only a blocking commit can overtake |
| `FlipQueue.OverlapReorders` | kernel-open/nvidia-drm/nvidia-drm-crtc.h:303-309 | a run in which a blocking commit's event is sent before an earlier commit's |
| `FlipQueue.DeferralInOrder` | kernel-open/nvidia-drm/nvidia-drm-modeset.c:761-779 | a run that goes on from a deferral and sends both events in commit order |
| `Permissions.RevokePaired` | kernel-open/nvidia-drm/nvidia-drm-connector.c:633-650 | revoking one connector keeps granted connectors and CRTCs in one-to-one correspondence |
| `Permissions.RevokeMatchingFacts` | kernel-open/nvidia-drm/nvidia-drm-drv.c:1584-1606 | a revoking loop keeps the correspondence, clears exactly the matching connectors, and changes a CRTC only by clearing its owner |
| `Permissions.RevokeMatchingExact` | kernel-open/nvidia-drm/nvidia-drm-drv.c:1584-1606 | on any device a revoking loop clears exactly the matching connectors and the CRTCs they name, whoever owns them |
| `Permissions.RevokeKeepsPairing` | kernel-open/nvidia-drm/nvidia-drm-drv.c:1549-1634 | a revoke keeps the correspondence even when it fails part of the way |
| `Permissions.RevokeExact` | kernel-open/nvidia-drm/nvidia-drm-drv.c:1584-1606 | a completed revoke clears exactly the file's connectors, or only those for the given display |
| `Permissions.CloseLeavesNothing` | kernel-open/nvidia-drm/nvidia-drm-drv.c:1549-1634 | on any device a completed close leaves nothing naming the file and takes no connector from other files |
| `Permissions.CloseTakesNothing` | kernel-open/nvidia-drm/nvidia-drm-drv.c:1584-1606 | it takes no CRTC from other files exactly if the file's connectors name none of theirs |
| `Permissions.PairedOwnsWhatItNames` | kernel-open/nvidia-drm/nvidia-drm-drv.c:1584-1606 | under the pairing that is so for every file |
| `Permissions.CloseTakesExample` | kernel-open/nvidia-drm/nvidia-drm-drv.c:1584-1606 | after an open lease revocation, a close that leaves another file with a connector and without its CRTC |
| `Permissions.LeaseKeepsPairing` | kernel-open/nvidia-drm/nvidia-drm-drv.c:1809-1854 | lease revocation keeps the correspondence if and only if each granted CRTC in the object set has its connector there |
| `Permissions.LeaseExact` | kernel-open/nvidia-drm/nvidia-drm-drv.c:1830-1847 | a lease revocation clears exactly the granted connectors among its objects, the CRTCs these name, and the CRTCs among its objects |
| `Permissions.OpenLeaseExample` | kernel-open/nvidia-drm/nvidia-drm-drv.c:1830-1847 | a fresh device with two connectors, a grant, and a lease with the other connector and the granted CRTC: the file keeps its connector and the CRTC is free |
| `Permissions.ChoiceIsFree` | kernel-open/nvidia-drm/nvidia-drm-drv.c:1374-1438 | the chosen CRTC is visible, allowed and free, and its head is the target's own or driven by no connector |
| `Permissions.ChoiceExact` | kernel-open/nvidia-drm/nvidia-drm-drv.c:1374-1438 | for the display's first connector, if visible and ungranted: an available CRTC whose head it drives already is chosen; without one the first available CRTC whose head no connector drives; without one none |
| `Permissions.ChoiceExists` | kernel-open/nvidia-drm/nvidia-drm-drv.c:1351-1415 | a request has a choice exactly if such a connector and such a CRTC exist |
| `Permissions.GrantKeepsPairing` | kernel-open/nvidia-drm/nvidia-drm-drv.c:1329-1452 | a grant keeps the correspondence |
| `Permissions.GrantGives` | kernel-open/nvidia-drm/nvidia-drm-drv.c:1430-1438 | a grant gives the file the chosen connector and CRTC and changes nothing else; a refused one changes nothing |
| `Permissions.ProbeKeepsPairing` | kernel-open/nvidia-drm/nvidia-drm-connector.c:153-217 | detection and disconnect keep the correspondence |
| `Permissions.ProbeExact` | kernel-open/nvidia-drm/nvidia-drm-connector.c:211-214 | a connector found disconnected loses its owner and frees the CRTC it named; other detection changes no permission |
| `Permissions.PairingHolds` | kernel-open/nvidia-drm/nvidia-drm-drv.c:1329-1854 | over every run of grants, revokes, probes and closed lease revocations, granted connectors and CRTCs correspond one to one with equal owners |
| `Permissions.Card.RevokePermissions` | kernel-open/nvidia-drm/nvidia-drm-connector.c:633-650 | clears owner and CRTC of the connector and the owner of that CRTC |
| `Permissions.Card.RevokeModesetPermission` | kernel-open/nvidia-drm/nvidia-drm-drv.c:1549-1634 | the two loops in place, with their early end when disabling fails |
| `Permissions.Card.FinishRevokingObjects` | kernel-open/nvidia-drm/nvidia-drm-drv.c:1809-1854 | the two loops of lease revocation in place |
| `Permissions.Card.CandidateHeads` | kernel-open/nvidia-drm/nvidia-drm-drv.c:1383-1409 | the mask loops compute the set of heads a grant may use |
| `Permissions.Card.GrantModesetPermission` | kernel-open/nvidia-drm/nvidia-drm-drv.c:1329-1452 | the grant in place; it succeeds exactly if a choice exists and NVKMS agrees |
| `DisplaySemaphores.PicksVisitAll` | kernel-open/nvidia-drm/nvidia-drm-priv.h:197-208 | from any cursor, as many picks as there are semaphores visit each exactly once |
| `DisplaySemaphores.GivesUpAfterAll` | kernel-open/nvidia-drm/nvidia-drm-modeset.c:248-264 | the search gives up only after NVKMS refused every semaphore, each in the one attempt that reached it |
| `DisplaySemaphores.ConvertPlaneInv` | kernel-open/nvidia-drm/nvidia-drm-modeset.c:202-312 | converting a plane's fence, however it is answered, gives each semaphore it initialised exactly one fate |
| `DisplaySemaphores.ConvertPlaneAnswer` | kernel-open/nvidia-drm/nvidia-drm-modeset.c:202-312 | which planes need a semaphore, and exactly when each of the four errors is returned |
| `DisplaySemaphores.ConvertPlaneUse` | kernel-open/nvidia-drm/nvidia-drm-modeset.c:248-267 | the semaphore initialised is the first in round-robin order that NVKMS accepts, and the cursor moves behind it |
| `DisplaySemaphores.ConvertStops` | kernel-open/nvidia-drm/nvidia-drm-modeset.c:198-312 | planes are converted up to the first failure, whose error is returned; an inactive CRTC converts none |
| `DisplaySemaphores.CallbackInv` | kernel-open/nvidia-drm/nvidia-drm-modeset.c:166-179 | a fence callback moves its semaphore from outstanding to signalled |
| `DisplaySemaphores.CallbackSignals` | kernel-open/nvidia-drm/nvidia-drm-modeset.c:166-179 | the callback signals its semaphore, once, and leaves the others alone |
| `DisplaySemaphores.EveryUseEndsOnce` | kernel-open/nvidia-drm/nvidia-drm-modeset.c:166-315 | over every run each initialised semaphore is signalled once, cancelled once, or owned by one outstanding callback, and the cursor stays in the pool |
| `DisplaySemaphores.SemaphorePool.NextDisplaySemaphore` | kernel-open/nvidia-drm/nvidia-drm-priv.h:197-208 | hands out the cursor and advances it, wrapping at the end |
| `DisplaySemaphores.SemaphorePool.FindSemaphore` | kernel-open/nvidia-drm/nvidia-drm-modeset.c:248-264 | the bounded search in place finds the first accepted pick |
| `DisplaySemaphores.SemaphorePool.ConvertInFences` | kernel-open/nvidia-drm/nvidia-drm-modeset.c:181-315 | the plane loop in place, with its early returns |
| `DisplaySemaphores.SemaphorePool.PlaneFenceCb` | kernel-open/nvidia-drm/nvidia-drm-modeset.c:166-179 | the callback in place |
| `PlaneRefs.GetEachCounts` | kernel-open/nvidia-drm/nvidia-drm-crtc.c:1944-2013 | duplicating raises each object's count by the number of slots that name it |
| `PlaneRefs.PutEachCounts` | kernel-open/nvidia-drm/nvidia-drm-crtc.c:2015-2046 | destroying lowers each count by the number of slots that name it, and releases an object exactly at zero |
| `PlaneRefs.DuplicateNames` | kernel-open/nvidia-drm/nvidia-drm-crtc.c:1944-2013 | a duplicate names what its original names, with nothing stale |
| `PlaneRefs.DestroyEnds` | kernel-open/nvidia-drm/nvidia-drm-crtc.c:2015-2046 | destroying ends the state and lowers each count by the slots that named the object |
| `PlaneRefs.ReplaceObjectOk` | kernel-open/nvidia-drm/nvidia-drm-crtc.c:135-172 | replacing a blob, or failing to, keeps every count equal to the references that exist |
| `PlaneRefs.SetBlobSets` | kernel-open/nvidia-drm/nvidia-drm-crtc.c:1751-1844 | a successful set leaves the slot naming the blob and nothing else changed, and marks a LUT's surface stale exactly if that LUT changed |
| `PlaneRefs.SetBlobSucceeds` | kernel-open/nvidia-drm/nvidia-drm-crtc.c:135-172 | a replace succeeds exactly if it clears the slot or finds a blob of the expected length, and changes nothing otherwise |
| `PlaneRefs.RebuildInv` | kernel-open/nvidia-drm/nvidia-drm-crtc.c:1421-1486 | rebuilding LUT surfaces, also when an allocation fails, keeps every count |
| `PlaneRefs.RebuildMakes` | kernel-open/nvidia-drm/nvidia-drm-crtc.c:1421-1486 | a stale LUT slot ends up with a surface made just now, or with none; a slot that is not stale, and one after a failure, is left alone |
| `PlaneRefs.CountsMatchSlots` | kernel-open/nvidia-drm/nvidia-drm-crtc.c:1421-2046 | over every run a blob's count is its outside references plus the slots naming it, a surface's count the slots naming it, and each is released exactly when that reaches zero |
| `PlaneRefs.NamedIsLive` | kernel-open/nvidia-drm/nvidia-drm-crtc.c:1944-2046 | what a live state's slot names has not been released and is of the slot's kind |
| `PlaneRefs.PlaneStates.ReplaceBlobFromId` | kernel-open/nvidia-drm/nvidia-drm-crtc.c:135-172 | the function in place, with its lookup reference, its length check and both error returns |
| `PlaneRefs.PlaneStates.DuplicateState` | kernel-open/nvidia-drm/nvidia-drm-crtc.c:1944-2013 | the copy takes one reference per slot and starts with nothing stale |
| `PlaneRefs.PlaneStates.DestroyState` | kernel-open/nvidia-drm/nvidia-drm-crtc.c:2015-2046 | the state gives back one reference per slot |
| `PlaneRefs.PlaneStates.UpdateLuts` | kernel-open/nvidia-drm/nvidia-drm-crtc.c:1421-1486 | stale LUT surfaces are dropped and remade in place, with the early error return |
| `Lut.WideBounds` | kernel-open/nvidia-drm/nvidia-drm-crtc.c:858-874 | the interpolated sum lies in (exact - 2, exact] and does not exceed the larger entry |
| `Lut.InterpolateBounds` | kernel-open/nvidia-drm/nvidia-drm-crtc.c:858-874 | so the cast to 16 bits loses nothing |
| `Lut.ResampleBounds` | kernel-open/nvidia-drm/nvidia-drm-crtc.c:949-1014 | each resampled channel fits 16 bits and lies in (exact - 2, exact] |
| `Lut.EntryFits` | kernel-open/nvidia-drm/nvidia-drm-crtc.c:949-1014 | every channel value stored fits 16 bits, with or without a LUT or a curve |
| `Lut.EntryChannels` | kernel-open/nvidia-drm/nvidia-drm-crtc.c:949-1010 | the words of an entry are red, green and blue in this order, from the resampled LUT, the LUT, the curve or the identity |
| `Lut.ResampleOnGrid` | kernel-open/nvidia-drm/nvidia-drm-crtc.c:949-1010 | at a position on the grid the resampled value is the table's own |
| `Lut.Align256` | kernel-open/nvidia-drm/nvidia-drm-crtc.c:468-470 | rounds up to the next multiple of 256 |
| `Lut.PackedRoundTrip` | kernel-open/nvidia-drm/nvidia-drm-crtc.c:935-946 | each 3-bit segment size can be read back from the packed number |
| `Lut.HeaderRoundTrip` | kernel-open/nvidia-drm/nvidia-drm-crtc.c:935-946 | each segment size can be read back from the stored words of its header entry |
| `Lut.PackHeader` | kernel-open/nvidia-drm/nvidia-drm-crtc.c:935-946 | the packing loop computes the number with those digits |
| `Lut.FillHeader` | kernel-open/nvidia-drm/nvidia-drm-crtc.c:935-946 | the header loop in place stores those numbers and touches nothing else |
| `Lut.FillEntries` | kernel-open/nvidia-drm/nvidia-drm-crtc.c:949-1014 | the entry loop in place stores each channel of each entry and repeats the last entry |
| `Lut.CreateOlutSurface` | kernel-open/nvidia-drm/nvidia-drm-crtc.c:876-1017 | every store lands inside the aligned surface, which ends up with that header and those entries |

## Left out

- Bodies behind `nvKms->*`, RM, DRM core, dma-fence, kernel threads, kernel timers and memory allocation: their answers are nondeterministic steps or parameters. The work queue appears in `Timers` and the semaphore-surface modules through its guarantees; `TimerQueue` derives those of the timers from `KthreadQ`, for the semaphore-surface worker `WorkThread` states them.
- Fairness, deadlock freedom and `nvkms_pm_lock`: they depend on kernel lock policy.
- KthreadQ.NeverEmptyQueue: the raises that follow a locked schedule are counted, not attributed to their callers.
- SemsurfProtocol.NoLostWakeup: RM answers a registration with success only while the value has not been reached, as the documentation of the control call in `src/common/sdk/nvidia/inc/ctrl/ctrl00da.h:187` says; the theorem does not hold of an RM that registers a reached value silently. The semaphore is read inside the window of `RebuildExact`, and the two reads of a 32-bit sample count as one step; outside the window the sample itself is wrong.
- Free-exactly-once of semaphore-surface callback objects, and reuse of their addresses: a callback is named by the thread that registered it.
- When a fence behind the head times out: only the head's deadline is examined, so a later fence need not expire at its own time. Deadlines and jiffies are unbounded numbers.
- SemsurfService.ServedIffWatched: later runs are those without calls from user space and without further failures; each of these can save or lose a fence by itself.
- The counter of pending waits of a semaphore-surface context and the fence-to-syncpoint conversion.
- PrimeFence.SignalledInOrder: thresholds are any numbers, which includes the 32-bit ones; allocation failure of a fence is not modelled.
- Timers.ExitReleasesAll: takes the queue's stop to return when nothing is linked or running; `TimerQueue.ExitLeavesNothing` proves it of the queue.
- Timers.ReleasedOnce: assumes, as the source's callers must, that a handle is freed at most once and under `nvkms_lock`, and that ref timers start from a live ref_ptr.
- Timers.TimerTable.Drain: no other thread moves during the loop; `DrainTerminates` covers interleavings.
- Failing commit paths and several CRTCs in one commit: `FlipQueue` follows one CRTC through successful commits.
- TimerQueue.QueueAsExpected: the exit-flag test and the locked part of a schedule are one step.
- Permissions.PairingHolds: heads of distinct CRTCs are distinct; head bit masks are sets.
- DisplaySemaphores.EveryUseEndsOnce: commits are serialized, so the cursor's update is one step.
- State-reset hooks and the CRTC state's regamma surface: `PlaneRefs` covers plane states.
- PlaneRefs.PlaneStates.DuplicateState: the nine slot copies are one loop over the slots.
- Floating-point LUT code, LUT tables, display-mode and format conversion, connector probing, EDID, GEM objects, ioctl argument checks, procfs, module parameters, peer memory, generated headers and helper scripts: tables, plumbing or foreign arithmetic.
- Lut.PackHeader: bits are combined by addition; segment sizes are below 8, so this is the bitwise or.
