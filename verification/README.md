# Verification of the UBBD block driver's shared-memory core

UBBD is a Linux block driver that hands requests to a userspace backend through shared memory. This
project models its core in Dafny and proves what the driver's locks, counters and rings are there to
guarantee, over every interleaving of the driver's critical sections.

* **Submit ring** (`Ring`, `SubmitRing`). `Ring` is the FIFO of variable-length entries on a circle of bytes, with
  the driver's own `u32` arithmetic; `SubmitRing.CommandRing` is the byte array itself, proved against that FIFO.
* **Data pages** (`Pool`, `PagePool`, `Mappings`). `Pool` is the bitmap, page cache and counter with the local variables of
  every worker between two lock sections; `PagePool.DataPool` is the same pool updated in place by one worker; `Mappings` is
  what userspace has mapped, against the page cache.
* **Payload** (`Payload`). Page indices of a request, the copy loops over bio chains, and the address arithmetic that
  the iov builder, the unmap and the page-fault handler must agree on.
* **Queue protocol** (`Queue`, `QueueOwnership`, `QueueTids`, `QueueGates`, `QueueProof`, `QueueTheorems`, `QueueStranding`,
  `QueueQuiet`, `QueueIdle`, `QueueDelivery`, `QueueRace`, `QueueProgress`, `QueueControl`, `QueueSteps`, `QueueWitness`). One state machine in which any number
  of workers, completers, removals, and queue stop/start interleave; it contains the FIFO of `Ring` and the pool of `Pool`.
  `QueueOwnership` to `QueueProof` hold the invariant, part by part; `QueueTheorems`, `QueueStranding` (lost pages), `QueueQuiet`
  (stopped queues), `QueueIdle` (ring reclaim) and `QueueDelivery` (what becomes of requests and completions) state what follows
  for every reachable state; `QueueRace` shows exactly when a forced removal gives what it promises, `QueueProgress` what can
  always still happen; `QueueControl` is the status word and inflight list updated in place, proved to be
  steps of the machine; `QueueSteps` and `QueueWitness` hold concrete runs.
* **Completion ring** (`Completion`), **device lifecycle and references** (`Device`), **event counter** (`Notify`),
  **netlink reply sizes** (`Netlink`).

`dafny verify dfyconfig.toml` verifies the whole project.

## Assumptions

* `ubbd.h` is not part of this model: ring size, reserve, alignment, entry and iovec sizes are parameters. Ring size is a
  multiple of the alignment, at most 2^31, and bigger than the reserve; the alignment is at least the size of an entry header
  (a header is one cell of the modelled ring). A command plus the ring size stays below 2^32, which the queue limit of 128
  sectors per request keeps true by a wide margin; the smallest command does.
* Each critical section is one step, and memory is sequentially consistent. The exceptions are where it matters: the read
  of STOPPING and the write of STOPPED inside `fetch_inflight_req` are two steps, because `ubbd_dev_remove_queues` writes the
  status under a different lock. Counter updates are atomic steps; `data_pages_allocated` is incremented outside its mutex
  in the source.
* `ubbd_queue_rq` may queue a work whatever the status is by then: its own status check is older than the queueing.
* `flush_workqueue` returns when every work queued before it has returned.
* The backend sets DONE on padding only, and never completes tid 0; it may complete any other tid any number of times.
  `QueueIdle.IdleRingIsEmpty` also assumes that it marks padding DONE before it completes an entry behind it, and `Completion`
  that it completes each published request at most once. In `Queue` a completer learns the tid as it takes the entry: a
  completion written over before it is read counts there as never sent, and the one read in its place as sent twice.
* Data page indices fit the driver's `int` (fewer than 2^31 data pages).
* The number of segments of a request is fixed when it is started; the size of its ring command is any aligned size.
* `alloc_page` returns pages that are not in use.
* Netlink handlers are serialised, at most one add-disk work is pending, and requests time out only while the disk is
  registered.

## Findings

* **A removal or a start can be undone, and forced removal is then unsafe.** A completer that read STOPPING before a removal or a
  start may write STOPPED after it. `QueueTheorems.RemovalSticks` shows that REMOVING survives every continuation exactly when no
  completer is between the two accesses at the moment of the removal, and `QueueTheorems.StartSticks` says the same of a start,
  until the next stop or removal. For a forced removal more is lost. `QueueRace.ForcedRemovalIsSafe`: in every continuation its
  splice takes only published requests, each started request is in one place, each start is ended or requeued once, a request
  under completion carries a tid, and the spliced list stays empty, each of these if and only if no completer stands there at
  that moment. Otherwise the queue can be started again behind the flush, the removal ends a request whose worker has not
  submitted it (its entry pointer is still NULL), and the worker then publishes or requeues it.
  `QueueWitness.LostRemovalIsReachable` and `QueueWitness.RacedRemovalIsReachable` are the runs. The other theorems about a
  queue speak of runs in which no forced removal began at such a moment; a removal that is not forced may.
* **A second completer can lose a completion.** A completer moves the tail past an entry before it reads it, and the backend
  does not look at the tail. `Completion.TakenIsIntact`: with any number of completers the entry read is the one taken if and
  only if the backend has not been once around the ring since; `Completion.LostForever`: otherwise no continuation ends its
  request. `Completion.TwoCompletersLoseOne` is a run with three slots and never more than two requests out.
  `Completion.OneCompleterIsSafe`: with one completer, and fewer requests out than slots, it does not happen.
* **STOPPED does not mean drained.** A completer can drain the list and stop the queue while a worker past its status check still
  holds a request (`QueueWitness.StoppedWithInflightIsReachable`). `QueueQuiet.StoppedStaysDrained`: a stopped, empty queue
  can be refilled before it is started if and only if some worker past its check is ready or can still get all the data pages
  its request wants, which is to say no more than the pool has less those lost to a full ring.
* **A full ring loses pages for good.** The ring-full path requeues without releasing pages and the next start clears the
  request. `QueueStranding.BitsLostToFullRing`: over every run, a bit ends up set with no holder exactly when a worker on a full
  ring gave up a request that held it; `QueueStranding.LostForever`: no continuation gives it back.
  `QueueWitness.LostPageIsReachable` is such a run.
* **An idle ring can refuse a command it took before.** A command that ends exactly at the end of the ring is charged for padding
  it does not insert. `Ring.IdleRingAccepts`: an idle ring takes a command at every head position if and only if twice the
  command fits. `QueueWitness.IdleRefusalIsReachable`: a queue that has just carried out a command, with nothing left in it,
  refuses the same command; it keeps refusing it until some other command moves the head.
* **Forced removal can leave padding on the ring.** `QueueIdle.SettledRingIsEmpty`: once nothing is published and every advance
  has run, tail equals head if and only if the oldest entry is not padding. `QueueWitness.PaddingOutlivesRemoval` is a forced
  removal that ends every request and leaves padding in front; `QueueIdle.IdleRingIsEmpty` shows that without forced removal, and
  with an orderly backend, it does not happen.
* **Unmapping the wrong page.** `ubbd_release_page` multiplies the index as an `int`. `Payload.UnmapHitsPage`: the unmap hits the
  page userspace has mapped if and only if the index is below 2^19. `Mappings.MappingIsCoherent`: what is mapped at an index is
  the cached page, in every reachable state, exactly for those indices, so `Mappings.MappingsAreCoherent` holds for a pool if and
  only if it has at most 2^19 data pages; `Mappings.StaleMapping` is the run for a larger index.
* **A mapping can outlive its page.** The fault handler takes no lock. `Mappings.ReleaseRacesFault`: a release keeps the
  mappings coherent if and only if no fault on its index falls between the unmap and the erase, and the unmap hit the mapping.
* **Removing a device too early.** `ubbd_dev_remove_dev` is safe for the disk (`Device.RemoveDevSafety`), and destroys the device
  once and only when its last holder leaves (`Device.DestroyedOnceWhenUnheld`), if and only if no add work is still to check a
  PREPARED device and no removal is still to delete a registered disk. `Device.HazardIsReachable` and
  `Device.DestroyedTwiceIsReachable` are runs that meet the hazard and what comes of it.

## Model

| member | source | states |
|---|---|---|
| Ring.BumpIsAfter | src/ubbd_internal.h:355-356 | the `u32` head/tail macro moves exactly one block around the circle |
| Ring.SpaceUsedIsTotal | src/ubbd_req.c:318-323 | the space computed from head and tail is the sum of the live entries; head meets tail iff there are none |
| Ring.SpaceEnoughExact | src/ubbd_req.c:309-336 | the wrapping `u32` check is the plain inequality, padding (or an exact fit) charged in full |
| Ring.PaddingFitsHeader | src/ubbd_req.c:346-351 | padding is at least one alignment unit, so its header fits |
| Ring.SubmitAppends | src/ubbd_req.c:501-514 | a submission appends [PAD,] entry with the next tid and keeps tiling, space bound and tid order |
| Ring.SubmitWritesFreeBytes | src/ubbd_req.c:348-354 | neither padding nor entry is written over a byte of an unreclaimed entry |
| Ring.EntriesDisjoint | src/ubbd_req.c:338-354 | live entries occupy disjoint ranges inside the ring |
| Ring.TidsIncrease | src/ubbd_req.c:502 | tids grow strictly from tail to head |
| Ring.MarkDoneKeepsValid | src/ubbd_req.c:659 | setting DONE changes no layout |
| Ring.AdvanceDropsDonePrefix | src/ubbd_req.c:601-619 | reclaim removes exactly the longest DONE prefix; with all DONE, tail reaches head |
| Ring.IdleRingAccepts | src/ubbd_req.c:327-333 | an idle ring takes a command at every aligned head iff twice the command fits |
| SubmitRing.CmdSizeExact | src/ubbd_req.c:377-382 | the command size is aligned, holds every iovec slot and wastes less than one unit |
| SubmitRing.FifoIsDetermined | src/ubbd_req.c:14-21 | the bytes between tail and head determine the FIFO: any walk over the headers reads the same entries |
| SubmitRing.CommandRing.constructor | src/ubbd_dev.c:61-96 | a zeroed ring is the empty FIFO |
| SubmitRing.CommandRing.InsertPad | src/ubbd_req.c:338-354 | padding in place is the padding of the FIFO |
| SubmitRing.CommandRing.SetSlots | src/ubbd_req.c:182-206 | every iovec lands in its own slot inside the entry |
| SubmitRing.CommandRing.SubmitCommand | src/ubbd_req.c:487-515 | refused iff space is short, otherwise the FIFO grows by one command and every live byte keeps its value |
| SubmitRing.CommandRing.SetDone | src/ubbd_req.c:659 | marks that entry and no other |
| SubmitRing.CommandRing.AdvanceTail | src/ubbd_req.c:601-619 | the loop terminates (used space falls) and drops the longest DONE prefix |
| Pool.FirstZero | src/ubbd_req.c:124-125 | the least clear index, or the pool size when there is none |
| Pool.ReserveWithinPool | src/ubbd_dev.c:803-815 | the reserve never exceeds the pool, even when the `u32` product wraps |
| Pool.ReserveIsPercentage | src/ubbd_dev.c:803-815 | it is the whole part of the percentage, unless the product wraps |
| Pool.StepPartition | src/ubbd_req.c:73-180 | every critical section keeps the partition of set bits |
| Pool.StepCounting | src/ubbd_req.c:48-99 | every critical section keeps the page counter exact and idle pages within the reserve |
| Pool.StepInv | src/ubbd_req.c:111-180 | every critical section of every worker keeps the pool's invariant |
| Pool.RunInv | src/ubbd_req.c:111-180 | so does every interleaving |
| Pool.PagesArePartitioned | src/ubbd_req.c:208-213 | no index is held twice, every held index has a page of its own; what becomes of the other set bits is Pool.LostIffDropped |
| Pool.PageCountIsExact | src/ubbd_req.c:61-70 | allocated = cached + in hand; cached pages with a clear bit stay within the largest reserve |
| Pool.QuietPoolWithinReserve | src/ubbd_dev.c:120-122 | with nothing set and nothing in hand, allocated <= reserved <= data pages |
| Pool.SecondPassDecides | src/ubbd_req.c:120-159 | under any interference the second pass over a segment claims a page or ends the call |
| Pool.EndedCallHoldsNothing | src/ubbd_req.c:166-177 | a call that failed, or a release that finished, leaves no bit and no page |
| Pool.LostIffDropped | src/ubbd_req.c:488-498 | over every run a bit is set with no holder exactly when it was so before or a request holding it was cleared; so it never comes back |
| Pool.ReleaseConvergesToReserve | src/ubbd_req.c:82-98 | with a fixed reserve, giving every index back, in any order, ends with the cache cut down to the reserve, or left alone where it was smaller |
| Mappings.MappingIsCoherent | src/ubbd_req.c:87-95 | what userspace has mapped at an index is the page the cache holds there, in every reachable state, iff the index is below 2^19 |
| Mappings.MappingsAreCoherent | src/ubbd_req.c:91-92 | all mappings of a pool are coherent in every reachable state iff it has at most 2^19 data pages |
| Mappings.StaleMapping | src/ubbd_nl.c:157-158 | for every larger index a run claims it, maps it, releases it and leaves the mapping behind |
| Mappings.ReleaseRacesFault | src/ubbd_kring.c:638-665 | with the unlocked fault handler a release keeps mappings coherent iff no fault hits its index between unmap and erase and the unmap hit its mapping |
| PagePool.DataPool.constructor | src/ubbd_dev.c:116-132 | the new pool is the initial state of the machine |
| PagePool.DataPool.FindFirstZero | src/ubbd_req.c:124 | the bitmap scan finds the least clear index |
| PagePool.DataPool.ReleasePage | src/ubbd_req.c:73-99 | one release in place is the release of the machine |
| PagePool.DataPool.TryClaim | src/ubbd_req.c:123-157 | one pass in place is the pass of the machine |
| PagePool.DataPool.RollBack | src/ubbd_req.c:172-177 | exactly the given indices are cleared, pages above the reserve are freed and no others, nothing else leaves the cache, mappings stay true |
| PagePool.DataPool.ClaimOne | src/ubbd_req.c:122-158 | at most two passes per segment (termination); a failure leaves the bitmap alone |
| PagePool.DataPool.GetDataPages | src/ubbd_req.c:111-180 | alone: all or nothing; without faults it succeeds iff enough bits are clear; a failure leaves nothing allocated above the reserve that was not before |
| Payload.FlattenAt | src/ubbd_req.c:282-305 | every bio of the chain is in the request's segments, at its place |
| Payload.WrittenInPlace | src/ubbd_req.c:277-307 | each write segment ends up in its own page at its own offset, the rest of the page unchanged |
| Payload.WriteLeavesOthers | src/ubbd_req.c:287-296 | pages of other indices are left alone |
| Payload.ReadLeavesOthers | src/ubbd_req.c:256-266 | host pages no segment is on are left alone |
| Payload.ReadReturnsWritten | src/ubbd_req.c:246-275 | reading into the same shape returns the written bytes, even for overlapping segments, and nothing else changes |
| Payload.PayloadRoundTrip | src/ubbd_req.c:246-307 | write then read gives back every byte of every segment |
| Payload.IovFaultsToItsPage | src/ubbd_kring.c:646-655 | every byte of an iov faults to the page index of its segment, at the byte it was copied to |
| Payload.WrittenAtIov | src/ubbd_req.c:182-206 | userspace finds a write's bytes exactly where the iovs point |
| Payload.UnmapHitsPage | src/ubbd_req.c:91-92 | the unmap removes the mapping of the index the pool model says, or none; it is the released one iff the index is below 2^19 |
| Payload.Request.GetPi | src/ubbd_req.c:32-38 | inline or overflow, the index last stored |
| Payload.Request.SetPi | src/ubbd_req.c:40-46 | changes that index and no other |
| Payload.Mover.CopyToRequest | src/ubbd_req.c:277-307 | the nested loops write every segment of the chain and touch no page of another request |
| Payload.Mover.CopyFromRequest | src/ubbd_req.c:246-275 | the nested loops read every segment of the chain and touch no other host page |
| Payload.IovTotal | src/ubbd_req.c:195-197 | iov lengths sum to the segments' total |
| Payload.SetIovs | src/ubbd_req.c:182-206 | one iov per segment, at its page and offset |
| QueueControl.InflightQueue.Unlink | src/ubbd_req.c:626-628 | the first request whose tid matches leaves the list, the others keep their order |
| QueueControl.InflightQueue.FetchRead | src/ubbd_req.c:626-630 | the machine's fetch step: what leaves the list was published and is now in one completer's hand |
| QueueControl.InflightQueue.FetchWrite | src/ubbd_req.c:631 | the machine's separate store step |
| QueueControl.InflightQueue.FetchInflight | src/ubbd_req.c:621-641 | both without interruption: a queue it drains is not left STOPPING |
| QueueControl.InflightQueue.StartQueue | src/ubbd_dev.c:918-942 | the machine's start step, refused only on a removing queue; REMOVING or RUNNING then lasts iff no completer is about to write STOPPED |
| QueueControl.InflightQueue.BeginStop | src/ubbd_dev.c:857-877 | the machine's stop step, enabled iff the flush follows; an error means REMOVING, for good iff no completer is about to write STOPPED |
| QueueControl.InflightQueue.FinishStop | src/ubbd_dev.c:880-884 | the machine's last stop step: a drained queue is STOPPED and no continuation refills it before a start |
| QueueControl.InflightQueue.SpliceAll | src/ubbd_req.c:768-770 | the machine's splice step: only published requests are taken, and the list stays empty in every continuation |
| QueueOwnership.OwnFetch | src/ubbd_req.c:626-636 | fetching moves one published request into one completer's hand |
| QueueOwnership.OwnSplice | src/ubbd_req.c:763-778 | splicing moves the list to one removal, with no worker on it |
| QueueOwnership.OnePlace | src/ubbd_req.c:451-530 | the ownership invariant puts each started request in one place |
| QueueTids.TidsPublish | src/ubbd_req.c:501-515 | publication registers the new tid with its entry and request |
| QueueTids.TidsMark | src/ubbd_req.c:657-660 | DONE retires that tid and no other |
| QueueTids.TidsAdvance | src/ubbd_req.c:601-619 | reclaim keeps every registered entry |
| QueueGates.GatesStore | src/ubbd_req.c:629-631 | the late write of STOPPED cannot meet a removal that began outside it |
| QueueGates.FlushLeavesNoneActive | src/ubbd_dev.c:982-989 | after the flush no worker is past its status check |
| QueueProof.FetchFindsPublished | src/ubbd_req.c:700-705 | what a completion finds has been published under that tid |
| QueueProof.StepGood | src/ubbd_req.c:451-778 | every action of every actor keeps the whole invariant |
| QueueTheorems.RunGood | src/ubbd_req.c:451-778 | so does every run |
| QueueTheorems.StartedIsInOnePlace | src/ubbd_req.c:672-715 | a started request is with one worker, on the list, on one private list or in one hand, never two |
| QueueTheorems.ReturnedIsNowhere | src/ubbd_req.c:488-527 | an ended or requeued request is nowhere in the driver, in particular not inflight |
| QueueTheorems.EndedOncePerStart | src/ubbd_req.c:523-529 | starts = ends + requeues + (1 while started), for every request and run |
| QueueTheorems.RingNeverOverfills | src/ubbd_req.c:315-325 | used space stays within size less reserve, so the subtraction never wraps; head = tail iff empty |
| QueueTheorems.EntriesNeverOverlap | src/ubbd_req.c:422-442 | in every reachable state live entries are disjoint and inside the ring |
| QueueTheorems.LiveRequestHasEntry | src/ubbd_req.c:436-441 | a published request without DONE has exactly one live entry, at its entry pointer, with its tid and operation |
| QueueTheorems.LiveEntryHasRequest | src/ubbd_req.c:481-515 | every live entry belongs to exactly one such request |
| QueueTheorems.TidsGrowAlongRing | src/ubbd_req.c:502 | tids on the ring are positive and grow from tail to head |
| QueueTheorems.CompletionMatchesPublished | src/ubbd_req.c:553 | a completion matches an unpublished request iff its tid is 0 |
| QueueTheorems.MarkHitsOwnEntry | src/ubbd_req.c:657-660 | DONE is always set on the live entry of the request being completed, and only there |
| QueueTheorems.CopyFindsPages | src/ubbd_req.c:256-258 | the copy loops' BUG_ON never fires: each segment the request was started with has its own cached page |
| QueueTheorems.RequestsShareNoPage | src/ubbd_req.c:586-599 | no two requests hold one index |
| QueueStranding.PoolFollows | src/ubbd_req.c:451-530 | every action of the queue runs one critical section of its pool or none |
| QueueStranding.BitsLostToFullRing | src/ubbd_req.c:488-498 | over every run of a fresh queue a bit is set with no holder iff a worker on a full ring gave up a request that held it |
| QueueStranding.LostForever | src/ubbd_req.c:553 | no continuation clears such a bit or gives it to a request |
| QueueStranding.OtherBitsAreHeld | src/ubbd_req.c:208-213 | every other set bit has a page and a started request that holds it |
| QueueTheorems.WhoEndsAndRequeues | src/ubbd_req.c:457-529 | over every action of every actor: which request's end or requeue is counted, and when; a worker ends only on a removing queue, and requeues iff it met a stopping or stopped queue, no memory, no data page or a full ring |
| QueueQuiet.HeldWithinRoom | src/ubbd_req.c:123-157 | no request ever holds more indices than the pool has less the lost ones |
| QueueQuiet.StoppedStaysDrained | src/ubbd_dev.c:877-884 | a stopped, empty queue can be refilled before a start iff a worker past its check is ready or can still get every page it wants, whatever other requests hold now |
| QueueTheorems.StoppingMeansInflight | src/ubbd_dev.c:877-884 | after queue_stop, STOPPING implies requests in flight and no active worker |
| QueueDelivery.StopsOnlyDrained | src/ubbd_req.c:629-631 | a queue becomes STOPPED only with nothing in flight |
| QueueDelivery.CompletionsConserved | src/ubbd_req.c:687-696 | over every run the tids waiting and sent are those taken and still waiting, in order |
| QueueDelivery.TookIsKept | src/ubbd_req.c:700-705 | what a completer took stays with it until it looks the request up |
| QueueDelivery.CompletionIsDelivered | src/ubbd_req.c:621-641 | the completer of a listed request's tid gets that request, which alone leaves the list |
| QueueDelivery.UnknownIsDropped | src/ubbd_req.c:703-705 | any other tid changes nothing but the completer |
| QueueDelivery.ListKeepsOrder | src/ubbd_req.c:482 | over every run the list holds requests in the order in which workers listed them |
| QueueDelivery.EntryIsAsAsked | src/ubbd_req.c:553-580 | however long a request is in the driver, its entry is for the operation it was started with and its pages are one for each of its segments |
| QueueProgress.InHandCanEnd | src/ubbd_req.c:657-670 | whatever an agent has in its hand it can end, on its own |
| QueueProgress.PublishedCanEnd | src/ubbd_req.c:672-715 | every published request of a queue that is not being removed can be ended |
| QueueProgress.ForcedRemovalCanFinish | src/ubbd_req.c:763-778 | a forced removal can run to its end: workers returned, list empty, and only other agents still have requests |
| QueueTheorems.RemovingForever | src/ubbd_dev.c:979-989 | without a store under way REMOVING is absorbing, and so is a sealed list |
| QueueControl.RemovingIsForever | src/ubbd_dev.c:980 | a removing queue stays so in every continuation iff no completer is about to write STOPPED |
| QueueTheorems.RemovalSticks | src/ubbd_dev.c:980 | a removal survives every continuation iff no completer stands between its read and its write |
| QueueTheorems.StartSticks | src/ubbd_dev.c:934 | so does a start, up to the next stop or removal |
| QueueTheorems.SpliceTakesPublishedOnly | src/ubbd_dev.c:989-992 | forced removal never takes a half-submitted request; each taken entry is live |
| QueueRace.ForcedRemovalIsSafe | src/ubbd_dev.c:979-992 | published-only splice, one place, exactly-once, tid under completion and empty sealed list each hold in every continuation of a forced removal iff no completer is about to write STOPPED |
| QueueRace.DrainWorks | src/ubbd_dev.c:989 | whatever the works of a stopped queue are doing, some continuation makes all of them return |
| QueueTheorems.ForcedRemovalIsFinal | src/ubbd_dev.c:990-992 | after it the list stays empty in every continuation |
| QueueWitness.LostRemovalIsReachable | src/ubbd_req.c:629-631 | a concrete run reaches a moment in which a removal and a start are possible and would be lost |
| QueueWitness.RacedRemovalIsReachable | src/ubbd_req.c:657-660 | from there a forced removal breaks each of the guarantees in some run |
| QueueWitness.StoppedWithInflightIsReachable | src/ubbd_dev.c:877-884 | a concrete run reaches a STOPPED queue with a request in flight |
| QueueWitness.IdleRefusalIsReachable | src/ubbd_req.c:327-333 | a concrete run reaches an empty queue that refuses the command it has just carried out |
| QueueWitness.PaddingOutlivesRemoval | src/ubbd_req.c:763-778 | a concrete forced removal ends every request and leaves padding on the ring |
| QueueWitness.LostPageIsReachable | src/ubbd_req.c:488-498 | a concrete run loses a data page to a full ring |
| QueueIdle.SettledRingIsEmpty | src/ubbd_req.c:657-670 | in every reachable state with nothing published unfinished and all advances done, tail equals head iff the oldest entry is not padding |
| QueueIdle.IdleRingIsEmpty | src/ubbd_req.c:601-619 | over runs without forced removal and with an orderly backend it never is: tail equals head, padding included |
| Completion.TailMacroIsNextSlot | src/ubbd_internal.h:358 | the byte macro moves one slot |
| Completion.FullLooksEmpty | src/ubbd_req.c:23-30 | head meets tail iff the waiting completions fill the ring a whole number of times |
| Completion.NoMoreThanLive | src/ubbd_req.c:686-714 | waiting completions are no more than the published, unended requests |
| Completion.TakenIsIntact | src/ubbd_req.c:687-712 | with any number of completers the entry read is the one taken iff the backend has not been around the ring since |
| Completion.LostForever | src/ubbd_req.c:701-705 | a completion written over before it is read is lost: no continuation ends its request |
| Completion.OneCompleterIsSafe | src/ubbd_req.c:686-714 | with one completer and fewer requests out than slots: empty iff all taken, the entry in hand never written over, completions used once and in order |
| Completion.TwoCompletersLoseOne | src/ubbd_kring.c:296-306 | a concrete run in which two completers lose a completion with fewer requests out than slots |
| Completion.CompletionRing.PushEntry | src/ubbd_req.c:686-714 | the backend's write in place is the machine's step; which entries in hand survive it |
| Completion.CompletionRing.TakeEntry | src/ubbd_req.c:687-696 | the compr_lock section is the machine's step; it finds nothing iff the waiting completions fill the ring a whole number of times |
| Completion.CompletionRing.ReadEntry | src/ubbd_req.c:701 | a read through the entry pointer gives the completion taken iff the backend has not been around since |
| Completion.CompletionRing.FinishEntry | src/ubbd_req.c:700-712 | the last read and the end of the request it names, in place |
| Device.HandshakeStep | src/ubbd_dev.c:582-616 | every step keeps the INTRANS handshake |
| Device.DiskDeletedAtMostOnce | src/ubbd_dev.c:996-1012 | over every run: del_gendisk calls <= add_disk successes <= 1 |
| Device.DeleteFollowsAdd | src/ubbd_dev.c:1003-1011 | the disk is deleted by one removal only, after add_disk succeeded and INTRANS cleared |
| Device.RemovalIsFinal | src/ubbd_dev.c:589-595 | an add work that comes after a removal never adds the disk |
| Device.ReferencesStep | src/ubbd_dev.c:20-40 | every step keeps the count equal to its holders |
| Device.ReferencesConserved | src/ubbd_nl.c:202-304 | over every run kref = holders; a listed device is alive and was never destroyed |
| Device.RemovalGoesAheadUnlessBusy | src/ubbd_nl.c:271-279 | asked to remove a disk nobody is removing, the driver can get to REMOVING iff it is forced or the disk is not open |
| Device.UnforcedSparesOpenDisk | src/ubbd_nl.c:271-279 | an open disk survives every run without close, timeout or forced removal, however often removal is asked for |
| Device.ForcedRemovalGoesAhead | src/ubbd_dev.c:996-1012 | a forced removal leads to REMOVING from every reachable state |
| Device.AddTakesEffect | src/ubbd_dev.c:582-616 | asked to add a disk that is not running, the driver can get it running iff the device is PREPARED |
| Device.RemoveDevTakesEffect | src/ubbd_dev.c:765-789 | remove-dev unlists the device, which can then be destroyed, iff its disk is not running |
| Device.HoldersCanLetGo | src/ubbd_dev.c:30-40 | no reference is leaked: a removed device that is still held can be destroyed |
| Device.DestroyedOnceWhenUnheld | src/ubbd_dev.c:765-789 | after remove-dev every continuation destroys the device once, exactly when its last holder leaves, iff the removal was not hazardous |
| Device.DestructionIsFinal | src/ubbd_dev.c:30-40 | a device nobody holds stays so in every continuation iff its disk is gone |
| Device.RemoveDevSafety | src/ubbd_dev.c:765-789 | freeing the disk is safe in every continuation iff no add waits for PREPARED and no delete is outstanding |
| Device.HazardIsReachable | src/ubbd_dev.c:765-789 | a concrete run reaches a hazardous removal |
| Device.DestroyedTwiceIsReachable | src/ubbd_dev.c:582-616 | a concrete run that removes the device before its add work, and destroys it twice |
| Notify.EventsFollowPublications | src/ubbd_req.c:512-519 | published - events = workers about to notify |
| Notify.CounterHidesWholeTurns | src/ubbd_kring.c:234 | the 32-bit comparison misses exactly multiples of 2^32 |
| Notify.LevelListenerSawEverything | src/ubbd_kring.c:228-239 | a listener level with its device's counter has been told of every published command of the queue |
| Notify.KringDevice.EventNotify | src/ubbd_kring.c:130-136 | counts one event, and follows the queue's notify step |
| Notify.Listener.Poll | src/ubbd_kring.c:228-239 | readable iff behind, then level |
| Notify.Listener.Read | src/ubbd_kring.c:241-294 | the first round that is gone, has news or ends the wait decides, in that order; only a successful copy acknowledges |
| Netlink.StatusMsgSize | src/ubbd_nl.c:40-53 | the loop sums the queues' sizes |
| Netlink.QueuesCovered | src/ubbd_nl.c:17-36 | the sizes computed for the queues cover the bytes they take |
| Netlink.Reply.FillQueueItem | src/ubbd_nl.c:306-331 | exactly the queue's attributes in order, every CPU included, and exactly their bytes |
| Netlink.StatusReply | src/ubbd_nl.c:387-465 | for every device the reply is complete, attribute by attribute, and no put, checked or not, runs out of room |
| Netlink.AddDevReply | src/ubbd_nl.c:56-111 | likewise for the reply to adding a device |

## Left out

- Redirection of a stopped queue's hardware context to a running queue: the lookup precedes the status change and may return the same queue.
- QueueIdle.IdleRingIsEmpty: runs without forced removal only; `QueueIdle.SettledRingIsEmpty` is the statement for every run.
- Sleeping and waking of a reader beyond the rounds of its loop, and the write side of the kring device.
- Use of a device by a timeout that outlives it: timeouts hold no reference, and freed device memory is not modelled.
- Double-queued add-disk work, `ubbd_dev_add_dev`'s own error paths and the contents of `struct gendisk`.
- Mapping a kring device that has no holder any more, and exclusive backend attachment.
- gendisk, blk-mq and queue-limit setup, character device and sysfs registration, debugfs contents, netlink parsing, request statistics, fault injection, build and packaging: thin wrappers over kernel services, without a property of their own.
- Cache flushes, memory barriers and kmap; bit packing of the entry header; the offset and length fields of an entry.
