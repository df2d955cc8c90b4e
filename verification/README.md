# Archipelago kernel: verified models

Archipelago is a capability kernel for x86_64 and riscv64 with a small user-space runtime. This
project models the parts of it where state, concurrency or arithmetic make the code hard to trust by
reading, and proves what those parts promise: to every input where the code is sequential, and over
every interleaving where it is not. Nothing here runs the kernel.

`dafny verify dfyconfig.toml` checks everything.

## How the models are built

Code that many threads or cores run at once is a transition system over values. A step is one locked
block or one atomic access, a run is any sequence of steps of any parties, and the theorems are about
every state any run reaches. Code that one caller runs at a time, or under one lock from start to end,
is a class with the source's fields, whose methods have the source's loops and branches, each proved
against a specification. Outcomes the code cannot decide for itself (an allocation, a clock, a message
that arrives) are parameters, so a theorem holds however they fall.

| files | part of the kernel |
|---|---|
| `LogRing` | the lock-free log ring |
| `SchedModel`, `SchedInv`, `SchedSteps`, `SchedCores`, `SchedSafety`, `SchedTheorems`, `SchedWake` | the scheduler, wait queues, deadlines, kill, mutexes and the reaper, on any number of cores |
| `SchedLoops` | the loops of that code: queue rotation, batched wakes, the tick's scans |
| `PageTree`, `PageHalf`, `PageTable` | radix page tables and the address space that builds them |
| `PteCodec`, `PteWords` | page-table entries as 64-bit words on both architectures |
| `RegionTree`, `Vm` | regions, bindings, memory objects and the demand-fault handler |
| `Pmm` | the page frame allocator and its descriptors |
| `PartialList`, `SlabPage`, `SlabHeap`, `ObjectArena` | the kernel heap and the object arenas |
| `HandleTable` | handles with generations |
| `Escrow`, `EscrowTheorems`, `EscrowReach`, `EscrowReceive` | handles that travel in channel messages |
| `EscrowWatch`, `EscrowKnot`, `EscrowStranded`, `EscrowStuck` | the same with ports that watch channels and each other: what keeps what alive, and what stays queued for ever |
| `Pairs` | channel and socket pairs: queues, byte rings and signals |
| `PortModel`, `PortRace`, `PortPackets` | ports, bindings, packets and cascading notification: one thread at a time, and all of them at once |
| `Lockdep` | the lock-order checker |
| `Malloc` | the user-space allocator |
| `Coordinator` | the service coordinator |
| `Basics` | what several of them share |

## Main results

- **Log ring.** `LogRing.RingSafety`: after any interleaving of producers and drainers, no slot is in
  use by two parties, and what was emitted is what was published, in order. `LogRing.ForEach`: the
  history scan shows exactly the retained messages if and only if no producer is half way through
  claiming a recycled slot.
- **Scheduler.** `SchedTheorems.OneHolder`, `OneCorePerThread`, `FreedIsUntouched`,
  `KilledIsNeverStuck`, `DeadlinesAreWatched`: in every run a thread that does not run is in one place
  of the kind its state says, runs on one core, is never freed under a core's feet, is never left
  asleep by a kill, and no parked deadline goes unwatched. `SchedWake.NoLostSignal`, `NoLostUnlock`,
  `NoLostKick`: no wake-up is ever lost.
- **Address spaces.** `PageTable.Aspace.MapPage`, `UnmapPage`, `WalkExt`, `Init`, `Destroy`: the tables
  refine a map from pages to leaves. A map changes one page's translation or none, its failure gives
  back every frame, and a destroy frees every table of the user half once and no other.
  `PageHalf.MappableLow` says exactly when a map of a user page succeeds, and `PageHalf.UserSeen` that
  the x86_64 walker lets users at exactly the pages mapped for them. `PteWords.WalkAgrees`: the walk
  over the words in memory is the model's walk.
- **Virtual memory.** `RegionTree.FindUnique`: no address has two bindings. `Vm.Space.HandleFault`: a
  resolved fault does not fault again, a forbidden one changes nothing, and a fault raised against the
  current translations is resolved exactly when there is memory. `Vm.Space.Unmap`, `MapAnywhere`,
  `CreateChild` change exactly what they say; `Vm.FramesPrivate` and `Vm.Space.Store`: what a program
  writes is seen through no other object's page.
- **Frames.** `Pmm.Allocator.Alloc`, `AllocContiguous`, `Release`, `ZeroOnePage`: frames handed out are
  zero and in no pool, frames are conserved, `Release` stops the kernel exactly for a described frame
  that is in a pool or was handed out before the descriptors were set up, and the pools stay sound
  exactly when no frame without a descriptor is freed twice.
- **Heaps.** `SlabHeap.Heap.Alloc`/`Free`, `ObjectArena.Arena.Alloc`/`Free`: live blocks are aligned,
  inside their pages and disjoint; a bad pointer stops the kernel and a live one never does; a page is
  listed exactly when it has room (`SlabHeap.ListedIffRoom`, `ObjectArena.ListedIffRoom`).
  `Malloc.Heap.Allocate`/`Free`: first fit over an address-ordered ring that loses no cell.
- **Handles.** `HandleTable.Table.Create`, `Take`, `HandleTable.DeadForever`: an id is never given out
  twice and a dead id stays dead. `EscrowTheorems.Conserved`, `EndToEnd`, `InOrder`,
  `AllThatWasAsked`: over every run of senders and receivers a handle is in one place, arrives with the
  object and rights it was made with, and messages arrive whole and in order.
  `EscrowReceive.ReceivableIffReached`: a queued handle can still be received exactly when its queue
  can be reached, through queues, from an endpoint a task or a thread holds. `EscrowStuck.StuckExactly`:
  a handle stays in the kernel in every future exactly when its message waits in a knot of queues and
  ports that keep each other alive and that nobody can come by. `EscrowWatch.RunsBelow`: ports add no
  behaviour to the tables and queues, so what holds of every run without them holds with them.
- **Ports.** `PortModel.PortSystem.SignalSet`: after any cascade the queued bindings are exactly the
  ones that saw an edge, and a port is readable exactly when it has packets. `PortRace.NeverLeftLow`,
  `NoLostEdge`: with any number of notifiers, binders and consumers at once, a port with packets is
  readable or has a producer still to raise it, and every edge is queued or has a scan still to come.
  `PortPackets.QueuedAgain`, `StaleExactly`, `EverUp`: when one transition is reported twice, when a
  packet reports a signal that is not up, and that it never reports one that was not.
- **Lock order.** `Lockdep.Checker.LearnEdge`: an order is refused exactly when it would close a cycle
  or there is no room; `Lockdep.NoRing`: locks taken in orders it let through never wait in a ring.
- **Pairs.** `Pairs.SocketWrite`, `SocketRead`: bytes arrive as sent, across page and ring edges;
  `Pairs.Direction.Send`, `Receive` keep the signals telling the truth.
- **Coordinator.** `Coordinator.Broker.ServeConnect`, `HandleMessage`, `ChildGone`,
  `Coordinator.OneReply`: a request is sent one answer, to the child that asked, and it arrives exactly
  when the mailbox takes it; no handle stays behind.

## Findings

Properties one would expect that do not hold of the code. Each has the input that breaks it and, where
there is one, the exact condition under which the code does meet it.

- **A resolved write fault can stop the kernel.** When two cores write-fault on the same zero page, the
  second gets the lock with the page already writable; the handler takes that for corruption and
  panics (`Vm.StaleWritePanics`; the condition is in `Vm.Space.HandleFault`). The check is an assertion:
  in a build with NDEBUG it is compiled out (`includes/kernel/assert.h:7-11`) and the page is mapped
  afresh. The model is of the build that has it.
- **A resolved read fault can be refused.** A not-present fault another core has just served finds the
  page mapped; `map_page` will not replace it, and an access that would now succeed is reported as a
  bad one (`Vm.StaleAbsentRefused`; condition `Vm.Resolvable`, in `Vm.Space.HandleFault`).
- **The history scan can show a message twice over.** Between a producer's stamp and its WRITING mark a
  recycled slot passes every test of the scan with the previous lap's payload
  (`LogRing.HalfClaimHappens`; condition `HalfClaimed`, in `LogRing.ForEach`).
- **A live child can be left without its answer.** The coordinator's reply is sent once; a child that
  does not read has its mailbox filled by the bootstrap message and seven answers, and the answer to
  its eighth request is lost (`Coordinator.FullMailboxUnanswered`; condition
  `Coordinator.AnswerArrives`, in `Coordinator.Broker.ServeConnect`).
- **Handles can be stranded for ever.** Two channels that carry each other's last endpoints keep each
  other alive: no task can receive them and nothing ever closes them (`EscrowStranded.CrossedForEver`).
  So does a port that watches an endpoint and whose only handle waits on that endpoint's queue
  (`EscrowStranded.WatchedForEver`): a binding holds its object. The check in `Channel::write` that is
  meant to prevent such cycles (`obj/channel.cpp:49-54`) looks at endpoints of the same pair only. The
  condition is `EscrowStuck.Stuck`, in `EscrowStuck.StuckExactly`.
- **One transition can deliver two packets.** A notifier scans again after each packet it queues. A
  consumer that takes the packet between two scans has armed the binding again, and the next scan, with
  the same old and new signals, queues it a second time (`PortRace.OneEdgeTwoPackets`; condition in
  `PortPackets.QueuedAgain`: the packet was dequeued, or the binding unbound, and the binding is again the
  first that is due). No edge is lost by it. The comment that the loop converges because a queued binding
  is skipped (`obj/port.cpp:179-181`) holds only while nobody dequeues or unbinds.
- **A packet can report a signal that is not up.** A scan reports the signals of its transition, not those
  of the moment. If they are cleared before it comes to a binding the report is stale, and a binding made
  after the transition is told of what happened before its time (`PortPackets.StalePacket`; condition in
  `PortPackets.StaleExactly`). With one thread this cannot happen (`PortModel.PortSystem.SignalSet`), nor
  to a binding made while no thread is notifying its object (`PortPackets.SinceBound`).
- **A frame handed out early cannot be given back.** The descriptors call every usable frame free,
  those already in use among them, so its release is taken for a double free
  (`Pmm.EarlyFreePanics`; condition in `Pmm.Allocator.Release`). The present boot order
  (`core/boot.cpp:160-178`) allocates nothing between the two steps, so the kernel does not meet this
  today; it is a property of the allocator and the descriptors as they are written.
- **A frame without a descriptor can be freed twice.** The second free goes unnoticed and, if the frame
  is on the dirty stack, leaves a stack that has no end (condition in `Pmm.Allocator.Release`). The code's
  own comment tolerates such frames (`mm/pmm.cpp:54-56`).

Two comments in the source disagree with its code, and the code is followed: `channel.h` describes
WRITABLE in terms of the endpoint's own queue, the code sets it by the queue the endpoint writes to;
and `arch_init`'s remark that only the bootloader creates kernel mappings does not stop `map_page` from
accepting kernel-half addresses, so the model allows them.

## Model

| member | source | states |
|---|---|---|
| `LogRing.RingSafety` | src/sys/kernel/includes/kernel/log_ring.h:42-81 | after any interleaving of any producers and drainers: read and write stay within one capacity, no slot is used by two parties at once (two producers, or a producer and the drainer), at most one party drains, and what was emitted is exactly what was published under sequences 0, 1, 2, ... |
| `LogRing.StepKeeps` | src/sys/kernel/includes/kernel/log_ring.h:42-81 | every single atomic access of every party, from any state of the invariant, leads to a state of the invariant |
| `LogRing.HistoryGrows` | src/sys/kernel/includes/kernel/log_ring.h:42-81 | no later step changes, repeats or withdraws anything published or emitted, and neither index ever goes back |
| `LogRing.RefusedExactly` | src/sys/kernel/includes/kernel/log_ring.h:43-49 | a reservation is refused exactly when the ring is full at the load of the read index, or the drainer has already passed the write index loaded before it |
| `LogRing.ForEach` | src/sys/kernel/includes/kernel/log_ring.h:93-107 | the history scan visits exactly the published messages of the retained window, in order, if and only if no producer is between the stamp and the WRITING mark of a recycled slot; what next it returns |
| `LogRing.RunOwned` | src/sys/kernel/includes/kernel/log_ring.h:42-81 | in every state any run reaches, every sequence claimed and not published belongs to a party inside reserve or its fill, which is what the history scan relies on |
| `LogRing.HalfClaimHappens` | src/sys/kernel/includes/kernel/log_ring.h:51-56 | that window is real: from any ring that went round once and is not full, five accesses of one idle producer reach it |
| `SchedSafety.StepKeeps` | src/sys/kernel/task/scheduler.cpp:36-145 | every step of every core, of the tick, of the kill scan and of spawn keeps the scheduler's invariant |
| `SchedSafety.RunKeeps` | src/sys/kernel/task/scheduler.cpp:234-308 | the invariant holds in every state of every run from boot |
| `SchedTheorems.OneHolder` | src/sys/kernel/task/scheduler.cpp:36-145 | in every run a thread that does not run is held in at most one place, of the kind its state says, in a list that names it once; a ready thread that is not idle and a blocked thread are held somewhere |
| `SchedTheorems.OneCorePerThread` | src/sys/kernel/task/scheduler.cpp:67-145 | in every run a thread is current on at most one core, on_cpu covers exactly the current and the still-switching threads, and what a core has picked is on no cpu until it switches to it |
| `SchedTheorems.FreedIsUntouched` | src/sys/kernel/task/reaper.cpp:28-48 | in every run the reaper frees a thread only when no core is on it, and no later step touches a freed thread |
| `SchedTheorems.KilledIsNeverStuck` | src/sys/kernel/task/user_task.cpp:324-345 | in every run a killed thread is never asleep and never parked on a signal wait, whatever it does after the scan passed it |
| `SchedTheorems.KillFrees` | src/sys/kernel/task/user_task.cpp:329-344 | the kill scan makes a sleeping or parked thread ready; a blocked thread it leaves is already in a waker's hands |
| `SchedTheorems.DeadlinesAreWatched` | src/sys/kernel/task/sleep.cpp:94-128 | in every run a parked deadline wait has its registry entry naming the queue its node is in, and a registry entry's node is live |
| `SchedTheorems.ExpiryFrees` | src/sys/kernel/task/sleep.cpp:111-128 | the expiry scan at or after the deadline frees the waiter |
| `SchedWake.NoLostSignal` | src/sys/kernel/task/wait_queue.cpp:143-198 | in every run a thread parked on an object with a wanted signal set has a signaller that is not blocked and has still to scan for it |
| `SchedWake.NoLostUnlock` | src/sys/kernel/task/sync/mutex.cpp:26-56 | in every run a free mutex with waiters has a thread off every queue that will take it or wake a waiter |
| `SchedWake.NoLostKick` | src/sys/kernel/task/reaper.cpp:50-78 | in every run, when the reaper is parked and a zombie waits, a dying thread still on its core has the kick ahead of it |
| `SchedLoops.PopReadyIs` | src/sys/kernel/task/scheduler.cpp:36-46 | the oldest thread whose core has let go of it leaves the queue; the skipped ones go behind the ones never looked at, both in their old order |
| `SchedLoops.RunQueue.Pop` | src/sys/kernel/task/scheduler.cpp:36-46 | the rotating loop is that function, for every queue and every set of threads on a cpu |
| `SchedLoops.WaitQueue.TakePlain` | src/sys/kernel/task/wait_queue.cpp:92-104 | wake_one takes the first waiter with an empty mask and no other |
| `SchedLoops.WaitQueue.CollectBatch` | src/sys/kernel/task/wait_queue.cpp:106-130 | one locked pass of wake_matching is the collection the transition system takes as one step |
| `SchedLoops.WaitQueue.WakeMatching` | src/sys/kernel/task/wait_queue.cpp:106-130 | over all its passes wake_matching takes every matching waiter and no other, counts them, and makes each ready once |
| `SchedLoops.Sleepers.WakeDue` | src/sys/kernel/task/sleep.cpp:65-75 | the swap-remove loop wakes exactly the due sleepers, each once |
| `SchedLoops.Sleepers.WakeThread` | src/sys/kernel/task/sleep.cpp:79-88 | the early wake finds the thread if it sleeps, removes one entry and makes it ready |
| `SchedLoops.TimedWaits.WakeDue` | src/sys/kernel/task/sleep.cpp:111-128 | an entry leaves the registry exactly when it is due and its node still holds the thread; those threads and no others are made ready |
| `PageTree.IndexOfLevel` | src/sys/kernel/mm/paging.cpp:32-32 | the path of an address holds, level by level, the nine bits the code takes out of it |
| `PageTree.CanonicalPages` | src/sys/kernel/mm/paging.cpp:34-40 | of canonical addresses no two different pages share a path, on both architectures |
| `PageTree.DropUndoesAdd` | src/sys/kernel/mm/paging.cpp:74-79 | taking down a table just hung gives back the memory as it was |
| `PageTree.AddInvisible` | src/sys/kernel/mm/paging.cpp:72-84 | hanging a blank table changes no translation |
| `PageTree.CloneWalks` | src/sys/kernel/mm/paging.cpp:160-174 | a new root resolves the kernel half as the old one does and nothing in the user half |
| `PageHalf.MappableLow` | src/sys/kernel/mm/paging.cpp:214-237 | for a user-half address map_page succeeds exactly when both addresses are aligned, reads are allowed, nothing is mapped there and there are frames for the missing tables |
| `PageHalf.UserSeen` | src/sys/kernel/x86_64/paging.cpp:31-37 | on x86_64 the walker's conjunction of user bits along a user-half path is exactly the leaf's user bit |
| `PageTable.Aspace.constructor` | src/sys/kernel/mm/paging.cpp:158-158 | an address space starts without tables of its own |
| `PageTable.Aspace.EnsureLeafTable` | src/sys/kernel/mm/paging.cpp:62-91 | the walk hangs the missing tables or, when it cannot get down, undoes what it hung and gives back every frame; either way no translation changes |
| `PageTable.Aspace.MapPage` | src/sys/kernel/mm/paging.cpp:214-237 | it succeeds exactly when the request is well formed, the slot can be reached and is vacant; then exactly this page's translation changes, to the address and attributes given; otherwise none does and no frame is lost |
| `PageTable.Aspace.UnmapPage` | src/sys/kernel/mm/paging.cpp:258-274 | it takes out exactly this page's translation and hands back its address, or changes nothing |
| `PageTable.Aspace.WalkExt` | src/sys/kernel/mm/paging.cpp:239-256 | the walk answers the translation the tables stand for, large pages included, and on x86_64 the user bit it reports is the one the hardware enforces |
| `PageTable.Aspace.FindLeafTable` | src/sys/kernel/mm/paging.cpp:95-105 | the bottom table is found exactly when there is one |
| `PageTable.Aspace.ResolvePath` | src/sys/kernel/mm/paging.cpp:114-130 | the loop over levels is the recursive walk |
| `PageTable.Aspace.FreeSubtree` | src/sys/kernel/mm/paging.cpp:48-57 | every table under the entry goes back to the allocator, once each, and no other frame |
| `PageTable.Aspace.Init` | src/sys/kernel/mm/paging.cpp:160-174 | one frame is taken; the new space has the active kernel half and an empty user half, and the active space is unchanged |
| `PageTable.Aspace.Destroy` | src/sys/kernel/mm/paging.cpp:200-212 | every user-half table and the root go back to the allocator, once each; the shared kernel half is not touched |
| `PteCodec.LeafRvReadsBack` | src/sys/kernel/riscv64/paging.cpp:48-86 | a riscv64 leaf reads back with its attributes and the address bits an entry holds, exactly when some access is allowed; without one it reads back as a pointer |
| `PteCodec.LeafRvExact` | src/sys/kernel/riscv64/paging.cpp:38-39 | the whole address survives exactly when it has no bit an entry cannot hold |
| `PteCodec.LeafX86ReadsBack` | src/sys/kernel/x86_64/paging.cpp:39-63 | an x86_64 leaf reads back with the address bits an entry holds, every page readable and write-combining as device |
| `PteCodec.LeafX86Exact` | src/sys/kernel/x86_64/paging.cpp:39-39 | the whole address survives exactly when it has no bit an entry cannot hold |
| `PteCodec.TableX86ReadsBack` | src/sys/kernel/x86_64/paging.cpp:33-35 | an x86_64 table pointer carries the user bit of the mapping it was made for |
| `PteCodec.WidenX86Adds` | src/sys/kernel/x86_64/paging.cpp:37-37 | widening keeps where a pointer points and only adds user access |
| `PteCodec.SetAddrRvMoves` | src/sys/kernel/riscv64/paging.cpp:53-53 | retargeting a riscv64 pointer changes its address and nothing else |
| `PteCodec.SetAddrX86Moves` | src/sys/kernel/x86_64/paging.cpp:29-29 | retargeting an x86_64 pointer changes its address and nothing else |
| `PteWords.Binary` | src/sys/kernel/riscv64/paging.cpp:38-39 | read as binary numbers, what an entry keeps of a page address is the remainder the page-table model stores, on both architectures |
| `PteWords.WalkAgrees` | src/sys/kernel/mm/paging.cpp:114-130 | the walk over the words in memory ends where the model's walk ends, at a word that means its entry |
| `PteWords.StoreAgrees` | src/sys/kernel/mm/paging.cpp:232-232 | storing a word into a table is storing the entry it means |
| `PteWords.HangAgrees` | src/sys/kernel/mm/paging.cpp:72-82 | hanging a cleared frame by the word the code builds is the model's new table |
| `PteWords.LeafEntry` | src/sys/kernel/mm/paging.cpp:214-232 | the word map_page builds for an aligned address means the model's leaf |
| `PteWords.WidenEntry` | src/sys/kernel/mm/paging.cpp:85-87 | the word widen_table_ptr leaves means the same pointer, open to users if either mapping is for them |
| `RegionTree.FindUnique` | src/sys/kernel/mm/region.cpp:177-182 | no address has two bindings: the search from the root finds any binding that contains it |
| `RegionTree.FindSound` | src/sys/kernel/mm/region.cpp:177-182 | a binding found is one that is there and contains the address |
| `RegionTree.NeverMoreThanAbove` | src/sys/kernel/mm/region.cpp:38-57 | what a binding allows, every region around it allows |
| `RegionTree.OneLookEnough` | src/sys/kernel/mm/region.cpp:38-57 | looking at one neighbour decides whether a range is free among all siblings |
| `RegionTree.UnderInside` | src/sys/kernel/mm/region.cpp:76-88 | however deep, a region lies inside every region above it, in the same address space |
| `Vm.FindGap` | src/sys/kernel/mm/region.cpp:96-116 | the gap search gives the lowest place at or above the floor that fits, or none exactly when there is none |
| `Vm.Space.constructor` | src/sys/kernel/mm/vm_aspace.cpp:31-42 | the virtual memory of a machine with no address space yet: no region, object, frame or translation |
| `Vm.Space.NewSpace` | src/sys/kernel/mm/vm_aspace.cpp:31-42 | an address space starts with an empty root region over the whole user range, and nothing of the other spaces changes |
| `Vm.Space.InsertSlot` | src/sys/kernel/mm/region.cpp:38-57 | a slot is refused for the first of the reasons the code checks, judged against all siblings, or goes in and nothing else changes |
| `Vm.Space.RemoveSlot` | src/sys/kernel/mm/region.cpp:59-68 | the slot goes with everything under it and exactly the translations of its range |
| `Vm.Space.MapLocked` | src/sys/kernel/mm/region.cpp:128-152 | a map succeeds exactly when the slot is welcome, the binding lies inside its object and there is memory; a map that fails changes nothing |
| `Vm.Space.MapAnywhere` | src/sys/kernel/mm/region.cpp:96-116 | the binding goes into the lowest gap that fits at or above the floor; exhausted exactly when there is none |
| `Vm.Space.CreateChild` | src/sys/kernel/mm/region.cpp:76-88 | a sub-region is carved within its parent's range and rights, or nothing changes |
| `Vm.Space.UnmapBinding` | src/sys/kernel/mm/region.cpp:118-126 | the direct binding over the address goes with its translations; not found exactly when there is none |
| `Vm.Space.Unmap` | src/sys/kernel/mm/region.cpp:154-175 | every slot inside the range goes with its subtree and translations, every other region is exactly as it was; a range that cuts a slot is an error and changes nothing |
| `Vm.Space.ClearChildren` | src/sys/kernel/mm/region.cpp:34-36 | everything below the region goes and no translation is left in it |
| `Vm.Space.FillPage` | src/sys/kernel/mm/vmo.cpp:60-77 | a page without a frame gets one of its own, and no page's contents change |
| `Vm.Space.ResolveCow` | src/sys/kernel/mm/fault.cpp:17-27 | zero-page sharing is broken: the object's own page is mapped with the binding's protection |
| `Vm.Space.HandleFault` | src/sys/kernel/mm/fault.cpp:31-79 | for every fault: resolved, refused and panicked each exactly when; a resolved fault does not fault again, a forbidden one changes nothing, and one raised against the current translations never panics |
| `Vm.StaleWritePanics` | src/sys/kernel/mm/fault.cpp:61-66 | the input on which a fault another core resolved first stops the kernel |
| `Vm.StaleAbsentRefused` | src/sys/kernel/mm/fault.cpp:69-78 | the input on which a permitted access another core mapped first is refused |
| `Vm.Space.Commit` | src/sys/kernel/mm/vmo.cpp:86-94 | populating a range changes no translation and no contents |
| `Vm.Space.Store` | src/sys/kernel/mm/fault.cpp:31-79 | a program's write goes through exactly when the translation allows it, lands in the binding's own object page, and no other anonymous page sees it |
| `Vm.SeesContent` | src/sys/kernel/mm/fault.cpp:31-79 | a translation shows its object's page, except exactly that one made before the page was filled still shows zeroes |
| `Vm.FramesPrivate` | src/sys/kernel/mm/vmo.cpp:60-77 | no two object pages have the same allocator frame |
| `Vm.Space.NewVmo` | src/sys/kernel/mm/vmo.cpp:13-16 | a new object has no resident page and no binding, and nothing else changes |
| `Vm.Space.DropVmo` | src/sys/kernel/mm/vmo.cpp:18-37 | an object nothing binds goes with exactly its frames |
| `Pmm.FrameStack.Push` | src/sys/kernel/mm/pmm.cpp:36-40 | the frame heads the stack threaded through the free frames |
| `Pmm.FrameStack.Pop` | src/sys/kernel/mm/pmm.cpp:42-50 | the head comes off and its link word is zero again |
| `Pmm.Allocator.Alloc` | src/sys/kernel/mm/pmm.cpp:15-34 | the first zeroed frame, else the first dirty one, else the last untouched one, zero all through and in no pool any more; none exactly when nothing is free; no other frame changes hands or contents |
| `Pmm.Allocator.Release` | src/sys/kernel/mm/pmm.cpp:52-66 | the frame goes to the dirty pool; the kernel stops exactly for a described frame that is in a pool already or was handed out before the descriptors; the pools stay sound exactly when the frame was in none or was caught, and a dirty frame freed again without a descriptor leaves a stack with no end |
| `Pmm.Allocator.AllocContiguous` | src/sys/kernel/mm/pmm.cpp:68-105 | a zeroed run off the end of one extent, none of it pooled afterwards; none exactly when no extent is long enough |
| `Pmm.Allocator.PopFreePage` | src/sys/kernel/mm/pmm.cpp:107-125 | the first dirty frame, else the last frame of the last extent that has one; none exactly when both are empty; no other frame changes hands |
| `Pmm.Allocator.ZeroOnePage` | src/sys/kernel/mm/pmm.cpp:131-159 | one more free frame is zeroed, none changes hands; no work exactly when every free frame is zero |
| `Pmm.Allocator.AddRegion` | src/sys/kernel/includes/kernel/mm/pmm.h:48-52 | a region's frames join the pools, or the region is dropped and the count with it |
| `Pmm.Allocator.InitDescriptors` | src/sys/kernel/mm/page_descriptor.cpp:13-45 | once, in frames of its own: every frame below the top gets a descriptor, free exactly if usable and neither wired nor the array's |
| `Pmm.Allocator.Pin` | src/sys/kernel/mm/vm_aspace.cpp:68-72 | a frame in use is wired for good, as the zero page is; it is no longer one of the early frames and no other descriptor changes |
| `Pmm.EarlyFreePanics` | src/sys/kernel/mm/page_descriptor.cpp:37-41 | the run in which a frame handed out before the descriptors cannot be given back |
| `SlabPage.SlotsApart` | src/sys/kernel/mm/slab_heap.cpp:84-100 | two slots of a page never overlap |
| `SlabHeap.ClassFor` | src/sys/kernel/mm/slab_heap.cpp:23-28 | the smallest size class that holds this many bytes |
| `SlabHeap.Heap.Alloc` | src/sys/kernel/mm/slab_heap.cpp:102-132 | the block was not live, is aligned and of the smallest class that will do, and no other block changes hands; the offered page is taken exactly when no page of that class has room, and exhausted exactly when there is none to take; refused and large exactly when |
| `SlabHeap.Heap.TakeSlot` | src/sys/kernel/mm/slab_heap.cpp:84-100 | a slot from the free list or the next uncarved one; the page leaves its list exactly when that was the last |
| `SlabHeap.Heap.Free` | src/sys/kernel/mm/slab_heap.cpp:184-232 | a pointer that is no live block's stops the kernel and a live one's never does; the block is free, no other block changes hands, and an empty page goes back unless it is its class's only page with room |
| `SlabHeap.Heap.Scribble` | src/sys/kernel/mm/slab_heap.cpp:84-100 | what a program writes to its own block, the free-list link included, disturbs no page, list or block |
| `SlabHeap.BlocksApart` | src/sys/kernel/mm/slab_heap.cpp:84-132 | live blocks lie inside their pages, after the header, pairwise disjoint |
| `SlabHeap.ListedIffRoom` | src/sys/kernel/mm/slab_heap.cpp:73-100 | a page is on a list exactly when the list is its class's and a slot of it is free |
| `SlabHeap.SlotAligned` | src/sys/kernel/mm/slab_heap.cpp:102-112 | a slot of a class at least as big as the alignment is aligned |
| `ObjectArena.Solve` | src/sys/kernel/mm/object_arena.cpp:42-65 | the solver finds the largest number of slots whose bitmap and slots fit a page |
| `ObjectArena.MakeArena` | src/sys/kernel/mm/object_arena.cpp:42-65 | an arena with the most slots a page can hold; none exactly when the alignment is not allowed or not even one slot fits |
| `ObjectArena.Arena.Alloc` | src/sys/kernel/mm/object_arena.cpp:109-131 | a zero slot, not live before, and no other slot changes hands; the offered page is taken exactly when no page has room, and none is given exactly when there is none to take |
| `ObjectArena.Arena.TakeSlot` | src/sys/kernel/mm/object_arena.cpp:94-107 | the lowest free slot of a page with room; the panic for a page without one is never reached |
| `ObjectArena.Arena.Free` | src/sys/kernel/mm/object_arena.cpp:133-171 | a pointer that is no live object's stops the kernel and a live one's never does; the slot is scrubbed, a page that was full is listed again, an empty one goes back |
| `ObjectArena.Arena.Store` | src/sys/kernel/mm/object_arena.cpp:94-107 | what a program writes to its own object changes no other slot |
| `ObjectArena.ObjectsApart` | src/sys/kernel/mm/object_arena.cpp:94-131 | live objects are aligned, inside their pages, pairwise disjoint |
| `ObjectArena.ListedIffRoom` | src/sys/kernel/mm/object_arena.cpp:86-107 | a page is on the list exactly when it has a free slot |
| `HandleTable.Table.constructor` | src/sys/kernel/includes/kernel/obj/handle_table.h:52-52 | a table starts empty with no id given out |
| `HandleTable.Table.Grow` | src/sys/kernel/obj/handle_table.cpp:13-35 | new slots join the free list in ascending order, as many as there is memory for; no id changes |
| `HandleTable.Table.Create` | src/sys/kernel/obj/handle_table.cpp:37-65 | the id is one no table user was ever given, names exactly this capability, and no other id changes |
| `HandleTable.Table.Take` | src/sys/kernel/obj/handle_table.cpp:121-153 | exactly the live id's capability leaves the table and the id is dead; a slot that ran out of generations is never used again |
| `HandleTable.Table.Verify` | src/sys/kernel/obj/handle_table.cpp:155-164 | lookup, then type, then rights, and the first failure is the answer |
| `HandleTable.Table.Duplicate` | src/sys/kernel/obj/handle_table.cpp:103-119 | the copy is a new id that names the same object with the source's rights cut to the mask; each refusal exactly when |
| `HandleTable.Table.ClearNext` | src/sys/kernel/obj/handle_table.cpp:71-101 | one locked block of clear closes the next live entry and no other |
| `HandleTable.Table.Rebuild` | src/sys/kernel/obj/handle_table.cpp:88-101 | the free list ends as the dead slots below the last generation, ascending, and no id comes back to life |
| `HandleTable.DeadForever` | src/sys/kernel/obj/handle_table.cpp:37-153 | once dead, an id is dead for the rest of the table's life, however often its slot is used again |
| `HandleTable.PackRoundTrip` | src/sys/kernel/includes/kernel/obj/handle_table.h:26-34 | a packed handle unpacks to itself and never has its sign bit set |
| `Escrow.StepKeeps` | src/sys/kernel/syscalls/channel.cpp:44-135 | every locked block of every sender, receiver, close and teardown keeps the books of handles, messages, threads and queues |
| `Escrow.RunKeeps` | src/sys/kernel/syscalls/channel.cpp:44-135 | the books are right in every state of every run from the empty system |
| `EscrowTheorems.Conserved` | src/sys/kernel/syscalls/channel.cpp:44-135 | over every run a handle that was made is under one id of one table, or in one thread's hand, or closed, and never in two places |
| `EscrowTheorems.Names` | src/sys/kernel/obj/channel.cpp:55-75 | every live id of the kernel's table is named by exactly one message, which is in one thread's hands, on one queue, or being taken apart |
| `EscrowTheorems.TakeNeverFails` | src/sys/kernel/syscalls/channel.cpp:121-132 | a receiver's take of an escrowed id, and the close of one when a message dies, never fails: the ids a message names are live and its own |
| `EscrowTheorems.InOrder` | src/sys/kernel/obj/channel.cpp:101-151 | messages leave a queue in the order they joined, none skipped, and none is thrown away while either end lives |
| `EscrowTheorems.NoDeadEnds` | src/sys/kernel/obj/channel.cpp:61-118 | nothing refers to a destroyed endpoint and no queue holds a handle to its own channel |
| `EscrowTheorems.GrantsLast` | src/sys/kernel/syscalls/channel.cpp:83-132 | however often it is moved, a handle has the object and rights it was made with; once closed it is never anywhere again |
| `EscrowTheorems.EndToEnd` | src/sys/kernel/syscalls/channel.cpp:83-132 | the entry that leaves the sender's table for the k-th handle of a message is the entry the receiver's table gets for it |
| `EscrowTheorems.AllThatWasAsked` | src/sys/kernel/syscalls/channel.cpp:83-92 | a queued message holds an entry for every id its sender named, in that order |
| `EscrowReach.NeverReceived` | src/sys/kernel/obj/channel.cpp:101-151 | what waits on a queue that cannot be reached from any task or receiving thread, not even by way of messages still being sent, is brought into a task's table by no run |
| `EscrowReceive.CanBeReceived` | src/sys/kernel/syscalls/channel.cpp:96-135 | what waits on a queue that can be reached through queues is brought into a task's table by some run, whatever other threads are in the middle of |
| `EscrowReceive.ReceivableIffReached` | src/sys/kernel/obj/channel.cpp:61-151 | in every reachable state: reached through queues implies receivable, receivable implies reached through queues and messages under way, and with no send half done the two kinds of reach are one, so a queued handle can be received if and only if its queue is reached |
| `EscrowWatch.TurnKeeps` | src/sys/kernel/obj/port.cpp:18-148 | every step of tasks, threads and messages, of binding, unbinding and waiting, of taking bindings apart and of ending ports keeps the books: no endpoint and no port that a handle, a binding or a call refers to is destroyed |
| `EscrowWatch.TurnsFromStart` | src/sys/kernel/syscalls/port.cpp:18-53 | the books are right in every state of every run from the empty system |
| `EscrowWatch.RunsBelow` | src/sys/kernel/includes/kernel/obj/port.h:14-32 | a run with ports is a run of the tables and queues alone with the steps of ports left out |
| `EscrowKnot.KnotForEver` | src/sys/kernel/obj/channel.cpp:61-118 | endpoints and ports that nobody has or can come to have, each kept by a queue or a binding of others of them, stay so and undestroyed for ever, whatever tasks, threads and ports do |
| `EscrowStranded.CrossedForEver` | src/sys/kernel/obj/channel.cpp:61-118 | a run that ties such a knot: two pairs, each sent over the other, the rest closed; no thread busy, no message dying, no task holds anything |
| `EscrowStranded.WatchedForEver` | src/sys/kernel/includes/kernel/obj/port.h:14-32 | another: a port bound to an endpoint and then sent to that endpoint's queue, the rest closed; the port, its handle and the endpoint are there for good |
| `EscrowKnot.Buried` | src/sys/kernel/obj/channel.cpp:55-59 | taking a dead message apart closes its handles, first to last, and moves nothing else |
| `EscrowStuck.StuckExactly` | src/sys/kernel/obj/channel.cpp:61-151 | in every reachable state with no send half done, a queued handle stays in the kernel in every future if and only if its queue is out of reach and in a knot: queues out of reach and ports out of hand that keep each other's endpoints and ports alive |
| `EscrowStuck.StuckStays` | src/sys/kernel/obj/channel.cpp:61-118 | a handle queued in such a knot is in the kernel's table after any run |
| `EscrowStuck.Frees` | src/sys/kernel/obj/channel.cpp:55-151 | outside such a knot some run of receives, unbinds, closes and destroys takes the handle out of the kernel's table |
| `EscrowStuck.ObtainableIffReached` | src/sys/kernel/syscalls/channel.cpp:96-135 | with ports too, a queued handle can be received if its queue is reached through queues, and only if it is reached so or through messages under way; the same thing while no send is half done |
| `Pairs.Direction.Send` | src/sys/kernel/obj/channel.cpp:101-118 | the message joins the peer's queue, or peer-closed and capacity-exhausted each exactly when; the signals say what the queue is |
| `Pairs.Direction.Receive` | src/sys/kernel/obj/channel.cpp:120-151 | the front message comes off even when it does not fit; would-block and peer-closed each exactly when |
| `Pairs.Direction.Put` | src/sys/kernel/obj/socket.cpp:75-97 | a prefix of the bytes joins the ring, all of them or until it is full; the errors each exactly when |
| `Pairs.Direction.Get` | src/sys/kernel/obj/socket.cpp:99-122 | the front bytes come off, as many as asked or all; the errors each exactly when |
| `Pairs.Pair.Destroy` | src/sys/kernel/obj/socket.cpp:65-73 | the peer can no longer write, is told so, and can still read what was sent |
| `Pairs.SocketWrite` | src/sys/kernel/syscalls/socket.cpp:43-68 | what is accepted is a prefix of what was offered across page edges, short only when the ring is full; out-of-range and peer-closed each exactly when |
| `Pairs.SocketRead` | src/sys/kernel/syscalls/socket.cpp:70-93 | what is delivered is the front of what was buffered, laid out in order from the offset, and no other byte of the buffer changes |
| `PortModel.PortSystem.Create` | src/sys/kernel/includes/kernel/obj/port.h:40-60 | a new port has no packet and is not readable |
| `PortModel.PortSystem.SignalSet` | src/sys/kernel/obj/object.cpp:33-36 | after any cascade exactly the bindings whose object's signals moved into their mask are newly queued, queues grew at their ends only, every port is readable exactly when it has packets, the object's packets carry all its wanted signals, and no packet gains a signal its object does not have |
| `PortModel.PortSystem.Notify` | src/sys/kernel/obj/port.cpp:178-204 | the scan-and-restart loop ends and queues exactly what the transition owes |
| `PortModel.PortSystem.ScanPass` | src/sys/kernel/obj/port.cpp:182-196 | one locked scan coalesces into queued packets and queues at most the first binding that saw an edge |
| `PortModel.PortSystem.Bind` | src/sys/kernel/obj/port.cpp:47-81 | each refusal exactly when; a signal already inside the mask queues the first packet at once |
| `PortModel.PortSystem.Dequeue` | src/sys/kernel/obj/port.cpp:150-169 | the oldest packet with its key and signals, its binding armed again, readable lowered exactly when the queue is empty |
| `PortModel.PortSystem.Unbind` | src/sys/kernel/obj/port.cpp:83-124 | exactly the bindings under the key go, with their packets; the others keep their packets and order; the count |
| `PortRace.RunKeeps` | src/sys/kernel/obj/port.cpp:47-204 | in every interleaving of any number of notifiers, binders, unbinders and consumers, one locked block or signal change at a time: a queued binding is queued once and on its own port, and what each scan still owes is on some thread's stack |
| `PortRace.NeverLeftLow` | src/sys/kernel/obj/port.cpp:150-157 | a port with packets is readable or some thread has still to set it: readable never sits low on a full queue |
| `PortRace.NoLostEdge` | src/sys/kernel/obj/port.cpp:178-204 | a binding whose object has a wanted signal is queued, or has been delivered since the signal came, or some thread has still to scan for it |
| `PortRace.HitExactly` | src/sys/kernel/obj/port.cpp:184-196 | a scan queues a binding exactly when it is the first in the list that is not queued, matches the new signals and did not match the old ones |
| `PortRace.OneEdgeTwoPackets` | src/sys/kernel/obj/port.cpp:178-204 | the run in which a consumer dequeues between two scans and one transition delivers a second packet |
| `PortPackets.LeavesExactly` | src/sys/kernel/obj/port.cpp:83-124 | a packet that waits leaves its queue at a step exactly when the step dequeues it or unbinds its binding |
| `PortPackets.QueuedAgain` | src/sys/kernel/obj/port.cpp:178-204 | over any run between two scans for one transition: the second queues the binding again exactly when it is then the first that is due, and then its packet was dequeued or it was unbound, and nothing was queued for it since |
| `PortPackets.ScanAdds` | src/sys/kernel/obj/port.cpp:184-196 | a scan adds the wanted signals of its transition to the packets of the bindings it comes to, up to the first that is due, and nothing to any other |
| `PortPackets.StaleExactly` | src/sys/kernel/obj/port.cpp:184-196 | a scan puts a signal that is not up into a packet exactly when it comes to a binding that wants a signal of the transition which has been cleared since |
| `PortPackets.NothingMadeUp` | src/sys/kernel/obj/port.cpp:47-81 | a signal that a binding's packet does not have and no thread is about to report as its object's stays out of the packet until the object has it |
| `PortPackets.SinceBound` | src/sys/kernel/obj/port.cpp:47-81 | if no thread is notifying the object when a binding to it is made, the binding's packets report only signals that have been up since |
| `PortPackets.EverUp` | src/sys/kernel/obj/port.cpp:178-204 | in every run every signal a packet reports was up on the binding's object at some point |
| `PortPackets.StalePacket` | src/sys/kernel/obj/port.cpp:178-204 | the run in which a binding made after a signal was cleared gets a packet about it |
| `Lockdep.Checker.LearnEdge` | src/sys/kernel/task/sync/lockdep.cpp:63-80 | a new order is refused as a cycle exactly when the graph with it would have one, refused as full exactly when there is no room, and otherwise learned; nothing else changes |
| `Lockdep.CanReach` | src/sys/kernel/task/sync/lockdep.cpp:53-61 | the depth-first search with one visited array answers exactly whether there is a path |
| `Lockdep.AddKeepsAcyclic` | src/sys/kernel/task/sync/lockdep.cpp:71-75 | the test the checker makes is exact: a new edge keeps the graph acyclic if and only if its start cannot be reached from its end |
| `Lockdep.Checker.Allocate` | src/sys/kernel/task/sync/lockdep.cpp:82-101 | an identity not in use, named by no edge and owned by nobody; zero exactly when the table is full |
| `Lockdep.Checker.Release` | src/sys/kernel/task/sync/lockdep.cpp:103-120 | exactly the identity's edges go, and the graph stays acyclic |
| `Lockdep.Checker.Destroy` | src/sys/kernel/task/sync/lockdep.cpp:165-175 | a lock that is still owned stops the kernel, exactly; otherwise its identity goes with exactly its edges |
| `Lockdep.Checker.Acquired` | src/sys/kernel/task/sync/lockdep.cpp:122-143 | every held lock is from now on known to come before this one and nothing else is learned; what each refusal means |
| `Lockdep.Checker.Released` | src/sys/kernel/task/sync/lockdep.cpp:145-163 | out of order exactly when the lock is not the thread's newest, not the owner exactly when another thread or none owns it; otherwise it comes off, and the books stay right when it is the identity it was taken under |
| `Lockdep.NoRing` | src/sys/kernel/task/sync/lockdep.cpp:63-80 | threads that wait only in orders the checker let through never wait in a ring |
| `Malloc.Heap.Allocate` | src/lib/crt/malloc.c:39-66 | it fails exactly for size zero, or when nothing fits and no arena can be had; the block is large enough, was not live, and no live block changes |
| `Malloc.Heap.Free` | src/lib/crt/malloc.c:68-91 | the block goes back joined with every free neighbour it touches; no cell is lost and no other live block is touched |
| `Malloc.Heap.Morecore` | src/lib/crt/malloc.c:22-37 | the new arena enters the free list whole, large enough for the request |
| `Malloc.Heap.FindSlot` | src/lib/crt/malloc.c:72-76 | the walk to the insertion point ends, wherever it starts, at the one right place |
| `Malloc.Heap.Scan` | src/lib/crt/malloc.c:48-65 | going around from the last place, the first block that fits, exactly when there is one |
| `Malloc.BlocksApart` | src/lib/crt/malloc.c:39-91 | two blocks, free or live, share no cell |
| `Coordinator.Broker.ServeConnect` | src/sys/init/main.cpp:93-116 | the request is sent one answer, with which status exactly when; it arrives exactly when the mailboxes take it; both ends are delivered together or neither stays behind |
| `Coordinator.Broker.ServePending` | src/sys/init/main.cpp:118-129 | exactly the connects parked for the name leave the table and are served in the order of their slots, each with the status and the arrival that the mailboxes at its turn call for; the mailboxes afterwards |
| `Coordinator.Broker.RegisterName` | src/sys/init/main.cpp:203-232 | the first to claim a name has it, which status exactly when; nobody is left waiting for a name that is there, and each that waited is answered in turn as a direct connect would be |
| `Coordinator.Broker.HandleMessage` | src/sys/init/main.cpp:183-258 | a request is sent one answer or waits, with which status exactly when, registrations and connects alike; it arrives exactly when the mailboxes take it; anything else changes nothing |
| `Coordinator.Broker.HandleImage` | src/sys/init/main.cpp:131-181 | a child in the first free slot with its mailbox holding the bootstrap message, or nothing at all, each exactly when; no handle leaks |
| `Coordinator.Broker.ChildReads` | src/sys/kernel/obj/channel.cpp:120-151 | a step of the child's: reading its mailbox makes room for one more message and leaves the coordinator's books right |
| `Coordinator.Broker.ChildCloses` | src/sys/kernel/task/user_task.cpp:351-356 | a step of the child's: when its table is cleared its end takes no more messages, and the coordinator's books stay right |
| `Coordinator.Broker.ChildGone` | src/sys/init/main.cpp:262-274 | exactly its names, parked connects and handles go; nothing of it is left for the next child in its slot |
| `Coordinator.OneReply` | src/sys/init/main.cpp:93-258 | a request was answered exactly if one reply to it was delivered; there is never a second, and it went to the child that asked |
| `Coordinator.FullMailboxUnanswered` | src/sys/init/main.cpp:183-258 | the run in which a live child that does not read is left without its answer |

## Left out

Parts of the system:

- Wrap-around of 64-bit sequence numbers in the log ring, and the crash-time drain; atomics are taken as
  sequentially consistent.
- The deep copy of the bootloader's tables at boot, TLB flushes and shoot-downs, and which core has which
  address space active.
- The large-run path of the kernel heap, its statistics, and the early boot heap; a page that is not a
  slab page is taken never to begin with the slab mark.
- The object back-references from memory objects to their bindings, and the chunked array behind their
  page lists.
- Device windows overlapping allocator memory: device frames are taken to be other frames, and frame 0,
  whose address is an absent entry, is taken never to be handed out.
- The destructor of a port, and the lifetime of objects and bindings while a scan has let go of the lock.
- Builds with NDEBUG, in which assertions and the lock-order checker are compiled out.
- Socket system calls interleaved with one another on one socket.
- What the kernel itself sends to a task it starts, and the end of that task's channel which it keeps until
  the task is gone.
- That a system call which is blocked can be ended, by a signal or by killing its task, is taken as given.
- The bound on handles per message, duplicated channel handles (the rights that channel handles are made
  with do not allow it), and uses of the kernel's own handle table other than escrow.
- Size overflow in the user-space allocator's request.
- The rest of the user-space servers, drivers, the file system, the shell and the build.

Contracts that say less than one might ask:

- EscrowReceive.ReceivableIffReached: while a send is half done the two bounds differ: an endpoint may
  also be reached through the message being built, if every id still to be moved is live and the write
  goes through. Which of the two it is depends on what the sender and others do next.
- EscrowStuck.StuckExactly: is stated for states with no send half done (receives may be), for the same
  reason.
- Lockdep.Checker.Release: is for a lock nobody owns; `Lockdep.Checker.Destroy` models the check that
  comes before it.
- Malloc.Heap.Allocate: takes a new mapping not to hold the allocator's own anchor or end where it begins;
  the first cannot be mapped, and the second would take the anchor, a block of no size, off the ring.
- Malloc.Heap.Morecore: takes the same of its mapping.
- PageTable.Aspace.Init: does not model copying the bootloader's tables; the kernel half it shares is
  taken to be a tree already.
- PageTable.Aspace.MapPage: for kernel-half addresses success is stated by the tables on the path,
  because the bootloader may have put large pages there.
- Vm.Space.HandleFault: one fault runs under the lock from start to end, as in the code; faults of other
  cores come before or after it, which is what its stale cases are about.
- Coordinator.Broker.ServeConnect: whether a message arrives is decided by the far mailbox and by inputs
  for memory, since the kernel and not the coordinator decides it.
- SchedTheorems.OneHolder: counts the references that will run, wake or free a thread, not every
  reference to its object.
