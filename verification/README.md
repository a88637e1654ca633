# CC-SIM: a verified model of its two cores

CC-SIM simulates two causally consistent, replicated key-value stores, GentleRain
(`gr`) and GentleRain Vector (`grv`), on top of a simulated multi-core processor with
locks. This project models both in Dafny and proves what they promise, for every run.

**The processor** (`Cpu`, `CpuInvariants`, `CpuWork`, `CpuFairness`, `CpuSingleCore`,
`Lists`): cores, run queue, mutexes and reader/writer locks, with lock and unlock as
continuation messages. The user's event handler is abstract: it takes time and asks for at
most one lock or unlock, and that choice is arbitrary at every step.

**The protocols**, from the bottom up: version chains (`Store`), the k-ary tree and the
stable-time rounds on it (`Tree`, `StableTime`, `StableTimeRounds`, `StableTimeSafety`,
`StableTimeExact`, `StableTimeProgress`), replication of updates (`Replication`,
`ReplicaGroup`, `Convergence`, `LastWriter`, `Predecessors`), version vectors on any
number of cores (`Overtaking`), the single-core refinement (`SingleCore`, `GrStall`), both
together (`System`), clients (`Client`), and what they can rely on (`Guarantees`).
Read-only transactions are in `Transactions`, `TransactionRuns` and `GrvTransactions`
(`grv`) and in `GrRotx`, `GrRotxRuns`, `GrSnapshots` and `GrTransactions` (`gr`), the slot
allocator in `PtrArrays`, the FIFO network in `Network`. Runs that reach failing cases are
in `Witnesses` and `TornRead`.

A handler of the C code is a function on values; runs are sequences of states linked
by such steps, and theorems are about every state of every run. Next to it, a class
with the fields of the C structure has one method per C function, whose postcondition
says that it computes the function. Assertions of the C code about protocol state appear
as preconditions of these methods, or as lemmas about the states in which a handler runs
(`Convergence.ArrivalAssertions`, `Convergence.DrainAssertions`); the run theorems show
that they are met.

Granularity: stable-time rounds, exactly-once processing, convergence, transactions,
version vectors and the processor are modelled handler by handler, for any number of
cores. Stable-time safety and the guarantees built on it are proved for servers with one
core, where a chain of lock, critical section, unlock and continuation is one step.
`CpuSingleCore.Atomicity` is the reason why this is sound, `Overtaking` says why it is
needed and what holds without it.

## What does not hold

The model follows the code. Where the code does not do what one would expect, the
failing case and the exact condition are stated:

- `gr` with a single partition takes its stable time from entry 0 of the version
  vector. This is safe if and only if entry 0 is the smallest (`System.OnePartition`);
  one put is enough to break it (`Witnesses.OnePartitionUnsafe`).
- In `gr`, a conflicting update that is newer than the stored version is neither
  applied nor removed, and blocks the queue of its source for ever, also for updates
  behind it, while heartbeats move the version vector past all of them
  (`Witnesses.StallRun`). After an update and a newer heartbeat have arrived, the update
  is stored or superseded if and only if it found the queue empty and did not conflict, or
  was superseded before it arrived (`GrStall.CompleteIffHandled`). In runs without a stall
  queues are empty and entries are honest (`GrStall.RunPrefixComplete`), and a stall takes
  two writers of one key (`Predecessors.StallNeedsTwoWriters`). In `grv` such an
  update is applied.
- A put that loses to a newer version is discarded, also from `gr` snapshots that are
  older than the winner: a snapshot gets the update if and only if it was stored or the
  snapshot had a newer version already (`Guarantees.SnapshotHasUpdate`,
  `Witnesses.SnapshotLosesUpdate`). What a snapshot does contain is
  `Guarantees.SnapshotComplete`.
- Last writer wins, with ties broken by the source replica, is not what `grv` does. A
  step keeps the newest version of every key the largest, by time and then source, of the
  updates handled if and only if it does not store an update over a version with the same
  time and a larger source (`LastWriter.KeptIffNoBurial`). Such a step exists because the
  conflict is judged before the lock is taken, and because an update that extends the
  newest version, or a local put, is not judged at all. In runs without one all replicas
  converge to the same versions (`LastWriter.ConvergedWithoutBurial`), in others they need
  not (`LastWriter.TiesDiverge`).
- In `grv`, a version can be visible at a replica where a version that its writer knew is
  not (`Witnesses.DependencyHidden`). However the writer came to know it, by a get, a put
  or a transaction, it is visible there if and only if it was written there or the entries
  of its vector other than that of its source and of the reading replica are stable
  (`Guarantees.TransitiveVisibility`). If it was a remote version returned by a get, only
  the entry of the writer's replica can be missing (`Guarantees.GetVisibility`).
- The scheduler may leave a core idle while the run queue is not empty
  (`CpuWork.IdleCoreWithWork`). An event keeps all cores at work if and only if it is not
  an unlock that wakes a waiter and goes on with its own task while another core is idle
  (`CpuWork.ConservingIff`). The queue is popped later, when some busy core ends
  (`CpuInvariants.RunInv`, `CpuWork.EventUsesCore`).
- With several cores, in either protocol, a heartbeat can overtake updates of its source
  that wait for their critical sections: the version vector then covers an update that is
  not there, and goes back (`Witnesses.OvertakingRun`). A step lowers an entry if and only
  if it is the critical section of an update older than the entry
  (`Overtaking.EntryGoesBack`). A step keeps an entry honest if and only if it is not a
  heartbeat beside an unsettled queued update, or a put with a time that a heartbeat had
  already (`Overtaking.CompleteIff`), and keeps the entry below all waiting updates if and
  only if it is not an overtaking heartbeat (`Overtaking.AheadIff`). Without overtaking,
  version vectors grow and are honest on any number of cores
  (`Overtaking.VersionVectorsGrow`, `Overtaking.PrefixCompleteInRuns`).
- The slices of a `grv` transaction are each read at the vector and clock of their own
  server when they are served, so an answer need not be one snapshot: it can hold a version
  and not one that this version depends on (`TornRead.NotOneSnapshot`). What it holds for a
  key is at least as new as a given time if and only if the server had such a version within
  the vector of the slice (`GrvTransactions.AsNewIff`); it is at least the cut at which the
  transaction started (`GrvTransactions.ReturnsStartCut`).
- A transaction without keys is never answered; every other one is
  (`TransactionRuns.AnsweredIffKeys`, `GrTransactions.AnsweredIffAsked`).
- A `gr` transaction whose dependency time equals the stable time starts at once if it
  arrives now, but goes on waiting if it was waiting already
  (`GrRotxRuns.WakeIsStrict`).

## Model

| member | source | states |
|---|---|---|
| `Cpu.Processor.constructor` | src/cpu/cpu.c:100-134 | initial processor: no core busy, queue empty, all locks free |
| `Cpu.Processor.BusyInc` | src/cpu/state.c:15-19 | one more busy core; the assertion is the precondition |
| `Cpu.Processor.BusyDec` | src/cpu/state.c:9-13 | one busy core less; the assertion is the precondition |
| `Cpu.Processor.UserHandler` | src/cpu/schedule.c:17-39 | runs one handler: takes a core and schedules exactly one event that gives it back |
| `Cpu.Processor.CpuProcess` | src/cpu/schedule.c:10-40 | processes a user event or re-enters the lock handlers with a lock message |
| `Cpu.Processor.CpuProcessNext` | src/cpu/schedule.c:42-49 | pops the run queue, if it is not empty, and processes the item |
| `Cpu.Processor.LockRequest` | src/cpu/lock.c:43-57 | grants the lock and runs the continuation, or frees the core, queues the request and schedules a wake-up; reader/writer locks included |
| `Cpu.Processor.ReleaseLock` | src/cpu/rwlock.c:77-141 | releases a read or write lock; when it becomes free the first waiter goes to the front of the run queue |
| `Cpu.Processor.UnlockRequest` | src/cpu/lock.c:68-80 | releases, then runs the continuation or, for the empty continuation, the next item of the run queue |
| `Cpu.Processor.UserEvent` | src/cpu/cpu.c:44-56 | a user event is queued when all cores are busy and processed otherwise |
| `Cpu.Processor.CpuEvent` | src/cpu/cpu.c:37-40 | the zero-delay event pops the run queue |
| `Cpu.Processor.FreeCoreEvent` | src/cpu/cpu.c:33-36 | a core becomes free and pops the run queue |
| `Cpu.Processor.LockEvent` | src/cpu/lock.c:82-96 | lock and unlock messages reach their handlers |
| `CpuInvariants.DispatchCores` | src/cpu/state.c:9-19 | every event keeps: busy cores = scheduled core-holding events, at most the number of cores |
| `CpuInvariants.DispatchConserves` | src/cpu/schedule.c:10-68 | every event keeps: each task that arrived is in exactly one place (core, run queue, waiting queue) or has ended, exactly once |
| `CpuInvariants.DispatchExcludes` | src/cpu/rwlock.c:49-141 | every event keeps: counter = number of readers, marked = held, at most one writer and then no reader; pending unlocks hold what they release |
| `CpuInvariants.DispatchWakes` | src/cpu/lock.c:43-80 | every event keeps: a non-empty run queue has a busy core or a pending CPU_EVENT, a waiter has a holder or a retry in the run queue |
| `CpuInvariants.StepInv` | src/cpu/cpu.c:25-59 | one event with any handler behaviour keeps all of these together |
| `CpuInvariants.RunInv` | src/cpu/cpu.c:25-59 | core conservation, task conservation, exclusion and wake-ups in every state of every run, any number of cores and locks |
| `CpuInvariants.AssertionsNeverFire` | src/cpu/state.c:9-19 | in such states every assertion of the scheduler and lock handlers holds for every enabled event |
| `CpuInvariants.NeverTogether` | src/cpu/rwlock.c:49-141 | a writer excludes readers and other writers |
| `CpuWork.EventUsesCore` | src/cpu/schedule.c:10-49 | every event but an arrival pops the run queue, with the waiter it wakes in front, or runs the next handler of its own task on its core, or blocks and schedules the CPU_EVENT that pops it |
| `CpuWork.ConservingIff` | src/cpu/lock.c:58-80 | an event leaves no core idle beside a non-empty run queue if and only if it is not an unlock with continuation that wakes a waiter while a core is idle |
| `CpuWork.RunConserving` | src/cpu/cpu.c:25-59 | in every run without such an event no core is idle while the run queue is not empty |
| `CpuWork.IdleCoreWithWork` | src/cpu/lock.c:74-79 | a run of two cores that ends with an idle core, no wake-up and a non-empty run queue |
| `CpuFairness.WaitersStep` | src/cpu/lock.c:43-80 | a request that blocks joins the waiters of its lock at the end, and whom an unlock wakes was at their front; no event changes them otherwise |
| `CpuFairness.FirstBlockedFirstWoken` | src/cpu/lock.c:48-77 | in every run on any number of cores the requests that blocked on a lock, in the order of time, are those moved to the run queue, in that order, followed by those that still wait |
| `CpuFairness.BlocksOnlyIfExcluded` | src/cpu/rwlock.c:49-141 | in every run a request blocks if and only if a writer holds the lock, or it asks for writing and readers hold it |
| `CpuFairness.DispatchTimed` | src/cpu/schedule.c:10-57 | an event runs at most one handler; what that asked for is scheduled exactly when its time has elapsed, for the same task, and everything else scheduled stays |
| `CpuSingleCore.Contiguous` | src/cpu/schedule.c:42-49 | if tasks never come back after a pause, all handlers of a task are next to each other |
| `CpuSingleCore.NeverBlocks` | src/cpu/lock.c:43-57 | on one core a pending lock request always finds its lock free |
| `CpuSingleCore.StepSingle` | src/cpu/cpu.c:25-59 | every event of a single core keeps: nobody waits, only the running task holds locks, arrival order, strictly increasing times within a task |
| `CpuSingleCore.TidyRunInv` | src/cpu/cpu.c:25-59 | the same in every state of every run whose handlers give back the locks they take |
| `CpuSingleCore.NoRequestBlocks` | src/cpu/lock.c:34-57 | on one core no waiting queue is ever used and every lock message runs its continuation at once |
| `CpuSingleCore.ArrivalOrder` | src/cpu/cpu.c:44-56 | on one core the tasks handled so far are a prefix of those that arrived, in order, and the run queue is the rest |
| `CpuSingleCore.Atomicity` | src/cpu/schedule.c:10-68 | on one core no handler of another task runs between two handlers of a task, and time strictly advances between them |
| `Lists.CpuList.Push` | src/cpu/list.c:23-32 | the linked list gets the item at its tail |
| `Lists.CpuList.Shift` | src/cpu/list.c:34-43 | the first item leaves the linked list, or null for an empty one |
| `Lists.CpuList.Unshift` | src/cpu/list.c:45-55 | the linked list gets the item at its head |
| `Lists.HandOver` | src/cpu/lock.c:74-77 | the first waiter's node moves to the front of the run queue; both lists stay well formed and disjoint |
| `Tree.Parent` | src/server/server.c:189-193 | the parent of a partition other than 0 is a smaller partition |
| `Tree.ChildIndex` | src/server/server.c:195-200 | the index of a child is below the fanout |
| `Tree.ChildRange` | src/server/server.c:189-211 | a partition lies in exactly the child range of its parent, at its own index |
| `Tree.ChildAtIsChild` | src/server/server.c:189-211 | the i-th partition of the range has this parent and index i |
| `Tree.IndexBijection` | src/server/server.c:195-233 | sibling indices are a bijection from the children onto 0 .. count - 1, with the closed formula for the count |
| `Tree.LeafHasNoChild` | src/server/server.c:213-217 | the leaf test holds exactly for partitions without children |
| `Tree.RootCovers` | src/server/server.c:189-193 | every partition descends from partition 0 |
| `Tree.BelowSomeChild` | src/server/server.c:189-244 | a proper descendant lies below a child |
| `Tree.Children` | src/server/server.c:235-244 | the enumeration loop visits each child exactly once, in order, as many as the formula says |
| `StableTime.Server.CountReceived` | src/server/protocols/gr/gst.c:19-26 | the loop counts the marked children |
| `StableTime.Server.ProcessReport` | src/server/protocols/grv/gst.c:29-67 | one report: merged into the minimum and marked, or, when it is the last, merged with the own vector and all marks cleared |
| `StableTime.Server.Raise` | src/server/protocols/grv/gst.c:208-231 | the stable time is raised entry by entry |
| `StableTime.Server.NeedUpdate` | src/server/protocols/grv/gst.c:196-206 | true exactly when raising would change something |
| `StableTime.MinReplicaVersion` | src/server/protocols/gr/gst.c:28-38 | the loop finds the smallest entry of the version vector |
| `StableTimeRounds.AtMostOneAhead` | src/server/protocols/gr/gst.c:40-82 | a child is at most one round ahead of its parent, and idle towards the root while the root uses its minimum |
| `StableTimeRounds.NoDoubleReport` | src/server/protocols/gr/gst.c:40-55 | the assertion against a second report in a round never fires; no report reaches the root before its minimum is used |
| `StableTimeRounds.AllOthersReported` | src/server/protocols/grv/gst.c:42-66 | when the count is one short, the only missing report is the one being handled |
| `StableTimeRounds.StepRounds` | src/server/protocols/gr/gst.c:40-189 | every step keeps the counters along every edge of the tree consistent |
| `StableTimeSafety.CompleteCovers` | src/server/protocols/grv/gst.c:42-66 | a completed minimum is at most the version vector of every partition of the subtree |
| `StableTimeSafety.SafeGrows` | src/server/protocols/grv/replication.c:58-73 | safety survives any growth of the version vectors |
| `StableTimeSafety.StepSafe` | src/server/protocols/grv/gst.c:29-231 | every step keeps every stable time, held or travelling, below every server's summary |
| `StableTimeSafety.StepMonotone` | src/server/protocols/grv/gst.c:208-231 | no step lowers the stable time of a server |
| `StableTimeExact.CompleteExact` | src/server/protocols/gr/gst.c:40-70 | the minimum used at the end of a round is exactly the minimum of the own vector and the last report of every child, each entry attained |
| `StableTimeExact.StepExact` | src/server/protocols/grv/gst.c:29-134 | every step keeps running minima exact |
| `StableTimeProgress.StepReach` | src/server/protocols/grv/gst.c:29-170 | every step keeps: the minimum of each completed round is at most the stable time of every server that has applied it, and of every message that carries it down |
| `StableTimeProgress.StepFresh` | src/server/protocols/gr/gst.c:40-189 | as long as all version vectors are at least a bound, so are all reports and minima of the rounds after the next one |
| `StableTimeProgress.Spreads` | src/server/protocols/gr/gst.c:169-205 | a stable time in a request or response raises the receiver to exactly the maximum of both, and with one partition a round does |
| `Store.ReadAt` | src/server/protocols/gr/store.c:56-81 | the walk returns a visible version of the chain, or none is visible |
| `Store.PutOrdered` | src/server/protocols/gr/store.c:90-113 | puts keep chains ordered by update time |
| `Store.ReadNewest` | src/server/protocols/gr/store.c:56-81 | in an ordered chain the walk finds the newest of all visible versions |
| `Store.ReadSkips` | src/server/protocols/grv/store.c:55-58 | invisible versions in front of a chain do not change what is read |
| `Store.CollectPreserves` | src/server/protocols/gr/store.c:18-39 | garbage collection preserves every read whose visibility admits all versions below the stable time |
| `Store.CollectExact` | src/server/protocols/gr/store.c:18-39 | what stays is a front part of the chain; behind the newest version only its last is older than the stable time, and it is if anything was cut off |
| `Store.CollectKeepsReads` | src/server/protocols/gr/store.c:18-54 | in particular snapshot reads and gets at or above the stable time |
| `Store.KeyValueStore.GetValueAt` | src/server/protocols/grv/store.c:46-71 | the loop over the chain computes that read, zeros for a missing version |
| `Store.KeyValueStore.PutValue` | src/server/protocols/gr/store.c:90-113 | stores the version, or discards it when the newest version is newer |
| `Store.KeyValueStore.CollectKey` | src/server/protocols/gr/store.c:20-38 | the collection loop cuts the chain where the specification does |
| `Store.IsVisible` | src/server/protocols/grv/store.c:24-36 | the loop decides vector visibility |
| `Replication.Work` | src/server/protocols/grv/replication.c:30-56 | starting on the queue head touches only this source's queue and never lengthens it |
| `Replication.Unlocked` | src/server/protocols/grv/replication.c:75-93 | finishing an update shortens the queue: the drain recursion ends |
| `Replication.Server.ProcessReplicaUpdate` | src/server/protocols/grv/replication.c:16-28 | queues the update and starts on it when the queue was empty |
| `Replication.Server.UpdateWork` | src/server/protocols/gr/replication.c:28-53 | conflict detection: take, drop, or (in `gr`) leave in place |
| `Replication.Server.UpdateLocked` | src/server/protocols/grv/replication.c:58-73 | stores the version and assigns the entry of its source |
| `Replication.Server.UpdateUnlocked` | src/server/protocols/grv/replication.c:75-93 | dequeues and goes on with the next update |
| `Replication.Server.ProcessHeartbeatLocked` | src/server/protocols/gr/heartbeat.c:25-33 | raises the entry of the source, never lowers it |
| `Replication.Server.PutRequestLocked` | src/server/protocols/grv/getput.c:169-197 | a local put stores and names the version it replaced, or is discarded |
| `Replication.Server.ClockTick` | src/server/protocols/grv/grv.c:58-77 | a tick raises the own entry unless a put did so within the interval |
| `ReplicaGroup.StepInv` | src/server/protocols/grv/replication.c:16-93 | any interleaving of handlers on any number of cores keeps, per pair of servers: settled prefix, queue, channel = log of the source |
| `Convergence.RunInv` | src/server/protocols/grv/replication.c:16-93 | this in every state of every run, and every stored version was issued by its source |
| `Convergence.ExactlyOnceInOrder` | src/server/protocols/grv/replication.c:16-93 | what a server received is a prefix of what the source sent: settled updates, then the queue, whose head is the update in progress |
| `Convergence.ArrivalAssertions` | src/server/protocols/grv/replication.c:42-50 | the assertion on source replicas never fires when an update arrives |
| `Convergence.DrainAssertions` | src/server/protocols/grv/replication.c:42-93 | nor along the drain of a queue |
| `Convergence.HeadDominates` | src/server/protocols/grv/store.c:80-111 | the newest version is at least as new as everything handled for its key |
| `Convergence.HeadIsMaximum` | src/server/protocols/grv/store.c:80-111 | with distinct times it is one of the updates handled and the unique maximum of them |
| `Convergence.HeadIsLatest` | src/server/protocols/grv/replication.c:30-63 | in a quiescent state it stems from a latest update of the key anywhere |
| `Convergence.Converged` | src/server/protocols/grv/replication.c:30-93 | once everything is delivered and handled, all replicas agree on the newest version of every key, or on its time if two updates tie, in either protocol |
| `LastWriter.KeptIffNoBurial` | src/server/protocols/grv/replication.c:30-63 | a step keeps every newest version the largest, by time and source, of the updates handled if and only if it does not store one over a version of equal time and larger source |
| `LastWriter.RunLargest` | src/server/protocols/grv/store.c:80-111 | in every run without such a step the newest versions are the largest of the updates handled |
| `LastWriter.ConvergedWithoutBurial` | src/server/protocols/grv/replication.c:30-93 | once everything is delivered in such a run, all replicas agree on the newest version of every key, ties included |
| `LastWriter.TiesDiverge` | src/server/protocols/grv/replication.c:35-56 | a run with one such step that delivers everything and leaves two replicas with different newest versions |
| `Predecessors.RunNames` | src/server/protocols/gr/getput.c:197-216 | in every run every issued update names the version that it replaced in the chain of its source, or none if there was none |
| `Predecessors.SoleWriterFollows` | src/server/protocols/gr/replication.c:28-49 | an update of a key that one replica writes finds, wherever all updates before it are handled, exactly the version it names |
| `Predecessors.StallNeedsTwoWriters` | src/server/protocols/gr/replication.c:28-91 | in every run, on any number of cores, a queue is blocked only by an update of a key that another replica has written too |
| `SingleCore.StepInv` | src/server/protocols/grv/replication.c:58-124 | one-core servers keep: channel timestamps strictly increase, exceed the receiver's entry and are at most the sender's clock |
| `SingleCore.VersionVectorGrows` | src/server/protocols/grv/replication.c:58-73 | no entry of a version vector ever decreases although it is assigned |
| `SingleCore.OutstandingIsNewer` | src/server/protocols/grv/heartbeat.c:16-41 | everything still in a channel is newer than the receiver's entry |
| `SingleCore.PrefixComplete` | src/server/protocols/grv/replication.c:58-93 | in `grv` every update at or below an entry is stored or superseded |
| `SingleCore.StoredIsNewer` | src/server/protocols/gr/replication.c:55-71 | a version stored by any step is newer than the entry of its source |
| `SingleCore.TickKeepsFresh` | src/server/protocols/grv/grv.c:58-77 | after a clock tick the own entry is less than the interval behind the clock; one that was so before stays |
| `GrStall.SettledOrStuck` | src/server/protocols/gr/replication.c:28-91 | in `gr` an update at or below an entry is stored, superseded or stuck in the queue |
| `GrStall.Delivered` | src/server/protocols/gr/replication.c:28-71 | an update that finds an empty queue is stored if the newest version is the one it names, else dropped if that is newer by time and source, else left in the queue in `gr` and stored in `grv` |
| `GrStall.EmptyUnlessStalled` | src/server/protocols/gr/replication.c:40-49 | a delivery leaves the queue empty if and only if the newest version is the one the update names or is newer than it |
| `GrStall.BlockedForEver` | src/server/protocols/gr/replication.c:14-49 | a blocked queue keeps all its updates in every continuation of a run |
| `GrStall.EmptyIff` | src/server/protocols/gr/replication.c:28-53 | a step keeps all queues empty if and only if nothing stalls |
| `GrStall.RunEmpty` | src/server/protocols/gr/replication.c:14-91 | in every run of `gr` without a stall all queues are empty between deliveries |
| `GrStall.RunPrefixComplete` | src/server/protocols/gr/replication.c:14-91 | and every update at or below an entry is stored or superseded |
| `GrStall.CompleteIffHandled` | src/server/protocols/gr/replication.c:28-53 | after an update and a newer heartbeat the entry covers the update; it is stored or superseded if and only if it found an empty queue and did not stall, or was superseded before |
| `Witnesses.StallRun` | src/server/protocols/gr/replication.c:40-49 | a run from the initial state in which an update stalls and the version vector covers it |
| `Overtaking.StepTiming` | src/server/protocols/grv/heartbeat.c:10-41 | on any number of cores every step with advancing timestamps keeps: what is in a channel is newer than the entry and than every queued update of its source |
| `Overtaking.EntryGoesBack` | src/server/protocols/grv/replication.c:58-63 | a step lowers an entry if and only if it is the critical section of an update older than the entry |
| `Overtaking.CompleteIff` | src/server/protocols/grv/heartbeat.c:16-22 | a step keeps "every update at or below the entry is stored or superseded" if and only if it is not a heartbeat with a time beside an unsettled queued update, nor a put at a time that the entry covers already |
| `Overtaking.EnterRestores` | src/server/protocols/grv/replication.c:58-73 | a critical section makes the entry of its source honest from any state |
| `Overtaking.AheadIff` | src/server/protocols/grv/heartbeat.c:16-22 | a step keeps all waiting updates newer than the entry if and only if it is not a heartbeat with a time beside one of them |
| `Overtaking.VersionVectorsGrow` | src/server/protocols/grv/replication.c:58-63 | in every run without such a heartbeat version vectors grow, on any number of cores, in either protocol |
| `Overtaking.RunComplete` | src/server/protocols/grv/heartbeat.c:10-22 | an entry is honest in every run in which no step made it claim too much |
| `Overtaking.PrefixCompleteInRuns` | src/server/protocols/grv/replication.c:16-93 | prefix completeness in every run without overtaking, on any number of cores, in either protocol |
| `Witnesses.OvertakingRun` | src/server/protocols/grv/heartbeat.c:10-22 | a run in which the entry covers an update that is not there and then goes back |
| `System.RunInv` | src/server/protocols/grv/gst.c:29-231 | every state of every run of either protocol satisfies the replication, round, safety and exactness invariants together |
| `System.StableTimeSafe` | src/server/protocols/gr/gst.c:138-205 | every stable time of a server, a client or a message of a replica is at most the version vector of every server of it |
| `System.StableTimeGrows` | src/server/protocols/gr/gst.c:197-205 | a server's stable time never decreases along a run |
| `System.RoundsInEveryRun` | src/server/protocols/gr/gst.c:40-189 | round discipline and exact minima in every state of every run |
| `System.RoundsRaise` | src/server/protocols/gr/gst.c:72-82 | in every run the stable time of a server is at least the minimum of every round it has applied |
| `System.PassesOn` | src/server/protocols/grv/gst.c:142-160 | a stable time goes to the children of a server when it is received in `grv`, and when it is applied in `gr` |
| `System.TopDown` | src/server/protocols/gr/gst.c:138-167 | in every run of `gr` no server has applied more rounds than its parent in the tree |
| `System.StableTimeCatchesUp` | src/server/protocols/gr/gst.c:28-189 | what all servers of a replica have is at most the stable time of every server that has since applied two more rounds than the root had broadcast |
| `System.OnePartition` | src/server/protocols/gr/gst.c:172-176 | with one partition the new stable time of `gr` is safe if and only if entry 0 is the smallest |
| `Witnesses.OnePartitionUnsafe` | src/server/protocols/gr/gst.c:172-176 | one put from the initial state gives a version vector for which it is not safe |
| `Client.RequestCovers` | src/client/protocols/grv.c:33-91 | after any sequence of responses a put request's vector covers every version read or written and every stable time seen |
| `Client.RequestGrows` | src/client/protocols/grv.c:33-58 | the vector of put requests only grows along a session |
| `Client.SessionExact` | src/client/protocols/grv.c:33-49 | each entry of the stable vector is the largest that a get answered, each entry of the dependency vector the largest time read or written of that source, 0 if none |
| `Client.RequestExact` | src/client/protocols/grv.c:51-58 | each entry of a put request's vector was read, written or stable, or is 0 |
| `Client.ClientState.OnResponse` | src/client/protocols/grv.c:110-138 | the loops raise the dependency and stable vectors as specified |
| `Client.ClientState.PutRequestDeps` | src/client/protocols/grv.c:51-58 | the loop computes the entry-wise maximum of both vectors |
| `Client.ScalarCovers` | src/client/protocols/gr.c:27-31 | a `gr` client's dependency time is the largest update time, its stable time the largest stable time, of all responses |
| `Client.ScalarClientState.UpdateTimes` | src/client/protocols/gr.c:27-31 | one response raises both as specified |
| `Guarantees.NothingBelow` | src/server/protocols/gr/replication.c:55-71 | once a bound is below all version vectors of a replica, no later step stores a version at or below it |
| `Guarantees.SnapshotStable` | src/server/protocols/gr/snapshot.c:75-102 | every slice read at a chosen snapshot time, at any later step and partition, gives the same version |
| `Guarantees.SnapshotComplete` | src/server/protocols/gr/slice.c:13-51 | every update issued anywhere at or below a stable snapshot time is in the snapshot, as itself or a newer version of its key, or is not stored because a version later than the snapshot replaced it or because it is stuck |
| `Guarantees.SnapshotCausal` | src/server/protocols/gr/slice.c:13-51 | if a snapshot time covers an update, the same holds for everything at or below the update's dependency time |
| `Guarantees.StableIsComplete` | src/server/protocols/gr/gst.c:28-82 | every update at or below a stable time of `gr`, from any replica, is stored, superseded or stuck at every partition of the replica |
| `Guarantees.NeverStuck` | src/server/protocols/gr/replication.c:14-91 | in runs of the whole store without a stall no update is stuck at any server |
| `Guarantees.GrCausalPast` | src/server/protocols/gr/getput.c:146-160 | when a `gr` get returns a remote version, the same holds for everything its writer had read or written |
| `Guarantees.SnapshotHasUpdate` | src/server/protocols/gr/store.c:104-110 | a put reaches a snapshot if and only if it is stored or the snapshot had a newer version already |
| `Witnesses.SnapshotLosesUpdate` | src/server/protocols/gr/store.c:104-110 | a run in which an update is missing from a snapshot that every entry of the version vector covers |
| `Guarantees.DependencyClosed` | src/server/protocols/grv/getput.c:105-123 | a get returns a remote version only when the updates its vector covers are stored or superseded at every partition |
| `Guarantees.CausalPastPresent` | src/client/protocols/grv.c:77-91 | then everything the writing client had read or written is present or superseded |
| `Guarantees.SessionIsStable` | src/client/protocols/grv.c:110-128 | the stable vector of a client whose gets were answered by servers of a replica is below every version vector there |
| `Guarantees.PrefixCompleteInRuns` | src/server/protocols/grv/replication.c:58-93 | prefix completeness in every state of every run |
| `Guarantees.TransitiveVisibility` | src/server/protocols/grv/store.c:24-36 | when a version is visible, whatever its writer knew, by get, put or transaction, is visible if and only if it was written at the reader's replica or its entries other than the reader's and its source's are stable |
| `Guarantees.OwnPutVisible` | src/client/protocols/grv.c:77-91 | what a client put itself is visible wherever a later put of it is visible |
| `Guarantees.GetVisibility` | src/server/protocols/grv/store.c:24-36 | for a remote version returned to the writer by a get, if and only if the entry of the writer's replica is stable |
| `Witnesses.DependencyHidden` | src/server/protocols/grv/store.c:24-36 | a run of three replicas in which a get returns a version and a get of what its writer had read returns nothing |
| `Guarantees.GetIff` | src/server/protocols/gr/store.c:41-46 | in every run a get returns something as new as a given time if and only if the chain has a version as new that was written at the replica or is stable: by its time in `gr`, by its dependencies on other replicas in `grv` |
| `Guarantees.LocalPutIsRead` | src/server/protocols/gr/getput.c:146-160 | every later get at the server returns at least what a local put stored |
| `Guarantees.GetsNeverGoBack` | src/server/protocols/gr/getput.c:146-160 | later gets of a key at a server never return an older version, in either protocol |
| `PtrArrays.FirstFree` | src/ptr_array.c:27-48 | the first free slot: everything before it is in use |
| `PtrArrays.PtrArray.Put` | src/ptr_array.c:27-48 | the scan takes the first free slot or appends; other slots are unchanged |
| `PtrArrays.PtrArray.Set` | src/ptr_array.c:21-25 | one slot changes |
| `Transactions.IdsBelow` | src/server/protocols/grv/rotx.c:93-99 | the indices of a slice: exactly those whose keys belong to the partition, in order |
| `Transactions.SlicesPartition` | src/server/protocols/grv/rotx.c:76-108 | every key index, duplicates included, is in exactly one slice, once, with its own key, sent to the owner of the key |
| `Transactions.ServeSlice` | src/server/protocols/grv/slice.c:66-69 | the loop reads every key of the slice at the snapshot vector |
| `Transactions.Coordinator.ProcessRequest` | src/server/protocols/grv/rotx.c:62-109 | takes a slot and sends exactly these slices |
| `Transactions.Coordinator.SendSlice` | src/server/protocols/grv/rotx.c:76-106 | the two loops build one slice, none for a partition without keys |
| `Transactions.Coordinator.ProcessSliceResponse` | src/server/protocols/grv/slice.c:80-98 | the gather loop and the completion test: answer and free the slot, or keep it |
| `TransactionRuns.StepInv` | src/server/protocols/grv/slice.c:52-98 | any interleaving keeps: an index is open exactly while a message for its slice is in flight; messages name live slots |
| `TransactionRuns.RunInv` | src/server/protocols/grv/rotx.c:62-127 | this in every state of every run, with slots used again |
| `TransactionRuns.CompleteIsAlone` | src/server/protocols/grv/slice.c:95-97 | when the count is complete no message of the transaction is left |
| `TransactionRuns.NeverStale` | src/server/protocols/grv/slice.c:80-92 | no message arrives for a free slot; array accesses are in range |
| `TransactionRuns.AnsweredOnceAndRight` | src/server/protocols/grv/rotx.c:111-127 | exactly one response, every value is the one read for its own key, the dependency vector is the per-source maximum |
| `TransactionRuns.AnsweredIffKeys` | src/server/protocols/grv/slice.c:95-97 | once everything is delivered a transaction is answered if and only if it has keys |
| `GrvTransactions.StepInv` | src/server/protocols/grv/slice.c:26-98 | next to the store, every read is that of its slice: the store, stable vector and clock of the owner in one state after the start, both at least those of the request |
| `GrvTransactions.RunInv` | src/server/protocols/grv/rotx.c:43-109 | this in every state of every run |
| `GrvTransactions.ReturnsAreClosed` | src/server/protocols/grv/slice.c:14-78 | for every version that a transaction returns, every update its vector covers, from any replica, is stored or superseded at every partition of the replica, then and later |
| `GrvTransactions.AsNewIff` | src/server/protocols/grv/slice.c:14-68 | the answer for a key is at least as new as a given time if and only if the owner had such a version within the vector of the slice |
| `GrvTransactions.SliceComplete` | src/server/protocols/grv/slice.c:52-78 | a stable or local update with a vector within that of the slice is returned, as itself or a newer version, or was replaced by a version beyond the slice |
| `GrvTransactions.ReturnsStartCut` | src/server/protocols/grv/rotx.c:54-106 | the answer is at least as new as every version within the cut at which the transaction started, which covers the client's stable vector and dependency time |
| `TornRead.NotOneSnapshot` | src/server/protocols/grv/slice.c:56-68 | a run in which the answer holds a version and not the one it depends on |
| `GrRotx.Server.ProcessRequest` | src/server/protocols/gr/rotx.c:43-72 | takes a slot, and asks for the snapshot or waits |
| `GrRotx.Server.GstUpdateCallback` | src/server/protocols/gr/rotx.c:95-104 | wakes up one transaction if it waits for less than the stable time |
| `GrRotx.Server.OnGstUpdated` | src/server/protocols/gr/rotx.c:106-109 | the foreach wakes exactly those transactions, in slot order |
| `GrRotx.Server.UpdateStableTime` | src/server/protocols/gr/gst.c:197-205 | raises the stable time and wakes up |
| `GrRotx.Server.ProcessSnapshotRequest` | src/server/protocols/gr/snapshot.c:52-73 | takes a snapshot slot |
| `GrRotx.Server.SnapshotLocked` | src/server/protocols/gr/snapshot.c:75-84 | the snapshot time is the stable time after merging the client's |
| `GrRotx.Server.SendResponse` | src/server/protocols/gr/rotx.c:74-93 | the client of the transaction gets the values, update time and stable time of its snapshot; both slots are free again |
| `GrRotxRuns.StepInv` | src/server/protocols/gr/rotx.c:43-109 | any interleaving keeps: one request or snapshot per transaction that does not wait, none per one that waits |
| `GrRotxRuns.RunInv` | src/server/protocols/gr/rotx.c:43-109 | this in every state of every run |
| `GrRotxRuns.WaitingIffNotRequested` | src/server/protocols/gr/rotx.c:64-71 | a waiting transaction depends on a time at or above the stable time and has not asked; any other has asked exactly once |
| `GrRotxRuns.SnapshotCovers` | src/server/protocols/gr/snapshot.c:75-84 | one answer per transaction, from a snapshot time that covers its dependency time and its client's stable time |
| `GrRotxRuns.OnlyWaitersRemain` | src/server/protocols/gr/rotx.c:95-109 | with nothing under way, exactly the transactions that asked are answered and the others wait |
| `GrRotxRuns.WakeIsStrict` | src/server/protocols/gr/rotx.c:66-100 | at equality a new transaction starts and a waiting one goes on waiting |
| `GrSnapshots.Coordinator.SendSlices` | src/server/protocols/gr/snapshot.c:86-102 | the loop sends one slice request per key, with its index and the snapshot time |
| `GrSnapshots.ServeSlice` | src/server/protocols/gr/slice.c:38-51 | a slice reads its key at the snapshot time |
| `GrSnapshots.Coordinator.ProcessSliceResponse` | src/server/protocols/gr/slice.c:72-85 | the value goes to its index; the last one answers and frees the slot |
| `GrSnapshots.SliceReadFixed` | src/server/protocols/gr/slice.c:13-51 | a slice finds the same version in every state from the one in which the time was chosen |
| `GrSnapshots.StepInv` | src/server/protocols/gr/slice.c:21-85 | any interleaving with the store keeps: an index is open exactly while its request or reply is in flight, closed indices hold the snapshot's values |
| `GrSnapshots.RunInv` | src/server/protocols/gr/snapshot.c:52-124 | this in every state of every run, next to every run of the store |
| `GrSnapshots.CompleteIsAlone` | src/server/protocols/gr/slice.c:82-84 | when the count is complete no message of the snapshot is left |
| `GrSnapshots.NeverStale` | src/server/protocols/gr/slice.c:72-82 | no message arrives for a free slot; every value has its place |
| `GrSnapshots.AnswerIsOneSnapshot` | src/server/protocols/gr/snapshot.c:75-124 | one answer per snapshot; its values are exactly the newest versions at or below the snapshot time in the one state in which it was chosen, whenever the slices are served; update time = their maximum; the stable time sent covers the snapshot and is stable |
| `GrSnapshots.AnsweredIffKeys` | src/server/protocols/gr/slice.c:82-84 | once everything is delivered exactly the snapshots with keys are answered |
| `GrTransactions.StepInv` | src/server/protocols/gr/snapshot.c:52-124 | waiting, choosing, gathering and answering together with the store: one gathering per transaction, with its keys and the chosen time |
| `GrTransactions.RunInv` | src/server/protocols/gr/rotx.c:43-109 | this in every state of every run |
| `GrTransactions.FinishPossible` | src/server/protocols/gr/snapshot.c:104-124 | the last slice always finds the slot of its transaction |
| `GrTransactions.TransactionIsOneSnapshot` | src/server/protocols/gr/rotx.c:43-93 | one answer per transaction: the newest versions of its keys in one state of the store after the request, at a stable time that covers the client's dependency time and stable time |
| `GrTransactions.ClientSeesItsPast` | src/client/protocols/gr.c:63-104 | for every requested key the answer is at least as new as every update the client had read or written, unless that was replaced by a version later than the snapshot or is stuck |
| `GrTransactions.AnsweredIffAsked` | src/server/protocols/gr/rotx.c:43-109 | once everything is delivered exactly the transactions with keys that are past the wait are answered, the others wait |
| `Network.FifoPerDestination` | src/network.c:27-53 | messages to one destination arrive in the order they were sent, for any send times |
| `Network.NoOverlap` | src/network.c:44-47 | transmissions do not overlap and none starts before its message is sent |
| `Network.ReceptionTime` | src/network.c:41-47 | over any sequence of sends: a transmission starts at the send time or the end of the one before, lasts as long as its bytes need at the rate, and the message arrives after the delay |
| `Network.LoadIsBytes` | src/network.c:41-46 | the transmission time accepted, times the rate, is the number of bytes sent |
| `Network.BusyIsLargest` | src/network.c:44-46 | `busy_until` is exactly the largest of: a send time plus all transmission time accepted from then on |
| `Network.Interface.NetworkSend` | src/network.c:27-61 | computes the reception time: from the later of send time and `busy_until` the bytes leave at the rate, then the delay; the ordering assertion is proved |

## Left out

- Several cores per server in `System` and `Guarantees`: what they build on is false there
  when a heartbeat overtakes an update; the exact conditions are in `Overtaking`.
- `Overtaking.RunTiming`: this and the run theorems built on it are for servers whose
  timestamps strictly advance; on several cores two events of a server could fall on the
  same time. What a put at a repeated time does to an entry is part of
  `Overtaking.CompleteIff`.
- `gr` with a single partition in `System`: the stable time is not safe, see
  `System.OnePartition`.
- Drain and prefix completeness for `gr` in runs with a stall: false because of the blocked
  queue, see `GrStall`; what holds instead is `GrStall.SettledOrStuck`.
- Messages between clients and servers and slice messages, as carriers of stable times: a
  growing set of values, each of which may arrive late, more than once or never. This
  allows more behaviours than the FIFO network does.
- `gr` keeps one slot per snapshot; `GrRotx` and `GrSnapshots` number the slots of the
  two phases separately, and `GrTransactions` links them. A snapshot requested by another
  server (`client_lpid` not the own server) does not occur in the code and is not modelled.
- The handlers of an arriving stable time under the lock and after the unlock are one step
  in `StableTime`. What the second sends or schedules can only be late, which the channels
  allow anyway, and the lock keeps the order.
- A put, and a clock tick that sends the time, is one step also in `ReplicaGroup` and
  `Convergence`: the handler that sends is the continuation of the unlock and runs when the
  lock is released, so messages leave in the order of the critical sections.
- Forwarding of gets and puts to the owner of the key, and waiting for the clock before a
  put: the model starts at the critical section, with the clock already past the dependencies.
- The two arrays of mutexes and reader/writer locks are one sequence with a flag, and
  lock and handler times are arbitrary, positive for lock requests as the configured lock
  time is.
- A zero-delay CPU_EVENT is the next event of its server, as the code assumes.
- Handlers that end while holding locks or ask for a lock they already hold in a
  conflicting mode: excluded in `CpuSingleCore` only. The protocol handlers do neither.
- Wrap-around of 32-bit unsigned arithmetic in the tree functions and counters, and
  rounding of doubles: integers and reals are exact.
- The call of garbage collection, which is commented out in `gr/gst.c` and empty in `grv`:
  the function itself is modelled.
- `src/store.c` (hash table), `src/queue.c` (the FIFO of the update queues, a `seq` here;
  the richer linked list of `src/cpu/list.c` is modelled), message layout, memory
  management, statistics, parameters, workloads, output and ROOT-Sim: they hold no state
  of the protocols or of the scheduler.
