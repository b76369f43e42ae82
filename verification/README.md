# Verification of the microVM platform's core

A Dafny 4.11 model of three parts of the platform, with proofs about every run of them:

* **The VM pool** (`pool-manager`). Each function has a pool: a bounded channel of warm
  machines, a first-in-first-out queue of waiting requests with a one-slot channel each, and
  a counter of boots and machines that `MaxVMs` caps. Requests, replacement boots and an idle
  sweeper move machines between these places under short lock sections and through channels
  outside the lock.
* **Snapshot freshness** (`artifact-store` with `pool-manager`). A deploy installs an image,
  boots it and renames a snapshot pair into place; the pool trusts the pair by comparing
  modification times.
* **Instances** (`instance-manager`, fed by the frontend). Start, Stop and Delete build and
  unwind a tap device, two DNAT rules, a process, a socket, a run-state file and a disk;
  after a restart the manager adopts what it finds. The frontend hands out the addresses.

A small fourth part is the truncation of recorded request bodies.

`dafny verify dfyconfig.toml` checks everything.

## How it is built

| files | contents |
|---|---|
| `Options`, `Folds`, `PoolTypes` | optional values; sums over goroutines and channels; machines and the queue rule |
| `PoolMachine` | the pool as a step machine: one step per lock section, channel operation, spawn, kill, decrement or call to the outside; goroutines interleave freely |
| `PoolAccounting`, `PoolInvariant`, `PoolHistory` | where machines, slots and send rights are, and the invariant every step keeps |
| `PoolSafety`, `PoolRuns`, `PoolScenarios` | what holds in every reachable state and along every run, and runs that show what does not |
| `PoolPromises` | every waiting request is answered or still owed an answer |
| `PoolBoots`, `PoolOutcomes` | what is recorded of a machine is how it came up; what each boot, invocation and sweeper decision comes to |
| `PoolLosses` | exactly which steps lose a wake-up or a machine |
| `PoolOps` | the pool as a class, its operations as methods, each one step |
| `PoolSemaphore` | the semaphore that `PoolOps` refines |
| `PoolAtomicity`, `PoolComposition` | `PoolOps`' operations are uninterrupted runs of `PoolMachine`, and runs put together from them give the semaphore's outcomes |
| `SnapshotMachine`, `SnapshotSafety`, `SnapshotRuns` | deploys, deletes, base rebuilds and boots, one file operation a step; freshness; runs for the assumptions |
| `SnapshotFiles` | the handlers as methods of a directory object |
| `InstanceHost`, `InstanceSafety` | effects on the host, the operations as functions, the invariant over any history |
| `InstanceManager` | the manager as a class that records the host after each effect, so that a crash can be placed after any of them |
| `InstanceSteps`, `InstanceInterleaving`, `InstanceScripts` | every effect a step of its own, operations on different instances interleaved; what holds then; the operations as uninterrupted scripts |
| `Addresses` | the allocator's table, handlers and text formats |
| `MetricsBody` | truncation and UTF-8 validity (section 4 of RFC 3629) |

In `PoolMachine` a goroutine's program counter says what it holds. A slot is one unit of
`booted`; a ticket is the right to send on, or close, one waiter's channel. The invariant
counts references per machine, slots, tickets per channel and receivers per channel, and each
step is shown to move them, never to copy or lose one.

## What turned out not to hold

Each of these is shown by a concrete run or outcome, and beside it stands the exact condition
under which the property does hold.

* A wake-up can be lost: between `returnVM`'s lock section and its push a request can queue,
  and then sleeps beside an idle warm machine (`WakeUpCanBeLost`). On any run nobody sleeps
  beside a warm machine or a free slot if and only if no step frees something unseen while
  somebody is queued: a push with room, by `returnVM` or the sweeper, or the decrement of
  `returnVM`, the sweeper or a failed boot (`NoLostWakeUpExactlyIf`).
* A machine can be lost: when a delivery and a cancellation are both ready the select may take
  the cancellation, and the machine stays in the abandoned channel (`MachineCanBeLost`). On any
  run no machine is lost if and only if no step is such a cancellation or a send to an already
  abandoned channel, and otherwise exactly as many are lost (`NoLostMachineExactlyIf`). Each
  loss costs a slot for good (`OrphansCostCapacity`); after `MaxVMs` of them the pool never
  serves again (`OrphanedPoolIsDead`).
* The `.mem` file is checked for existence only. The pair matches if and only if the last
  rename onto `.snap` was followed by one onto `.mem` (`PairMatches`); otherwise a mismatched
  pair can be usable (`UsableButMismatched`).
* A failed Start restores the network if and only if it did not fail at setting the bridge or
  bringing the device up, which leaves the device, or at the second rule, which leaves the first
  (`FailedStartRestoresNetwork`).
* `writeRunState` ignores its error: a started instance is found again after a restart if and
  only if the write went through (`FoundAgainExactlyIfRecorded`); otherwise its process and
  network stay behind (`LostRecordIsNotAdopted`).
* Deleting does not make room: a create is refused for want of addresses if and only if 253 rows
  have ever been made (`CreateTakesTheNextAddress`), and stays refused (`FullForever`).

Where comments and code disagree the code is followed: the header of
`instance-manager/manager.go` (lines 6-7) says that a restart stops running instances, but
`adopt` re-attaches them; the comment on `booted` (`pool-manager/manager.go:60`) says warm plus
busy machines, but it also counts boots in progress, machines in transit or in a channel, and
killed machines whose slot is not yet given back.

## Assumptions

* Killing a process is immediate. Machine names and pids are never reused.
* The clock never goes back; ticks are integers and modification times are read from it.
* Spawning, configuring, snapshot loading, readiness waits and invocations are choices of the
  environment: any of them may succeed or fail. A process may exit by itself at any time.
* Removing a file succeeds. Under a cap of one at most one boot of a function is in progress
  (by the pool's cap), so the snapshot machine has one boot at a time.
* `PoolOps` and `PoolSemaphore` take each operation as one step; `PoolComposition` carries their
  results to runs of the step machine in which the operations are not interrupted. Everything in
  `PoolSafety`, `PoolRuns` and `PoolLosses` holds on all interleavings.
* Deploys of one function are serial, and the base image is rebuilt only while none runs
  (`update-bootstrap.sh` stops the services); a stop may cut a deploy off at any step. The
  assumption is needed: overlapping deploys, or a base rebuild during a deploy, can leave a stale
  snapshot that is accepted (`DeploysMustNotOverlap`, `RebuildMustNotOverlap`).
* Operations on one instance id do not overlap; those on different ids may, effect by effect
  (`InstanceInterleaving`). Two creates in the frontend do not overlap. Tap names
  of different instances differ: they are the last eight characters of the id, which is
  required of the ids (`Registry`).

## Model

| member | source | states |
|---|---|---|
| PoolSafety.Conservation | pool-manager/manager.go:109-300 | On every interleaving `booted` is the disjoint sum of boots, busy, warm, delivered, orphaned and carried machines and slots not yet given back; every machine is in at most one place, a live one in exactly one, a killed one in none |
| PoolSafety.CapHolds | pool-manager/manager.go:134-136 | Live processes never outnumber `booted`, `booted` is never negative, and with a positive `MaxVMs` never exceeds it |
| PoolSafety.RestoreTakesAFreePath | pool-manager/manager.go:312-316 | When `restoreVM` is about to take the canonical vsock path, no process of the function's pool is alive |
| PoolSafety.ChannelsAreSingleUse | pool-manager/manager.go:229-300 | Each waiter channel has had at most one send or close; whoever sends on or closes one finds it empty and unused; nothing panics and a pending send never blocks |
| PoolPromises.NobodyIsForgotten | pool-manager/manager.go:229-300 | In every reachable state the channel of a client still there has been used exactly once, or exactly one place, the queue or one goroutine, still has to send on it or close it |
| PoolPromises.WaitingIsAnswered | pool-manager/manager.go:150-172 | A waiting request whose client is there can receive the machine sent to it, and then serves with that one, or its closing, which ends it, or else one place still owes it an answer |
| PoolPromises.NobodyIsStuck | pool-manager/manager.go:109-300 | In every reachable state every goroutine that neither waits for a channel nor has finished can take a step, those that owe an answer included |
| PoolSafety.OneRequestPerMachine | pool-manager/manager.go:177-226 | No machine serves two requests at once; a killed machine is neither warm, nor in a waiter channel, nor alive |
| PoolSafety.StartTypesTellTheLife | pool-manager/manager.go:161-223 | A machine's records are its boot kind once with its boot time, then only warm starts with time zero; an infra error is the last record; restored machines exist only under a cap of one; warm machines are never fresh; every machine is of its pool's function |
| PoolBoots.BootsAreRecorded | pool-manager/manager.go:302-334 | On any run from the empty pool a machine comes up at most once, as what it was spawned for; its kind is restored if and only if it was spawned for a restore and came up; its first record has the kind and time of that one step, later ones are warm with time zero |
| PoolOutcomes.ColdBoot | pool-manager/manager.go:326-333 | A boot without a usable snapshot ends with a machine up as cold, fresh exactly if it is for a waiter |
| PoolOutcomes.RestoredBoot | pool-manager/manager.go:316-321 | Under a cap of one a snapshot restore that succeeds ends with a machine up as restored |
| PoolOutcomes.RestoreNotSpawned | pool-manager/manager.go:316-333 | A restore that fails before its process runs ends with a machine up as cold |
| PoolOutcomes.FailedRestoreBoot | pool-manager/manager.go:316-333 | A restore that fails later has its process killed, and another machine comes up as cold |
| PoolOutcomes.FailedBoot | pool-manager/manager.go:302-309 | Without an image, or when the cold boot fails, there is no machine, one that was spawned is killed, and next the goroutine closes the channel of the waiter it booted for, or gives the slot back if it booted for its own request |
| PoolOutcomes.InvocationEnds | pool-manager/manager.go:184-226 | A healthy answer leaves one more record without an error and the machine, used now, on its way back; a failure leaves one with an error and the machine killed |
| PoolOutcomes.FirstRecord | pool-manager/manager.go:187-207 | The first record of a machine booted for a request is its boot kind and its boot time |
| PoolOutcomes.DeliveredServes | pool-manager/manager.go:156-168 | A machine booted for a waiter serves it under its boot kind and time; one handed on after an invocation serves as warm with time zero |
| PoolOutcomes.WarmIsAQueue | pool-manager/manager.go:117-130 | Every step takes the oldest machine from the warm channel, adds one behind the others if there is room, or leaves it |
| PoolOutcomes.OldestIsReused | pool-manager/manager.go:117-132 | With or without the lock a request that finds a warm machine serves with the oldest one, as warm |
| PoolOutcomes.SweeperJudgesByAge | pool-manager/manager.go:463-478 | On any interleaving the sweeper sets out to kill a machine if and only if it was last used more than 120 seconds before the tick |
| PoolInvariant.CoreStep | pool-manager/manager.go:109-300 | Every labelled step keeps exclusive ownership, the slot balance with its caps, single-use tickets and one receiver per channel |
| PoolHistory.InvStep | pool-manager/manager.go:109-495 | Every labelled step keeps the whole invariant, the machines' histories included |
| PoolHistory.InvRun | pool-manager/manager.go:109-495 | Every run from a state that satisfies the invariant ends in one |
| PoolRuns.PopsShorten | pool-manager/manager.go:257-268 | A lock section of `returnVM`, `discardVM` or `failWaiters` shortens a nonempty queue; `discardVM`'s capacity guard is true then |
| PoolRuns.BoundedWaiting | pool-manager/manager.go:230-295 | On every interleaving a request with k others ahead has left the queue after k + 1 such sections |
| PoolRuns.NeverRequeuedRun | pool-manager/manager.go:65-77 | A waiter that has left the queue never comes back into it |
| PoolRuns.KilledGrows | pool-manager/manager.go:254-255 | Over any run the set of killed machines only grows |
| PoolRuns.OrphansGrow | pool-manager/manager.go:156-172 | Over any run the number of machines orphaned in abandoned channels does not fall |
| PoolRuns.OrphanStaysRun | pool-manager/manager.go:156-172 | On every continuation an orphaned machine stays in its channel |
| PoolRuns.OrphansCostCapacity | pool-manager/manager.go:156-172 | From the moment machines are orphaned, on every continuation, booting, busy, carried and warm slots together are at most `MaxVMs` minus their number |
| PoolRuns.OrphanedPoolIsDead | pool-manager/manager.go:156-172 | Once `MaxVMs` machines are orphaned the pool never serves again |
| PoolRuns.NeverKillsBecauseFull | pool-manager/manager.go:240-249 | With 0 < `MaxVMs` <= `WarmPoolSize` no run enters a kill-because-full branch |
| PoolRuns.ReachableNeverKillsBecauseFull | pool-manager/manager.go:483-491 | The same for every reachable state, the sweeper's branch included |
| PoolScenarios.WakeUpCanBeLost | pool-manager/manager.go:230-242 | A reachable state with a live queued request beside an idle warm machine where only the sweeper can move |
| PoolScenarios.MachineCanBeLost | pool-manager/manager.go:156-172 | A reachable state under a cap of one whose only machine is in an abandoned channel |
| PoolLosses.WakeUpIsLostExactlyBy | pool-manager/manager.go:229-300 | From a state where queued requests have a reason to wait, a step leads to one where they have none if and only if it pushes a machine or gives a slot back, unseen, while the queue is nonempty |
| PoolLosses.NoLostWakeUpExactlyIf | pool-manager/manager.go:117-300 | On any run from the empty pool nobody ever sleeps beside a warm machine or a free slot if and only if no such step occurs |
| PoolLosses.MachineIsLostExactlyBy | pool-manager/manager.go:156-172 | A step strands a machine, one, if and only if it takes a cancellation beside a delivery or sends to an abandoned channel |
| PoolLosses.LostMachinesAreCounted | pool-manager/manager.go:156-172 | Along any run exactly as many machines are stranded as there are such steps |
| PoolLosses.NoLostMachineExactlyIf | pool-manager/manager.go:156-172 | On any run from the empty pool no machine is ever stranded if and only if there is no such step |
| PoolScenarios.UninterruptedSweep | pool-manager/manager.go:463-492 | A sweep that nobody interrupts is a filter: warm machines not idle too long stay in order, exactly the others are killed, `booted` falls by their number, nothing else changes |
| PoolScenarios.SweepKillsTheIdle | pool-manager/manager.go:463-492 | On the clock: after such a sweep the machines still warm were used within 120 seconds, those killed were not, the two together are the old warm channel with both orders kept, and processes and slots of the killed are gone |
| PoolTypes.SplitByAge | pool-manager/manager.go:463-478 | Splitting a warm channel by age, at 120 seconds, keeps both orders and loses nobody |
| PoolTypes.PopShortens | pool-manager/manager.go:65-77 | Popping leaves a suffix of the queue, a shorter one unless it was empty |
| PoolTypes.PopTakesLiveHead | pool-manager/manager.go:65-77 | Popping takes exactly the head of the queue of clients still there |
| PoolTypes.LiveIsEmpty | pool-manager/manager.go:65-77 | Popping yields nothing if and only if no client is still there, and then the queue is empty |
| PoolOps.ArriveKeeps | pool-manager/manager.go:117-152 | Admission keeps "requests wait only when nothing is warm and the cap is reached"; a newcomer that does not queue finds no queue |
| PoolOps.ReturnKeeps | pool-manager/manager.go:229-250 | `returnVM` as one step keeps it |
| PoolOps.DiscardKeeps | pool-manager/manager.go:254-272 | `discardVM`'s lock part keeps it |
| PoolOps.FailBootKeeps | pool-manager/manager.go:140-146 | A failed boot with its drain keeps it |
| PoolOps.SweepKeeps | pool-manager/manager.go:463-492 | A sweep as one step keeps it |
| PoolOps.Pool.constructor | pool-manager/manager.go:102-105 | A new pool is empty |
| PoolOps.Pool.PopWaiter | pool-manager/manager.go:65-77 | The loop returns the first waiter still there and drops it and everybody before it |
| PoolOps.Pool.Admit | pool-manager/manager.go:117-152 | Reuses the oldest warm machine, boots or queues; queues exactly when all `MaxVMs` slots are in use; never overtakes a queue |
| PoolOps.Pool.ReturnVM | pool-manager/manager.go:229-250 | Hands the machine to the first live waiter, or keeps it warm, or gives its slot back only if the warm channel is full |
| PoolOps.Pool.DiscardVM | pool-manager/manager.go:254-272 | Passes the slot to the first live waiter, or frees it and leaves an empty queue |
| PoolOps.Pool.FailWaiters | pool-manager/manager.go:291-300 | Empties the queue and closes every channel that was in it, in order |
| PoolOps.Pool.BootFailed | pool-manager/manager.go:140-146 | Gives one slot back, empties the queue, closes every channel that was in it, and leaves the warm machines |
| PoolOps.Pool.ReplacementFailed | pool-manager/manager.go:274-284 | Closes the popped waiter first, then everybody in the queue; gives one slot back, empties the queue and leaves the warm machines |
| PoolOps.Pool.EmptyWarm | pool-manager/manager.go:465-481 | Splits the warm channel: machines used within 120 seconds stay, the others are killed and give a slot back each; the two together are the old channel with both orders kept |
| PoolOps.Pool.PutBack | pool-manager/manager.go:482-492 | Uninterrupted, every recent machine goes back in order; the kill branch is dead |
| PoolOps.Pool.SweepPool | pool-manager/manager.go:463-492 | One pool's sweep leaves warm exactly the machines used within 120 seconds, in order, kills the others, gives back a slot for each and leaves the queue alone |
| PoolOps.PoolManager.GetPool | pool-manager/manager.go:96-107 | One pool per function, made empty on first use, never replaced or shared |
| PoolSemaphore.OpRefines | pool-manager/manager.go:109-300 | Each operation by somebody who has a slot is the same operation of a first-come-first-served semaphore of `MaxVMs` slots, with the same outcome; warm reuse and sweeps are invisible |
| PoolSemaphore.PoolIsASemaphore | pool-manager/manager.go:109-300 | Any sequence of such operations gives the same grants, queueings, hand-overs and failures in the same order as the semaphore |
| PoolSemaphore.NoBarging | pool-manager/manager.go:126-152 | A request is granted a slot exactly when one is free, and only if no live request is queued |
| PoolSemaphore.UncappedNeverQueues | pool-manager/manager.go:134-136 | Without a cap no sequence of operations ever queues a request |
| PoolAtomicity.HolderHasASlot | pool-manager/manager.go:229-284 | On every interleaving a goroutine about to return a machine, give back a discarded slot or undo a failed boot has a slot besides those of the warm machines |
| PoolAtomicity.AdmissionIsARun | pool-manager/manager.go:117-152 | Admission as one step is a run of the step machine |
| PoolAtomicity.ReturnIsARun | pool-manager/manager.go:229-250 | `returnVM` as one step is a run of the step machine that ends with the machine in the waiter's channel, or with no channel touched and the machine warm or killed; its slot is in use before |
| PoolAtomicity.DiscardIsAStep | pool-manager/manager.go:257-272 | `discardVM`'s lock part is one step by a holder of a slot; a reserved slot goes to a goroutine booting for the popped waiter |
| PoolAtomicity.CloseAll | pool-manager/manager.go:297-299 | `failWaiters`' loop closes every channel it took |
| PoolAtomicity.FailedBootIsARun | pool-manager/manager.go:140-146 | A failed boot with its drain is a run by a holder of a slot that closes every queued channel |
| PoolAtomicity.FailedReplacementIsARun | pool-manager/manager.go:274-284 | A failed replacement, uninterrupted, is a run that closes the popped waiter's channel and every queued one, gives the slot back and leaves an empty queue: what the class's operation does |
| PoolAtomicity.SweepIsARun | pool-manager/manager.go:455-492 | A sweep as one step is a run of the step machine |
| PoolComposition.OperationIsAMove | pool-manager/manager.go:109-300 | An operation that the step machine carries out without interruption is a move of the semaphore, and its outcome shows in the machine: who serves, boots or waits, what is in whose channel, what is closed |
| PoolComposition.UninterruptedPoolIsASemaphore | pool-manager/manager.go:109-495 | From the empty pool, any run made of uninterrupted operations, with any other steps between them, shows the semaphore's outcomes in the same order, and its slots and queue are the semaphore's |
| SnapshotSafety.InvStep | artifact-store/snapshot.go:31-85 | Every file operation of a serial history keeps "a snapshot newer than an image was made from it", wherever the snapshot is |
| SnapshotSafety.InvRun | artifact-store/builder.go:24-130 | Every serial run keeps it |
| SnapshotSafety.ImagesAreDated | artifact-store/builder.go:162-166 | An image installed by a copy is as new as the copy; one installed by a rename is as old as its build and no older than any snapshot there was |
| SnapshotSafety.StoppedStoreIsIdle | update-bootstrap.sh:26-28 | Stopping the services ends every deploy where it is and touches no file |
| SnapshotSafety.UsableIsFresh | pool-manager/manager.go:431-449 | A snapshot accepted after four separate stats, files changing in between, was made from the images those stats saw |
| SnapshotSafety.UsableNowIsFresh | pool-manager/manager.go:427-449 | If `snapshotUsable` holds of the files, the snapshot was made from the current code and base images |
| SnapshotSafety.PairMatches | artifact-store/snapshot.go:79-84 | `.snap` and `.mem` belong together if and only if the last rename onto `.snap` was followed by one onto `.mem` |
| SnapshotSafety.FailuresAreBounded | pool-manager/manager.go:316-324 | Along any run, serial or not, failed restores never exceed the `.snap` files initially there or installed |
| SnapshotSafety.ReachableFailuresAreBounded | pool-manager/manager.go:421-425 | The same for every reachable state |
| SnapshotSafety.FailuresHaveACause | pool-manager/manager.go:302-334 | On any run, serial or not, a boot that failed did so by its last step, which began it without an image or was a cold boot that failed |
| SnapshotSafety.FailedRestoreComesToColdBoot | pool-manager/manager.go:316-326 | After a failed restore a boot comes to its cold boot two steps later, whatever deploys, deletes and rebuilds do meanwhile |
| SnapshotSafety.BadSnapshotFallsBack | pool-manager/manager.go:316-329 | What one failed restore does to the files when nobody interferes |
| SnapshotFiles.CompleteDeployIsUsable | artifact-store/builder.go:53-105 | A complete deploy leaves a usable, matching pair made from the image just installed, if the clock has moved on |
| SnapshotFiles.DeployNeverRevivesOldSnapshot | artifact-store/builder.go:82-100 | However a deploy ends, only its own snapshot can be usable with its image |
| SnapshotFiles.FunctionDir.HandleDelete | artifact-store/builder.go:124-126 | Removes the image, the pair and both temporary files, and not the base image |
| SnapshotFiles.FunctionDir.BuildAndStore | artifact-store/builder.go:132-169 | Installs by rename, or by a copy that can fail after replacing the image |
| SnapshotFiles.FunctionDir.SnapshotFunction | artifact-store/snapshot.go:31-85 | What each way of failing leaves in the six files, and success only for a complete pair |
| SnapshotFiles.FunctionDir.HandleDeploy | artifact-store/builder.go:53-105 | A deploy succeeds when the image is in place, whatever becomes of the snapshot; leaves the pair and the temporary files as DeployLeavesPair spells out for every way it can go; opting out removes the old pair |
| SnapshotFiles.DeployLeavesPair | artifact-store/builder.go:53-105 | A failed build changes nothing; a failed copy only the image; a snapshot that came past its first rename is of this image and base; otherwise the old pair stays, or goes if snapshots are not wanted; no temporary file is left but one whose rename failed |
| SnapshotFiles.FunctionDir.RemoveSnapshot | pool-manager/manager.go:421-425 | Removes exactly the pair |
| SnapshotFiles.FunctionDir.IsSnapshotUsable | pool-manager/manager.go:431-449 | The early returns decide: both files exist and the snapshot is strictly newer than both images |
| SnapshotFiles.FunctionDir.BootVM | pool-manager/manager.go:302-334 | Fails exactly for a missing image or a failed cold boot; restores only under a cap of one; removes the pair exactly when a restore failed |
| SnapshotRuns.BuildIsARun | artifact-store/builder.go:132-169 | Building and installing, for every way it can go, is a run of the step machine that leaves the files the method leaves |
| SnapshotRuns.SnapshotIsARun | artifact-store/snapshot.go:31-85 | So is `snapshotFunction`, a failed boot and missing images included |
| SnapshotRuns.DeployIsARun | artifact-store/builder.go:53-105 | So is a whole deploy, for every way it can go |
| SnapshotRuns.DeployOutcome | artifact-store/builder.go:53-105 | From any reachable state, a deploy that installs an image leaves a usable snapshot if and only if one was wanted, the base is there, the clock has moved on, and it came past its first rename with a memory file beside it; a usable snapshot is then this deploy's; every deploy leaves the files that DeployLeavesPair spells out |
| SnapshotRuns.BootVMIsARun | pool-manager/manager.go:302-334 | An uninterrupted boot under a cap of one is a run of the step machine that ends as the method does and counts a failed restore exactly when it removes the pair |
| SnapshotRuns.FirstCompletes | artifact-store/snapshot.go:69-84 | A usable matching pair is reachable |
| SnapshotRuns.UsableButMismatched | artifact-store/snapshot.go:81-84 | A missed second rename leaves a reachable usable pair whose files do not belong together |
| SnapshotRuns.RebuildMustNotOverlap | update-bootstrap.sh:26-44 | A base rebuild during a deploy can leave a usable snapshot of the old base image |
| SnapshotRuns.DeploysMustNotOverlap | artifact-store/builder.go:54-92 | Overlapping deploys can leave a usable snapshot of replaced code |
| InstanceHost.TapNameFits | instance-manager/manager.go:140-147 | A tap name is `fctap` and the last eight characters of the id, or the whole of a shorter one, so it fits in 15 characters; for ids of eight characters or more names differ if and only if the last eight do |
| InstanceHost.SocketPathsDiffer | instance-manager/manager.go:149-151 | Different ids have different socket paths |
| InstanceHost.SocketPathSpelled | instance-manager/manager.go:149-151 | The path is `/tmp/fc-inst-`, the id and `.sock` |
| InstanceSafety.BootTouchesOne | instance-manager/manager.go:163-227 | Start, however it goes, changes nothing on the host that belongs to anybody else |
| InstanceSafety.BootSettles | instance-manager/manager.go:163-227 | A start without half-failed helpers attaches the instance or leaves nothing of it |
| InstanceSafety.FailedStartRestoresNetwork | instance-manager/manager.go:175-215 | A failed start restores taps and rules if and only if it did not fail at setting the bridge, at bringing the device up (the tap stays) or at the second rule (the first stays) |
| InstanceSafety.StartAnswers | instance-manager/manager.go:163-227 | Start answers well if and only if the instance is in the map afterwards; one already there is left as it is and answered well, one without a disk is refused and nothing changes, otherwise the boot decides; no disk is touched |
| InstanceSafety.StaleThingsGo | instance-manager/manager.go:175-215 | Whatever lingers on the host, a failed start leaves no tap but one that could not be set up, and no socket once it came to the spawn |
| InstanceSafety.DisksAreKept | instance-manager/manager.go:229-275 | Stop keeps every disk and does nothing to an instance that is not running; Delete takes exactly one disk |
| InstanceSafety.StopDetaches | instance-manager/manager.go:231-253 | Stop leaves nothing of the instance but its disk and touches nothing else |
| InstanceSafety.DeleteDetaches | instance-manager/manager.go:257-275 | Delete leaves nothing of the instance, running or not, and touches nothing else |
| InstanceSafety.DeleteSweepsUp | instance-manager/manager.go:269-272 | Delete of an instance that is not in the map removes its lingering tap, one rule of each kind, run-state file and disk, on any host |
| InstanceSafety.TeardownWithoutAddress | instance-manager/manager.go:353-358 | Without a port or address only the tap goes; with both, one rule of each chain goes too |
| InstanceSafety.OthersStay | instance-manager/network.go:66-103 | An effect on one instance leaves any other attached, detached or half taken down as it was |
| InstanceSafety.OpDisturbsNobodyElse | instance-manager/manager.go:163-275 | A start (tidy or not), a stop and a delete touch nothing of any other instance, whatever state that one is in |
| InstanceSafety.RestartRecovers | instance-manager/manager.go:108-138 | In whatever order adopt reads the files, every instance ends attached or fully gone, and exactly those with a live recorded process run |
| InstanceSafety.AdoptOneOutcome | instance-manager/manager.go:112-133 | On any host, one file: garbage is removed, an unreadable one is skipped, one of a live process enters the map as recorded, one of a dead process goes |
| InstanceSafety.AdoptionOutcome | instance-manager/manager.go:108-138 | On any host, in any order: a run-state file stays if and only if it is unreadable or its process lives; an id is in the map afterwards only if it was before or such a file names it, and every such id is; no process and no disk is touched |
| InstanceSafety.ConsistentIsRecoverable | instance-manager/manager.go:78-85 | A restart between operations can always put things right |
| InstanceSafety.OpKeeps | instance-manager/manager.go:163-275 | Every tidy operation, exit and restart keeps all instances attached or gone |
| InstanceSafety.HistoryKeepsOneSet | instance-manager/manager.go:72-275 | After any history of whole tidy operations, exits and restarts the ids in the map, the taps, the rule pairs (each rule once) and the run-state files are the same set |
| InstanceSafety.LostRecordIsNotAdopted | instance-manager/manager.go:91-100 | A start whose run-state write is lost leaves a process and a network that no restart can put right |
| InstanceSafety.FoundAgainExactlyIfRecorded | instance-manager/manager.go:108-138 | A started instance is in the map after a restart if and only if its run-state write went through, in whatever order the files are read |
| InstanceManager.RecoverableSurvivesCrash | instance-manager/manager.go:108-138 | If each instance is attached, gone or half taken down, a crash leads to every instance attached with its machine alive, or gone, for every order of the files |
| InstanceManager.TeardownSurvives | instance-manager/manager.go:244-250 | So it is at every host between the kill and the removal of the run-state file, whatever recoverable state the others are in |
| InstanceManager.Manager.constructor | instance-manager/manager.go:78-85 | A new manager on such a host starts consistent, with only live processes in its map, and a crash after any effect of the adoption is survived too |
| InstanceManager.Manager.AdoptFile | instance-manager/manager.go:112-133 | One run-state file: attached if its process lives, cleaned up if not, skipped with nothing changed if unreadable, removed with nothing else changed if garbage; a crash after any effect is survived |
| InstanceManager.Manager.CleanUp | instance-manager/manager.go:127-132 | Removes network, socket and run-state file of a dead instance in this order |
| InstanceManager.Manager.Adopt | instance-manager/manager.go:108-138 | The loop adopts one file after the other, and survives a crash anywhere |
| InstanceManager.Manager.TearDown | instance-manager/manager.go:353-358 | Removes both rules if there can be any, then the tap, and records the host after each |
| InstanceManager.Manager.MakeTap | instance-manager/network.go:66-75 | Which of the three commands fails decides whether the device stays |
| InstanceManager.Manager.Forward | instance-manager/network.go:83-94 | Which of the two commands fails decides whether a rule stays |
| InstanceManager.Manager.Start | instance-manager/manager.go:163-227 | All effects with rollback, for every way it can go; answers well if and only if the instance is in the map afterwards; a running instance or a missing disk changes nothing; touches nobody else, whatever state they are in, and no disk; a tidy start attaches on success and leaves nothing on failure |
| InstanceManager.Manager.TakeDown | instance-manager/manager.go:264-268 | Kill, both rules, tap and socket, with the host after each |
| InstanceManager.Manager.Stop | instance-manager/manager.go:231-253 | Detaches, keeps every disk and touches nobody else, whatever state they are in; does nothing to an instance that is not running; if the others are attached, gone or half taken down, a crash after every single effect is survived with only live machines in the map |
| InstanceManager.Manager.Delete | instance-manager/manager.go:257-275 | The same for an instance that may be running or not; its lingering host state and its disk, and no other, are gone |
| InstanceInterleaving.CmdMoves | instance-manager/network.go:66-103 | Each single effect changes its own instance's pieces as named |
| InstanceInterleaving.OthersKeepPieces | instance-manager/network.go:66-103 | and leaves those of any other instance, in whatever phase, exactly as they were |
| InstanceInterleaving.EveryPhaseHolds | instance-manager/manager.go:163-275 | On any interleaving of operations on different instances, with exits and restarts, each instance has exactly the pieces its phase names, even when starts fail half-way or lose their record |
| InstanceInterleaving.CrashAmidTeardowns | instance-manager/manager.go:108-275 | At every point of such a run of tidy starts where no start is before its run-state write, however many stops and deletes are in flight, a crash is survived |
| InstanceInterleaving.IdleIsAttachedOrGone | instance-manager/manager.go:72-275 | At every point of such a run an instance with nothing in flight is in the map exactly if it has its file, its tap and each rule once, and is attached or gone |
| InstanceScripts.StartScriptIsStart | instance-manager/manager.go:163-227 | Uninterrupted, the steps of a start are the operation, for every way it can go |
| InstanceScripts.StopScriptIsStop | instance-manager/manager.go:231-253 | So are those of a stop |
| InstanceScripts.DeleteScriptIsDelete | instance-manager/manager.go:257-275 | So are those of a delete, running or not |
| Addresses.DecimalParses | frontend/app/api/instances/route.ts:58-59 | Reading back the printed octet gives the octet |
| Addresses.FieldsOfGuestIP | frontend/app/api/instances/route.ts:67-67 | A guest address reads `172.16.0.` and the octet, and its four dotted fields are recovered |
| Addresses.MacOfGuestIP | instance-manager/network.go:107-111 | The MAC address of a guest address is `02:fc:ac:10:00:` and its last octet in two hexadecimal digits |
| Addresses.MacsDiffer | instance-manager/network.go:107-111 | Different octets give different MAC addresses |
| Addresses.MaximaOfSequential | frontend/app/api/instances/route.ts:57-61 | In a table of n allocated rows the maxima are port 39999 + n and octet 1 + n |
| Addresses.HandleKeeps | frontend/app/api/instances/route.ts:54-93 | Every create and delete keeps row k at octet k + 2 and port 40000 + k and names unique among rows not deleted, changes no row's id, name or address and takes no row away |
| Addresses.CreateTakesTheNextAddress | frontend/app/api/instances/route.ts:56-93 | 507 if and only if 253 rows exist; otherwise 409 if and only if a row not deleted has the name or any row the id; otherwise a row with the next address is added if and only if the insert goes through, whatever becomes of the boot |
| Addresses.NameIsFreeAgain | frontend/app/api/instances/route.ts:70-105 | The name of a row not deleted is refused with 409; after a successful delete of that row the same create answers 201 and adds the row |
| Addresses.NamesAreUnique | database/migrations/20260711000006_instances.sql:23-25 | Over any serial history no two rows that are not deleted share a name |
| Addresses.HistoryKeeps | frontend/app/api/instances/route.ts:56-77 | The same over any serial history |
| Addresses.NeverReissued | frontend/app/api/instances/route.ts:56-67 | Over any serial history at most 253 rows ever exist; every row has its octet in 2..254 and a port 39998 above it; no two rows, deleted or not, share an address, a MAC address or a port |
| Addresses.FullForever | frontend/app/api/instances/[id]/route.ts:85-89 | Once 253 rows exist every later create is refused, whatever is deleted |
| Addresses.TableIsARegistry | frontend/app/api/instances/route.ts:79-87 | The specs sent to the manager, with the id, address and port of their rows, have the distinct ports and addresses its invariant asks for, if tap names differ; each port is 39998 above the octet |
| Addresses.InstanceTable.Post | frontend/app/api/instances/route.ts:44-109 | The exact condition, over the rows and the outside, of each of 507, 409, 500, 502 and 201; a row with the next address and port is appended if and only if there is room, no clash and the insert goes through, in the state the boot leaves; nothing else changes |
| Addresses.InstanceTable.Delete | frontend/app/api/instances/[id]/route.ts:65-95 | The exact condition of each of 404, 502, 500 and 200; on 200 the row is marked and keeps its address, otherwise nothing changes |
| MetricsBody.TruncateBody | pool-manager/metrics_emit.go:42-52 | Bodies of at most 4096 bytes are unchanged; of longer ones, valid or not, exactly the bytes before the last character start at or below 4096 are kept and the suffix follows, 4110 bytes at most; valid text stays valid and keeps 4093 bytes or more |
| MetricsBody.CutOfValid | pool-manager/metrics_emit.go:46-51 | On valid text the cut is between 4093 and 4096 and keeps the longest prefix of whole characters |
| MetricsBody.CutAtStart | pool-manager/metrics_emit.go:47-50 | Valid text cut before a character start gives two valid texts |
| MetricsBody.CutOnlyAtStart | pool-manager/metrics_emit.go:47-50 | A valid proper prefix of valid text ends before a character start |
| MetricsBody.StartIsNear | pool-manager/metrics_emit.go:47-50 | A character starts at or at most three bytes before any position of valid text |
| MetricsBody.RunesAreEncodings | pool-manager/metrics_emit.go:46-49 | The byte sequences that count as characters are exactly the encodings of Unicode scalar values (section 3 of RFC 3629) |
| MetricsBody.SuffixSpelled | pool-manager/metrics_emit.go:51-51 | The suffix is the encoding of an ellipsis and `(truncated)`, 14 bytes |

## Left out

- UninterruptedPoolIsASemaphore: operations are not interrupted; on other interleavings it is false, as WakeUpCanBeLost shows. A client that goes away before it queues is taken to go away just after.
- PoolIsASemaphore: takes operations as single steps, by holders of a slot; UninterruptedPoolIsASemaphore derives that for the step machine.
- BoundedWaiting: counts lock sections, not time; nothing says that another one will come, which no fairness assumption in the code gives.
- UninterruptedSweep: one pool's sweep with nobody else in between; on other interleavings the sweeper is covered by the invariant and by SweeperJudgesByAge.
- UsableNowIsFresh: takes the four stats together; UsableIsFresh is the statement about separate stats, and cannot speak of files replaced after them.
- HistoryKeepsOneSet: whole operations one after the other; IdleIsAttachedOrGone is the statement for overlapping ones.
- IdleIsAttachedOrGone: starts have no half-failed helper and no lost record, as in CrashAmidTeardowns and HistoryKeepsOneSet; EveryPhaseHolds covers the others, and FailedStartRestoresNetwork and FoundAgainExactlyIfRecorded say what they leave.
- EveryPhaseHolds: a restart comes only when no start is before its run-state write and none has left residue, because nothing is recorded of those.
- NeverReissued: creates are serial, because the SELECT and the INSERT are not one transaction.
- MacsDiffer: for the addresses the frontend makes, not for arbitrary text; scanning stops at the four fields.
- Adopt: file names are the instances' ids, as writeRunState makes them; a record under another name is not part of the invariant.
- Firecracker's HTTP calls, vsock handshakes, `/proc` sampling and readiness polling: choices of the environment.
- The unlocked reads of `booted` in a log line and of `waiting` in Stats: data races of the Go memory model, not pool logic.
- Deploy-time use of the canonical vsock path by snapshotFunction: outside the pool's own exclusivity.
- A crash inside Start before its run-state write: the code keeps no record there, so nothing can be recovered.
- Two operations on one id at once: Start releases its check for a running entry before the boot, so operations on one id are serial here.
- Several sweeper ticks piling up and the map of pools being copied: each pool is swept by itself.
- The order of rules inside an iptables chain: rules are a multiset.
- Partly written snapshot files in the temporary names: firecracker writes both or reports failure, and both are removed then.
- A pool-manager restart, which forgets its machines.
- The frontend's list request, which marks rows stopped when the manager does not run them: it touches no address.
- Rows with NULL addresses or ports, and the 500 answers of failing SELECTs, which change nothing.
- The bridge set-up, disk provisioning, console input, metrics transport and SQL, the React frontend, controller, brain and rcon: thin wrappers that would only add easy members.
