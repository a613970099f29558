# aivyx-broker, verified

A Dafny model of aivyx-broker, the local daemon that shares one llama-server's
KV-cache slots between several clients. It covers the slot scheduler and its
wake discipline, the three views of KV residency (occupancy table, physical slot
content, saved store), the relay of an upstream response to a client that may
stall or hang up, the lease-based GPU lock, and the single-flight cache of GPU
memory readings.

Each part has two layers. The objects (`SchedulerClass.Scheduler`,
`SlotServer.Server`, `RelayTask.ForwardTask`, `GpuLockClass.GpuLock`,
`VramCacheClass.VramCache`) keep the source's fields, scans and drain loops and
are proved method by method. The transition systems (`Protocol`, `Residency`,
`RelayRuns`, `GpuLockRuns`, `VramCacheRuns`) interleave one critical section at a
time with clients that give up, idle reports, store eviction, failures and time;
the results about them hold for every run of every length. The two layers share
one specification: a scheduler method's postcondition is the step relation of
`Protocol`, every `Server` method carries a reachable `Residency` state to a
reachable one, and the effects of a finished relay are those of the forwarding
loop.

| file | content |
|---|---|
| `slots.dfy` | the occupancy table and the admission rule, stated declaratively |
| `attempts.dfy`, `requests.dfy` | one attempt read off the table's fields; which request a retry belongs to |
| `protocol.dfy` | tickets, wakes, guards and history as a transition system |
| `scheduler.dfy` | the scheduler object |
| `startup.dfy` | startup seeding and the reconciliation poll |
| `invariant.dfy` | the inductive invariant of all interleavings |
| `capacity.dfy` | ownership of busy slots, guards, idle reports |
| `lru.dfy`, `claims.dfy` | the fallback tier against the admission history |
| `wakeups.dfy` | lost wakes, quiescence, work conservation, stranding |
| `priority.dfy`, `preemption.dfy` | how far a slot's own waiters come first, and exactly when they do not |
| `limits.dfy` | concrete one-slot runs where the promises end |
| `residency.dfy`, `coherence.dfy` | KV coherence under interleaved jobs |
| `lifetime.dfy`, `jobs.dfy` | a slot's upstream jobs take turns; when a guard may go; which request a job serves |
| `server.dfy` | one request on the objects, from admission to release |
| `relay.dfy`, `relayruns.dfy` | the forwarding loop, alone and beside its client |
| `relayends.dfy` | how relaying ends, and what a client can see before the slot is free |
| `gpulock.dfy` | the GPU lock |
| `vram.dfy`, `vramanswers.dfy` | the VRAM cache, and what it serves against what the probes answered |
| `options.dfy`, `sizes.dfy` | an option type; sizes of sets and maps |

## Where the code and its documentation differ

The model follows the code.

- README.md:158-160 says a waiter queued for one slot is never pre-empted by a
  general waiter for that slot. Take a free of a slot, by a release or by an idle
  report, that wakes a specific waiter for it. Some run keeps the slot idle until a
  general waiter claims it first iff, at that free, a general waiter was woken and had
  not retried, or a general waiter was waiting at all and the broker has a second
  slot or the free was a report (`Preemption.PreemptionIff`). In the first case no
  further wake is needed (`Preemption.PreemptionBeforeNextWakeIff`); in the others a
  free of the second slot, or a repetition of the report, wakes the general waiter
  and it takes the specific waiter's slot. It can be the very next event iff the freed
  slot is what a general waiter woken earlier would get
  (`Preemption.ImmediatePreemptionIff`, `Preemption.OneSlotPreemptionIff`). Runs:
  `Limits.SpecificWaiterCanBePreempted` and `Limits.ReportedSlotCanBePreempted`, both
  with one slot. What remains of the promise: general waiters parked at the free
  cannot retry before a later event wakes the global queue
  (`Priority.DeferredRetryNeedsLaterWake`), and with one slot none of them is the next
  holder after a release (`Priority.OneSlotNextHolder`). All this is per free: once a
  newcomer may claim the slot in between, a woken specific waiter can always lose it,
  even to a general waiter that came later (`Preemption.LateWaiterCanLose`).
- src/scheduler.rs:165-168 says an idle report wakes waiters when it performs the
  busy-to-free transition. The code wakes on every report of a seeded slot not yet
  claimed, idle or not: a repeated report drains the global queue, which also rescues
  a general waiter stranded beside that slot (`Wakeups.RepeatedReportIff`).
- The design document (docs/superpowers/specs/2026-09-07-aivyx-broker-design.md:205-207)
  says a release wakes the global queue too. The code withholds it when a live
  specific waiter was woken, so a general waiter can stay parked beside an idle
  slot. `Wakeups.FreeDefersIff` gives the exact condition,
  `Wakeups.DeferredWaiterCanStrand` and `Limits.StrandedGlobalWaiterExists` the runs.
- README.md:187-188 says a crashed holder wedges the GPU lock for up to the maximum
  hold. The exact bound is the maximum hold plus one reap period
  (`GpuLockRuns.HoldBoundIsExact`).
- README.md:102-105 promises that two models never run on each other's KV state. That
  is exact iff failed preparations (a failed restore, a failed warm-up) leave the
  slot's content as it was and clients do not both omit the model and send an empty
  one (`Coherence.CoherenceIsExactIff`): the store spells both the same, and a failed
  warm-up returns before the older record is touched.
- src/server.rs:455-456 promises that the slot is free before the client sees the end
  of the body. That holds for every run of a response iff the response has no upstream
  error and at most 16 items (`RelayEnds.EndCanPrecedeReleaseIff`): an upstream error
  is handed to the client before the guard is dropped, and a client given up on reads
  its buffer and its error while the rest is still being drained. An end seen that
  early is always an error, never a clean end (`RelayEnds.EarlyEndIsError`). The
  response head, good or bad, always comes before the release
  (`RelayEnds.HeadPrecedesRelease`).

## Model

| member | source | states |
|---|---|---|
| Slots.UsablePreference | src/scheduler.rs:216-219 | A usable preference is the client's own one, and there is one iff the client named an existing slot. |
| Slots.ChoiceIffNotBlocked | src/scheduler.rs:249-310 | Admission succeeds exactly when the in-range preferred slot is idle or, without a usable preference, when any slot is idle. |
| Slots.ChoiceUnique | src/scheduler.rs:249-310 | The three tiers determine the slot completely. |
| Slots.CacheReadyIffResidentExists | src/scheduler.rs:276-309 | Without a usable preference the admission is cache-ready iff some idle slot holds the prefix for the model; the fallback tier never is. |
| Attempts.OutOfRangeIsNoPreference | src/scheduler.rs:256-259 | Naming a slot that does not exist allows exactly the admissions of the same request without a preference. |
| Attempts.UnnamedIsRefusedIff | src/scheduler.rs:206-222 | A request naming no existing slot is refused iff every slot is busy, and then goes to the back of the global queue and no other. |
| Attempts.NamedIsRefusedIff | src/scheduler.rs:256-275 | A request naming an existing slot is refused iff that slot is busy, is admitted nowhere else, and queues at the back of that slot's queue only. |
| Attempts.RefusalParks | src/scheduler.rs:203-226 | A refusal changes no slot and adds exactly one waiter, which keeps the request's own hint. |
| Attempts.AdmissionTakes | src/scheduler.rs:300-309 | An admission claims one idle slot, stamps it, leaves everything else alone, and is cache-ready iff the slot is recorded for the hint's prefix and model. |
| Attempts.UnnamedChoice | src/scheduler.rs:276-299 | The slot is the lowest idle one recorded for the hint, or else the idle one with the smallest stamp, the lowest of equals. |
| Requests.RetryOfArrival | src/scheduler.rs:199-202 | In any run, a ticket left behind by an arrival retries with that arrival's hint. |
| Requests.RetryKeepsItsHint | src/scheduler.rs:237-243 | So does every ticket a refused retry leaves behind, however often. |
| Requests.AttemptHasItsRequest | src/scheduler.rs:193-245 | Every attempt of every run is made for exactly one hint, that of an arrived request. |
| SchedulerClass.Scheduler.constructor | src/scheduler.rs:95-105 | All slots start free, unrecorded and unstamped, with empty queues. |
| SchedulerClass.Scheduler.SeedBusy | src/scheduler.rs:110-116 | Marks one existing slot busy and unowned; an unknown id changes nothing. |
| SchedulerClass.Scheduler.MarkResident | src/scheduler.rs:121-127 | Records model and prefix of one existing slot and touches nothing else. |
| SchedulerClass.Scheduler.ClearResident | src/scheduler.rs:136-142 | Forgets the record of one slot and touches nothing else, `busy` included. |
| SchedulerClass.Scheduler.ReconcileSeededIdle | src/scheduler.rs:172-185 | Frees and wakes exactly like a release if the slot was seeded and never claimed, else is a no-op. |
| SchedulerClass.Scheduler.Release | src/scheduler.rs:349-357 | Leaves the slot free, drains its queue, and drains the global queue iff nobody alive was in the first. |
| SchedulerClass.Scheduler.Send | src/scheduler.rs:407-409 | A wake succeeds iff the receiver is alive, and then marks only that waiter woken. |
| SchedulerClass.Scheduler.DrainSlotQueue | src/scheduler.rs:400-411 | The whole queue is signalled, not just its head, and the result tells whether any receiver was alive. |
| SchedulerClass.Scheduler.DrainGlobalQueue | src/scheduler.rs:420-422 | Every global waiter still alive is woken and the queue is empty. |
| SchedulerClass.Scheduler.WakeWaitersFor | src/scheduler.rs:399-423 | Global waiters are woken iff no live specific waiter was. |
| SchedulerClass.Scheduler.FindResident | src/scheduler.rs:276-281 | Finds the lowest idle slot holding this prefix from this model, or proves there is none. |
| SchedulerClass.Scheduler.FindLeastUsed | src/scheduler.rs:294-299 | Finds the idle slot least in (stamp, index), or proves no slot is idle. |
| SchedulerClass.Scheduler.Take | src/scheduler.rs:300-304 | Claims one slot with a fresh stamp and ends its seeded state. |
| SchedulerClass.Scheduler.TryAdmitLocked | src/scheduler.rs:249-310 | The scans return the declaratively chosen slot and claim only it, or return nothing, change nothing, and the request really is blocked. |
| SchedulerClass.Scheduler.AdmitPass | src/scheduler.rs:200-226 | One pass of the loop: admission, or a fresh ticket at the back of the queue of the usable preference. |
| SchedulerClass.Scheduler.Resume | src/scheduler.rs:229-241 | A woken waiter owns nothing: it spends its channel and goes through admission again with its own hint. |
| SchedulerClass.Scheduler.GiveUp | src/scheduler.rs:239-242 | A timed-out or dropped waiter leaves slots and queues as they were. |
| SchedulerClass.Scheduler.Snapshot | src/scheduler.rs:313-326 | One entry per slot with its id, prefix and model, whose busy flag and residency agree with the idleness and residency tests admission uses. |
| Startup.Start | src/main.rs:36-44 | Seeding from llama-server's reports yields exactly the protocol's initial state: busy and unowned iff reported processing under an existing id. |
| Startup.Poll | src/main.rs:109-118 | A poll applies its idle reports in order. |
| Startup.PollFreesExactlyTheUnowned | src/main.rs:111-117 | Whatever ids and duplicates a poll holds, it frees exactly the never-claimed slots it reports idle. |
| Startup.PollIsPath | src/main.rs:102-124 | Every poll is a run of reconcile steps of the protocol with exactly the reported ids. |
| Invariant.LastUse | src/scheduler.rs:66-69 | The position of a slot's last admission in the log. |
| Invariant.FreedQueues | src/scheduler.rs:399-423 | A free empties exactly the queues it drains. |
| Invariant.FreedWaiters | src/scheduler.rs:399-423 | A free wakes exactly the live waiters of the queues it drains. |
| Invariant.StepInv | src/scheduler.rs:172-423 | Every step of every interleaving keeps queue discipline, capacity, history and the debt of idle slots. |
| Invariant.ReachableInv | src/scheduler.rs:85-423 | The invariant of all reachable states. |
| Capacity.BusyIffOwnedOnce | src/scheduler.rs:58-65 | A slot is busy iff exactly one of a live guard or an unreported seed owns it, and no two guards share a slot. |
| Capacity.BusyCount | src/server.rs:179-184 | The busy count reported for routing equals live guards plus unreconciled seeded slots. |
| Capacity.AdmissionsConserved | src/server.rs:267-282 | Admissions made = guards alive + guards released, and no guard is both. |
| Capacity.ReleasedOnce | src/server.rs:383-387 | In any run a guard is released at most once. |
| Capacity.ReportOfClaimedSlotIsIgnored | src/scheduler.rs:152-161 | Once the broker claimed a slot, an idle report for it changes nothing, however stale. |
| Capacity.FullPollLeavesOnlyGuardHeld | src/main.rs:109-118 | After every slot was reported idle at least once, in any order and amid any other events, a slot is busy iff a guard holds it. |
| Lru.StampsAreHistory | src/scheduler.rs:78-81 | A slot's stamp is its last admission's place in the log; positive stamps are distinct and at most the clock. |
| Lru.FallbackPicksOldest | src/scheduler.rs:294-299 | The fallback tier picks the idle slot whose last admission is oldest, never-admitted slots first by index. |
| Lru.StampsOfStep | src/scheduler.rs:264-266 | Only an admission stamps a slot, and only the chosen one. |
| Lru.AheadShrinks | src/scheduler.rs:294-304 | No step puts a slot ahead of an idle one, and a fallback admission takes one away. |
| Lru.BoundedBypass | src/scheduler.rs:294-304 | While a slot stays idle at most n - 1 fallback admissions pass it over, whatever else interleaves. |
| Claims.UnhintedClaimsAreSorted | src/scheduler.rs:294-309 | Unhinted requests claim the least recently used idle slots in sorted order, with or without releases of the claimed ones in between. |
| Claims.RoundsSpread | src/scheduler.rs:291-309 | From an all-idle state n successive unhinted admit and release rounds use n distinct slots. |
| Claims.BurstAdmitsExactlyTheIdle | src/scheduler.rs:294-299 | In a burst without releases a request is admitted iff its number is below the number of slots idle at the start. |
| Wakeups.SpecificWaiterIsWoken | src/scheduler.rs:399-411 | A live waiter of a slot is never parked on a free or missing slot: whatever frees it wakes the waiter in the same step. |
| Wakeups.ParkedStep | src/scheduler.rs:193-245 | A parked waiter is woken iff a free drains its queue, and leaves otherwise only by giving up. |
| Wakeups.ConsumptionCounts | src/scheduler.rs:229-243 | As long as no slot is freed, outstanding wakes plus wakes retried or abandoned since stay constant, whatever arrivals, reports, marks and cancels interleave. |
| Wakeups.AttemptDecides | src/scheduler.rs:203-226 | Every pass of the admit loop has an outcome. |
| Wakeups.RetriesReachQuiescence | src/scheduler.rs:193-245 | From any invariant state exactly as many retries as outstanding wakes lead to quiescence. |
| Wakeups.WorkConserving | src/scheduler.rs:373-398 | If no woken specific waiter gave up before retrying, at quiescence nobody waits for an idle slot. |
| Wakeups.IdleBesideGlobalIsOwed | src/scheduler.rs:399-423 | In any run, a global waiter parked beside an idle slot means the latest event to free that slot woke a waiter parked for it which has not retried since. |
| Wakeups.FreeDefersIff | src/scheduler.rs:399-423 | A free, by a release or an idle report, leaves a parked global waiter parked iff somebody alive is parked for that slot. |
| Wakeups.DeferredWaiterCanStrand | src/scheduler.rs:381-423 | From every such deferral the run can go on, by waiters giving up alone, to quiescence with the slot idle and the global waiter parked. |
| Wakeups.RepeatedReportIff | src/scheduler.rs:172-185 | An idle report for an already idle slot frees nothing, and wakes a global waiter parked beside it iff the slot was seeded and never claimed. |
| Priority.DeferredRetryNeedsLaterWake | src/scheduler.rs:381-398 | A global waiter deferred by a release or an idle report can retry only after a later event that wakes the global queue. |
| Priority.OneSlotNextHolder | src/scheduler.rs:381-398 | With one slot the next holder after a deferring release is never a global waiter parked at that moment. |
| Preemption.GeneralsAreOld | src/scheduler.rs:203-226 | While a slot stays idle nobody new parks globally: every live general waiter was there before. |
| Preemption.PreemptionIff | src/scheduler.rs:381-398 | After any free that wakes a specific waiter, for any number of slots: some run keeps the slot idle until a general waiter claims it first iff one was already woken, or one was alive and there is a second slot or the free was an idle report. |
| Preemption.PreemptionBeforeNextWakeIff | src/scheduler.rs:229-237 | Before the next wake of the global queue that can happen iff a general waiter was already woken at the free. |
| Preemption.ImmediatePreemptionIff | src/scheduler.rs:249-310 | It can be the very next event iff the freed slot is the one admission would choose for a general waiter woken earlier. |
| Preemption.OneSlotPreemptionIff | src/scheduler.rs:294-304 | With one slot it can be the very next event iff a general waiter woken earlier exists. |
| Preemption.LateWaiterCanLose | src/scheduler.rs:229-237 | A woken specific waiter that has not retried can always lose its idle slot, once newcomers may claim it, to a general waiter that arrived later. |
| Limits.StrandedGlobalWaiterExists | src/scheduler.rs:412-414 | A reachable one-slot state with an idle slot, no outstanding wake and a parked global waiter. |
| Limits.SpecificWaiterCanBePreempted | src/scheduler.rs:294-304 | A reachable one-slot run in which an earlier woken global waiter takes the slot from the woken specific waiter. |
| Limits.ReportedSlotCanBePreempted | src/scheduler.rs:172-185 | A reachable one-slot run, with no general waiter woken, in which a repeated idle report lets one take the slot from the woken specific waiter. |
| Residency.SlotIsOwn | src/server.rs:371-387 | Two guards never name the same slot and none names a seeded one. |
| Residency.LocalStepOk | src/server.rs:464-589 | Each step of a job keeps what is promised of its slot, record and the store, and changes only the slot's record. |
| Residency.SchedulingKeepsRecords | src/scheduler.rs:162-163 | Admission, release and reconciliation never touch what a slot is recorded to hold. |
| Residency.ActInv | src/server.rs:397-589 | Every interleaved step of jobs, scheduler, store and seeded generations keeps the broker's invariant. |
| Residency.ActIsProtocolStep | src/server.rs:397-589 | Every act, as the scheduler sees it, is a step of the admission protocol. |
| Jobs.HistoryIsRun | src/server.rs:238-458 | A broker history, seen from the scheduler, is a run of the admission protocol. |
| Jobs.JobServesItsRequest | src/server.rs:250-282 | Every job was started by an admission, at once or on a retry, and has its slot, its readiness and the hint its request arrived with, for its whole life. |
| Jobs.SchedulerIsFree | src/server.rs:238-282 | Requests, retries, cancels and idle reports can happen beside any jobs in any state. |
| Coherence.RecordsAreTrue | src/scheduler.rs:129-135 | Outside a preparation, which lasts from the restore call to the record, every recorded slot holds the recorded prefix from the recorded model, up to the store's spelling of an unnamed one, if failed preparations do no damage. |
| Coherence.StoreIsTrue | src/server.rs:507-516 | Every saved entry holds its key's prefix and model, unconditionally. |
| Coherence.ServedOnOwnPrefix | src/server.rs:471-486 | A cache-ready admission, and every hinted job from its real request to the end of its response, sit on their own prefix and model. |
| Coherence.ServingIsRecorded | src/server.rs:475-499 | The real request is sent, and answered, only on a slot recorded under its hint or, without a hint, recorded as holding no prefix. |
| Lifetime.JobsNeverOverlap | src/server.rs:371-381 | No two jobs share a slot, and for a job's whole life its slot is busy, its guard live and its slot not a seeded one. |
| Lifetime.UpstreamWorkNeverOverlaps | src/server.rs:371-381 | Between an act of one job on a slot and a later act of another job on it lies the end or failure of the first one's upstream work. |
| Lifetime.ReleasedExactlyByItsJob | src/server.rs:413-458 | A guard is released by the end of its own job, whose upstream work is over, and only once. |
| Lifetime.OverMeansUpstreamEnded | src/server.rs:413-458 | A job that may let go has, as its last act, the end of the response to a request it sent, or a failed warm-up. |
| Lifetime.ReleasedAfterUpstreamEnded | src/server.rs:371-387 | In every history a guard is released only after its job's upstream work ended or failed, and the job does nothing after that. |
| Coherence.DamageBreaksCoherence | src/server.rs:559-567 | If a failed warm-up may disturb the slot, a state is reachable whose record is untrue. |
| Coherence.EmptyModelBreaksCoherence | src/server.rs:511-516 | If clients both omit the model and send an empty one, a slot gets recorded under the wrong one of the two. |
| Coherence.CoherenceIsExactIff | src/server.rs:501-589 | Records are exact in every reachable state iff failed preparations leave content alone and omitted and empty model names are not mixed. |
| SlotServer.Server.Admit | src/server.rs:250-282 | An admission starts exactly one job under a new guard on the admitted slot; a queued request starts none. |
| SlotServer.Server.TryRestore | src/server.rs:518-527 | The slot counts as restored iff the call worked and the key was saved, and then holds the saved entry; an error counts as a miss. |
| SlotServer.Server.WarmAndSave | src/server.rs:527-583 | A successful warm-up leaves the hint's content, saved unless the save failed; a failed one ends the preparation with the store unchanged. |
| SlotServer.Server.RecordResident | src/server.rs:585-588 | The prepared slot is recorded under the hint. |
| SlotServer.Server.WarmOrRestore | src/server.rs:501-589 | A working restore of a saved key always succeeds with the saved content and the store as it was; otherwise it succeeds iff the warm-up does, with the hint's content, saved unless the save failed; a failure leaves the older record; the state it ends in is a reachable one. |
| SlotServer.Server.PrepareSlot | src/server.rs:464-486 | Prepare, clear or skip according to hint and cache readiness, and a successful hinted preparation leaves the slot on its own prefix. |
| SlotServer.Server.Finish | src/server.rs:383-387 | Dropping the guard frees the job's slot with the protocol's release. |
| SlotServer.Server.SendAndRelay | src/server.rs:413-454 | Answered, the response is read to its end or error with the slot still held; unanswered, only the sender is closed; only a hint-less request changes what the slot starts with. |
| SlotServer.Server.LetGo | src/server.rs:455-459 | The guard goes, which frees the slot, and then a sender still held. |
| SlotServer.Server.RunJob | src/server.rs:397-459 | Case by case on the hint, the restore, the warm-up and the answer: outcome, slot content, store and effects; a job without a response closes its sender, then frees the slot, and does nothing else; the slot ends idle, with what the table tells. |
| SlotServer.Server.Handle | src/server.rs:238-282 | A request queues iff it is blocked; otherwise it runs on the chosen slot, which is then cache-ready for the same hint iff the preparation did not fail, with the effects its outcome allows. |
| RelayTask.ReadCount | src/server.rs:430-454 | The loop reads up to and including the first upstream error, or everything. |
| RelayTask.ForwardTask.RelayBody | src/server.rs:428-454 | The loop's progress is that of its rounds over the items read, with the guard held throughout; `abandoned` is set iff an offer stalled. |
| RelayTask.ForwardTask.Forward | src/server.rs:428-458 | The whole job's effects, reads included, in order for every response and every fate of its offers. |
| RelayTask.ForwardShape | src/server.rs:428-458 | Every item is read whatever the client does, exactly those before its first refusal are sent, a stall is flagged before the sender closes, and the slot is released once, after the last read and before an intact client's sender closes. |
| RelayRuns.DeliveryIsPrefix | src/server.rs:339-341 | Under every interleaving delivered plus buffered chunks are a prefix of the response, at most 16 buffered. |
| RelayRuns.CleanEndIsComplete | src/server.rs:309-327 | A cleanly ended body delivered every chunk of a response that did not fail, to a client not given up on, and its slot is already free. |
| RelayRuns.BodyEndIsExact | src/server.rs:312-327 | An ended body ended cleanly iff the client was not abandoned and upstream did not fail. |
| RelayRuns.SlotOutlivesUpstream | src/server.rs:371-381 | In every reachable state the slot is released only if no response came or it was read to its end or first error, and ReleaseSlot occurred once iff the guard is gone. |
| RelayRuns.RunRefinesForward | src/server.rs:428-458 | Every finished interleaving that got a response performed the effects of the forwarding loop on the fates its offers met. |
| RelayRuns.FailedTaskRelaysNothing | src/server.rs:413-419 | A task without a response reads and relays nothing: it closes its sender, then frees the slot. |
| RelayEnds.TaskCanStep | src/server.rs:430-453 | In every state the task has a step of its own, so no client behaviour blocks it. |
| RelayEnds.TaskStepsAreBounded | src/server.rs:343-350 | In every run, however the client reads, stalls or hangs up, the task takes at most 2 * items + 5 steps. |
| RelayEnds.StuckIffDone | src/server.rs:343-350 | The task has no further step iff it is done, and then the slot is released. |
| RelayEnds.TaskFinishesAlone | src/server.rs:389-396 | From any moment of any run the task reaches its end and frees the slot by its own steps alone. |
| RelayEnds.EarlyEndIsError | src/server.rs:312-327 | A body end seen while the slot is held is an error, and means an abandoned client or an upstream failure. |
| RelayEnds.EndCanPrecedeReleaseIff | src/server.rs:455-458 | Some run shows the client the end of its body while the slot is held iff the response fails or exceeds 16 items. |
| RelayEnds.HeadPrecedesRelease | src/server.rs:413-428 | The head's outcome always precedes the release, and for every response both outcomes can be seen with the slot held. |
| GpuLockClass.GpuLock.AcquirePass | src/gpu_lock.rs:95-110 | Grants the fresh lease iff the lock is free, else queues a fresh ticket. |
| GpuLockClass.GpuLock.Release | src/gpu_lock.rs:123-134 | Succeeds iff the lease is the current one, and then frees the lock and wakes everybody; otherwise changes nothing. |
| GpuLockClass.GpuLock.ReapExpired | src/gpu_lock.rs:142-161 | Frees and wakes iff the holder is strictly older than the maximum hold. |
| GpuLockClass.GpuLock.WakeAll | src/gpu_lock.rs:167-171 | Every live queued waiter is woken and the queue is empty. |
| GpuLockRuns.StepInv | src/gpu_lock.rs:95-171 | Every step keeps queues, lease accounting and the age bound. |
| GpuLockRuns.LeasesConserved | src/gpu_lock.rs:95-161 | Acquires = releases + reaps + (1 if held), and no lease ended both ways. |
| GpuLockRuns.EndedLeaseIsInert | src/gpu_lock.rs:117-134 | A released or reaped lease is never held again and a late release of it changes nothing. |
| GpuLockRuns.WaiterStep | src/gpu_lock.rs:95-171 | A waiter is lost only by giving up or retrying, and is woken exactly by the steps that free the lock. |
| GpuLockRuns.RefusedWaits | src/gpu_lock.rs:95-110 | A request that finds the lock held leaves it alone and waits, unwoken, under a fresh ticket. |
| GpuLockRuns.FreeLockHasNoParkedWaiter | src/gpu_lock.rs:12-17 | While the lock is free every live waiter is woken, unconditionally, and its retry gets the lock. |
| GpuLockRuns.HoldIsBounded | src/main.rs:135-141 | With reap ticks at most a period apart no lease is held longer than maximum hold plus period. |
| GpuLockRuns.HoldBoundIsExact | src/gpu_lock.rs:142-161 | An age of a held lease is reachable iff it is at most maximum hold plus period. |
| VramCacheClass.VramCache.Begin | src/server.rs:93-110 | Serves a fresh reading, serves a recent one while a probe is out, or raises the flag and probes. |
| VramCacheClass.VramCache.Finish | src/server.rs:115-135 | The probe's answer, or nothing without one, is returned and kept, for the back-off after a timeout or a slow empty answer and else for the cache lifetime. |
| VramCacheClass.VramCache.ProbeReturned | src/server.rs:84-88 | The flag falls when the probe closure ends. |
| VramCacheRuns.StepInv | src/server.rs:93-136 | Every step, cancelled callers included, keeps the cache's invariant. |
| VramCacheRuns.AtMostOneProbe | src/server.rs:61-66 | At most one probe is out and the flag is up exactly while it is. |
| VramCacheRuns.ServedReadingIsRecent | src/server.rs:93-106 | A served reading is younger than 2 s, or younger than 30 s and then only while a probe is stuck. |
| VramCacheRuns.ProbeWaitsForReadingToExpire | src/server.rs:95-106 | A probe starts at least 2 s after the latest reading was stamped. |
| VramCacheRuns.ProbesAreSpaced | src/server.rs:93-136 | Probes start at least 2 s apart unless the earlier one's caller was cancelled. |
| VramCacheRuns.CancelledProbeCanRestartAtOnce | src/server.rs:107-121 | After a cancelled caller the next probe can start with no gap. |
| VramAnswers.LastIsLatestAnswer | src/server.rs:129-134 | In every run the cached reading is the answer that the latest finished wait got from its probe, or nothing if it got none. |
| VramAnswers.ServedValueWasAnswered | src/server.rs:93-106 | No value is served that no probe answered. |
| VramAnswers.AnswerIsServed | src/server.rs:95-99 | For 2 s after a wait ended with an answer every caller is served exactly that answer. |
| VramAnswers.BackOffHolds | src/server.rs:118-128 | For 30 s after a deadline or a slow empty answer nothing is probed and callers are told nothing. |
| VramAnswers.EmptyAnswerIsRetried | src/server.rs:126 | After any other outcome the first caller 2 s later probes again, unless a probe is still out. |
| VramAnswers.StuckProbeServesLast | src/server.rs:100-106 | While a probe is out, callers are served the last reading up to 30 s after it was taken, and nothing after that. |
| VramAnswers.WaitCanEnd | src/server.rs:116-128 | Once the deadline has passed the wait can end, whatever the probe does. |

## Left out

- SchedulerClass.Scheduler.AdmitPass: one pass of the `admit` loop; the loop around the wait is the protocol's Arrive, Retry and Cancel steps, and the deadline is a Cancel that may come at any time.
- SchedulerClass.Scheduler.Take: the stamp is unbounded; the source's 64-bit counter would have to overflow to differ.
- SlotServer.Server.WarmOrRestore: the method runs without other jobs in between; interleaving with them, with the scheduler and with eviction is in `Residency`.
- SlotServer.Server.RunJob: what a restore or warm-up does to the slot while it is out is not visible in the method, only in `Residency`, where it is arbitrary.
- RelayTask.ForwardTask.Forward: the client's reactions are an input; interleaving with the client is in `RelayRuns`.
- HTTP routing, JSON extraction, header copying and status codes; hints and model names are inputs.
- The KV store library, the HTTP client and llama-server: the store is a map that hits, misses, fails or evicts, and llama-server succeeds or fails. Equal prefix hashes are taken to mean equal prefixes, a hinted request to extend its prefix in place, and the broker to be the only writer of slots it has claimed.
- Task scheduling, channel internals, mutex poisoning, panics and shutdown: channel semantics are part of the transition systems.
- Fresh lease ids are assumed; the id generator is not modelled.
- Host checks, configuration, GPU queries and response parsing: short code that would only add easy members.
- Fairness among waiters, which the source does not promise.
