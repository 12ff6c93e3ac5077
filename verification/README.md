# A verified model of the distributed task platform

The project models two parts of the platform and proves properties of them.

**The job ownership protocol.** The API, the workers and the schedulers share one row per
job and six Redis lists, without a lock. `Protocol.dfy` is a transition system in which one
step is one database statement, one transaction or one Redis command. There may be any
number of API requests, of attempts under one worker ID and of sweeps at once, and any of
them may throw, be swallowed by a catch block or stop between any two steps. Worker keys
expire, workers fall silent, and each scheduler has its own count of missed heartbeats. The
theorems are about the runs of that system: `Fencing.dfy`, `Lifecycle.dfy` and
`JobTheorems.dfy` about safety, `Writes.dfy` and `Entries.dfy` about what every step does to
the rows and the lists, `Requests.dfy` about single API requests, `Continuations.dfy`, `Monitoring.dfy` and `Progress.dfy` about
progress, `LateWrites.dfy` and `Orphans.dfy` about runs that go wrong, and `Wedging.dfy` about
when a job is wedged.

`LeaderPass.dfy` has the sweeps again as the loops they are, over rows and lists changed in
place. Both forms share the queries, guards and row writes of `Jobs.dfy`. `SweepRuns.dfy`
shows that undisturbed steps of the transition system have the effect of the loops, and
`FaultyRuns.dfy` the same where calls throw.
`Dispatch.dfy`, `WorkerMonitor.dfy` and `Lease.dfy` model the priority lists, the strike
counter and the leader lease.

**The workflow graph pipeline.** `CycleCheck.dfy` and `Compilation.dfy` model the compiler,
`Kahn.dfy`, `Layering.dfy`, `Depths.dfy` and `Layout.dfy` the auto-layout, `RepeatedIds.dfy`
what repeated IDs do to it, `Adapter.dfy` the way between definitions and the canvas,
`PluginDag.dfy` the plugin sort, and `Commands.dfy`, `CommandLaws.dfy`, `CommandOrder.dfy`,
`History.dfy` and `BuilderStore.dfy` undo and redo. `Graphs.dfy` holds the graph theory they share, and
`Agreement.dfy` joins the compiler's search with the layout's layers.

`dafny verify dfyconfig.toml` checks everything.

## What is assumed, and what was found

- A database statement or transaction and a Redis command are atomic. Every row write sets
  `updatedAt`, and a new row has version 1, as in the Prisma schema. All processes read one
  clock, and a sweep of `LeaderPass` reads it once.
- An operation that throws has had no effect. An exception that no catch block inside the
  loop swallows ends the sweep, which is the step `Stop`.
- A `findMany` with `orderBy` and `take` returns any list that the query allows (`IsPage`).
- `cancelJob`, `retryJob` and the QUEUED write of `createJob` read first and write later,
  without a guard or a version bump. They are modelled as two steps. Fencing, the rollback
  theorem, the one push per retry and progress hold all the same, in every run. The theorems
  on the life of a job hold on *timely* runs, those in which each such write meets a status
  that still passes the check. No weaker condition would do: a run moves every job legally at
  every step exactly if it is timely (`LegalIffTimely`). Making the check and the write one
  step is a special case.
- Outside timely runs the code can go wrong, and `LateWrites` has the runs: a late cancel
  turns a COMPLETED job CANCELLED, a cancelled job is retried, and a late QUEUED write leaves
  a job that no sweep ever repairs (`LostForGood`).
- When a job is wedged can be read off its row, the lists and the roster (`ClaimableIff`). In
  every world that any run reaches, ordinary steps can lead to a claim of a job nobody is
  working on exactly if it is PENDING, RETRYING, QUEUED without an owner or in a polled list,
  or RUNNING on a worker that is listed and silent. "Nobody" (`Untouched`) means no attempt,
  request or sweep that has turned to it, and, where it is RUNNING, no scheduler that is just
  taking it or still reads a list from before its worker was struck. A job for which the
  condition holds can be claimed whatever anyone else is doing (`NeverWedged`).
- For a RUNNING job that means: it is taken from its worker only when a scheduler declares that
  worker dead, which takes three looks without a key. While the worker beats in time that
  never happens (`NeglectedWhileAlive`), and a run leads there: a worker that has given up its
  attempt starts anew and beats (`LeavesNeglected`). A worker that claims a job after the
  monitor has looked for its jobs, and then dies, is struck from `workers:active`
  (`LateClaimOrphans`), and the job stays RUNNING until a worker registers under the same ID
  (`OrphanedForGood`).
- In ordinary steps no handler throws, nothing stops, no user acts, no worker comes, goes or
  falls silent, and every look at a worker that has not fallen silent finds its key. One worker
  that takes one job at a time is enough: every attempt begun on the way is over before the
  next job is popped (`Proper`).
- One uninterrupted leader pass repairs everything it should, with one exception. A QUEUED
  job whose only trace is an entry of `processing-queue` is neither pushed by
  `processStaleQueuedJobs`, which finds it listed, nor by `recoverProcessingQueue` before
  it has been untouched for 30 s. `SelfHealing` states the exact condition, and
  `PassMissesJob` has a run that ends with such a job.
- The progress of a handler is written without a guard, by a zombie too. It changes `updatedAt`,
  which can delay the verdict that a job is stale or stranded.
- Crash recovery leaves `retryCount` alone, and RETRYING jobs can be cancelled. The prose of
  `PROJECT_MASTERY_GUIDE.md` and `PROJECT_STATE.md` says otherwise; the model follows the code.
- k undos and then k redos restore the nodes and edges where there are k commands to undo, and
  where the redo stack was empty. Otherwise the redos in excess of the undo stack go on into
  the redo stack, and the canvas is restored exactly if those redos change nothing
  (`UndosThenRedosRestoreIff`). `RedoAddsBack` is a history that fails: a node is added and the
  addition undone; one more undo does nothing, and one redo adds the node back.
- Undoing the addition of a node that is selected leaves its ID selected although the node is
  gone; no other command leaves such a selection behind (`UndoSelectsIff`).
- The queue loop of the auto-layout ends on every acyclic canvas, and on every canvas on which
  no ID is free twice at the start, so wherever IDs are distinct. It ends exactly if it never
  lays out a whole cycle, which shows after as many rounds as there are IDs (`LoopEndsIff`).
  An imported definition with tasks a, a and b, of which the first a and b have b as their
  default route, makes it run forever (`RepeatedIdNeverEnds`): the in-degree of b reaches 0,
  `|| 1` makes it 1 again, and b is queued in every round.
- Where the loop ends, repeated IDs do not harm the rows: on a valid acyclic canvas the row of a
  node is its depth. Its nodes share one place, so boxes overlap exactly where an ID is
  repeated, and a row may be off centre (`TwinsShareAPlace`).
- A JavaScript object is the list of its entries in the order of `Object.entries`, each key
  once. A node property that is set to undefined counts as absent. Configuration values are
  opaque but for their truthiness. Positions are integers; the halving in the layout is exact.
- Commands of all kinds are objects of one class with an immutable action and the private
  fields of all of them.
- Scheduler IDs differ, as the random default ensures.

## Model

| member | source | states |
|---|---|---|
| Fencing.RunEvolves | services/worker-service/src/worker.ts:66-129 | over any stretch of any run no version drops, and a row that is RUNNING at its end with the version from its start was RUNNING at its start, with the same owner and retry count |
| Fencing.CompletionFenced | services/worker-service/src/worker.ts:66-129 | if an attempt's completion commits, the row was RUNNING, owned by its worker and at exactly its claimed version at every moment since its claim, in every run, unguarded API writes included |
| Fencing.EveryCompletionFenced | services/worker-service/src/worker.ts:66-129 | in every run from the start, every completion that commits has a claim of its attempt before it, and from there on the row is fenced like this |
| Writes.RowStep | services/api-service/src/repositories/job.repository.ts:62-91 | any step that changes a row keeps its creation time and priority and stamps it; owner and due time change only with the version; a job given up by a dead worker is due at once, one whose push failed in 5 s |
| Writes.VersionConsumedOnce | services/worker-service/src/worker.ts:66-226 | in every run, no two compare-and-sets of any processes match the same version of a job |
| Writes.RemovalFollowsWrite | services/worker-service/src/worker.ts:121-207 | in every run, a worker removes an entry only right after its attempt has written the row of that job, so a zombie removes nothing |
| Writes.SweepFollows | services/scheduler-service/src/services/retry.service.ts:15-64 | in every run, a sweep pushes right after its compare-and-set of the same snapshot, but a PENDING job before it; it rolls back right after the push that failed, and removes an entry only after a recovery or a push, or because its job is missing, finished or RETRYING |
| Writes.RosterStep | services/scheduler-service/src/worker-monitor.ts:13-49 | what each step does to the list of workers, to the silent ones and to the keys |
| Writes.ListedSince | services/worker-service/src/services/worker.service.ts:7-20 | in every run a worker is listed from its registration on, until it leaves or is struck off |
| Writes.KeySince | services/worker-service/src/services/worker.service.ts:64-87 | in every run a key is alive for exactly 30 s after it was written, unless it is written again or dropped |
| Entries.SubmittedPriority | services/api-service/src/repositories/job.repository.ts:5-16 | in every run a job has the priority it was submitted with at every later moment |
| Entries.PushedByPriority | services/api-service/src/services/job.service.ts:52-58 | every push of a job, by its request or by any sweep, puts one entry at the head of the list of that priority and leaves the other five lists alone |
| Entries.EntriesBalance | services/worker-service/src/worker.ts:141-141 | in every run and for every job, the entries of a polled list are those from before plus pushes at its priority minus pops, those of `processing-queue` those from before plus pops minus removals that find one |
| Requests.CreateEnds | services/api-service/src/services/job.service.ts:52-85 | an undisturbed `createJob` leaves the job QUEUED with one entry at the head of the list of its priority; where a call throws it leaves it PENDING, with the entry if the push had succeeded |
| Requests.CancelEnds | services/api-service/src/services/job.service.ts:177-203 | a cancellation is taken exactly for PENDING, QUEUED and RETRYING jobs and leaves the job CANCELLED, all else unchanged |
| Requests.RetryEnds | services/api-service/src/services/job.service.ts:205-229 | a manual retry is taken exactly for FAILED jobs and leaves the job PENDING with one more retry |
| Fencing.RollbackNeverUndoesClaim | services/scheduler-service/src/services/retry.service.ts:37-60 | when the rollback of a failed enqueue has effect, the job was never RUNNING since that sweep took it out of RETRYING |
| Fencing.RetryPushedOnce | services/scheduler-service/src/services/retry.service.ts:15-64 | with any number of sweeps at once, one RETRYING episode is pushed by `processRetries` at most once |
| Lifecycle.InvHolds | services/api-service/src/repositories/job.repository.ts:51-91 | the invariant on owners, results, counters and fresh reads holds in every world that a timely run reaches |
| JobTheorems.FailureWritesHitRunningRows | services/worker-service/src/worker.ts:158-226 | the retry and fail writes check no status, yet match only RUNNING rows, whose retry count is the one that was read |
| JobTheorems.MovesAreLegal | services/api-service/src/repositories/job.repository.ts:62-91 | at every step, COMPLETED and CANCELLED are not left, FAILED is left only by manual retry, and `retryCount` grows only by a manual or automatic retry |
| JobTheorems.TerminalForever | services/worker-service/src/worker.ts:100-129 | a COMPLETED or CANCELLED job has that status at every later moment |
| JobTheorems.CompletesOnce | services/worker-service/src/worker.ts:100-129 | at most one completion of a job ever matches, without help of the unique constraint on results, and it stores the result with it |
| JobTheorems.Accounts | services/worker-service/src/worker.ts:28-226 | a job has an owner exactly when RUNNING and a result exactly when COMPLETED; claims = completions + automatic retries + failures + recoveries + (1 if RUNNING); `retryCount` = automatic + manual retries; at most 4 automatic retries; FAILED implies at least 4 retries; claims at most 5 + manual retries + recoveries |
| JobTheorems.RetryIsDue | services/worker-service/src/worker.ts:166-191 | an automatic retry that matches counts one more, at most 4, and is due in 5 to 10 s, 15 to 30 s, half a minute to a minute, or one to two minutes |
| JobTheorems.ApiWriteIsLegalIff | services/api-service/src/services/job.service.ts:177-227 | an unguarded API write moves its job legally exactly when it meets a status that the request's check admits |
| JobTheorems.LegalIffTimely | services/api-service/src/services/job.service.ts:52-227 | a run from the start moves every job legally at every step if and only if every unguarded API write in it meets a status that its check admits |
| Progress.NeverWedged | services/scheduler-service/src/services/pending-reconciler.service.ts:20-149 | from every world that any run reaches, crashes and late writes anywhere included, a job that is PENDING, RETRYING, QUEUED without an owner or in a polled list, or RUNNING on a listed silent worker has a finite continuation of ordinary steps, one attempt at a time, that ends in a claim by any given worker |
| Wedging.ClaimableIff | services/scheduler-service/src/services/pending-reconciler.service.ts:20-149 | in every world that any run reaches, a job nobody is working on can be claimed by ordinary steps if and only if it is one of these |
| Wedging.NeverClaimed | services/scheduler-service/src/services/recovery.service.ts:13-125 | in any world at all, no ordinary steps lead to a claim of any other such job |
| Progress.ClaimQueued | services/scheduler-service/src/services/recovery.service.ts:65-125 | the same for a QUEUED job without an owner, wherever its ID is or is missing, or with an owner but in a polled list |
| Progress.ClaimPending | services/scheduler-service/src/services/pending-reconciler.service.ts:20-58 | the same for a PENDING job |
| Progress.ClaimRetrying | services/scheduler-service/src/services/retry.service.ts:11-81 | the same for a RETRYING job |
| Progress.ClaimRunning | services/scheduler-service/src/services/recovery.service.ts:13-63 | the same for a RUNNING job whose worker is listed and silent |
| Monitoring.SilentWorkerLosesJob | services/scheduler-service/src/worker-monitor.ts:13-49 | whatever else the monitor of any one scheduler meets, a RUNNING job of a listed silent worker becomes RETRYING by ordinary steps, and no worker that beats leaves the list |
| Continuations.SaneHolds | services/api-service/prisma/schema.prisma:67-68 | in every run no time stamp of a row lies ahead of the clock |
| Continuations.ClaimWaiting | services/worker-service/src/worker.ts:28-226 | while a QUEUED job waits in a polled list, a worker that takes one job at a time comes to claim a QUEUED job and to be done with it, by completion or, where a result is stored already, through the catch block; no other row changes, no other waiting QUEUED job leaves the polled lists, and `processing-queue` has as many entries of each QUEUED job as before |
| Continuations.PoppedAndUnlisted | services/worker-service/src/worker.ts:139-142 | a whole attempt leaves `processing-queue` with the entries from before its pop |
| LateWrites.LateCancelErasesCompletion | services/api-service/src/services/job.service.ts:188-197 | a run in which a job ends CANCELLED although its result is stored |
| LateWrites.CancelledJobIsRetried | services/worker-service/src/worker.ts:177-191 | a run in which a CANCELLED job becomes RETRYING |
| LateWrites.LateQueuedWriteLosesJob | services/api-service/src/services/job.service.ts:52-58 | a run in which the creation-time QUEUED write lands on a claimed row and the job is lost |
| LateWrites.LostForGood | services/scheduler-service/src/services/pending-reconciler.service.ts:86-149 | no step of any process but a user's cancel ever repairs such a job |
| Orphans.CondemnedByLook | services/scheduler-service/src/worker-monitor.ts:19-40 | a worker is declared dead only at a look of a monitor at this worker that finds its key gone |
| Orphans.NeglectedOrCondemned | services/scheduler-service/src/services/recovery.service.ts:13-63 | any step of anyone leaves a RUNNING job that nobody works on as it is, or declares its worker dead |
| Orphans.NeglectedWhileAlive | services/scheduler-service/src/worker-monitor.ts:22-26 | while the key of its worker never lapses, such a job stays RUNNING in every run |
| Orphans.LeavesNeglected | services/worker-service/src/services/worker.service.ts:71-87 | a run that leaves a job RUNNING, with nobody working on it, on a listed worker whose key is alive |
| Orphans.LateClaimOrphans | services/scheduler-service/src/worker-monitor.ts:35-44 | a run that leaves a job RUNNING on a worker that has been removed from the list |
| Orphans.OrphanedForGood | services/scheduler-service/src/services/recovery.service.ts:13-63 | such a job stays RUNNING under every step of every process until its worker ID registers again |
| LeaderPass.Cluster.ProcessRetries | services/scheduler-service/src/services/retry.service.ts:11-81 | every job of the page is QUEUED and pushed in page order, or rolled back to RETRYING where the push throws, or left QUEUED where the rollback throws too; nothing else changes |
| LeaderPass.Cluster.ProcessPendingJobs | services/scheduler-service/src/services/pending-reconciler.service.ts:20-58 | every job of the page whose push succeeds is pushed, and is QUEUED unless its row update throws; the others stay PENDING |
| LeaderPass.Cluster.IsJobInAnyQueue | services/scheduler-service/src/services/pending-reconciler.service.ts:60-84 | true exactly when one of the six lists holds the ID |
| LeaderPass.Cluster.ProcessStaleQueuedJobs | services/scheduler-service/src/services/pending-reconciler.service.ts:86-149 | exactly the jobs of the page that no list held are pushed, but for those whose lookup, update or push throws, and the version moves even where only the push throws |
| LeaderPass.Cluster.RecoverProcessingQueue | services/scheduler-service/src/services/recovery.service.ts:65-125 | every entry listed at the start is examined once, in order, by the branch of its row, until a push throws, which ends the sweep after the row has been refreshed |
| LeaderPass.Cluster.RecoverWorkerJobs | services/scheduler-service/src/services/recovery.service.ts:13-63 | every RUNNING job of the worker becomes RETRYING, due now, and loses one entry of `processing-queue`, up to the call that throws if one does; polled lists are untouched |
| LeaderPass.Cluster.MonitorWorkers | services/scheduler-service/src/worker-monitor.ts:13-49 | every listed worker is looked at once, up to the call that throws if one does; exactly those at the third miss lose their RUNNING jobs and their place on the list, the counters are those of the looks, and polled lists are untouched |
| LeaderPass.Pass | services/scheduler-service/src/scheduler.ts:51-59 | the monitor and the four sweeps run in this order, each on what the one before left, also where the monitor has thrown |
| LeaderPass.SelfHealing | services/scheduler-service/src/scheduler.ts:51-59 | after one uninterrupted pass within the page limits, due RETRYING and aged PENDING jobs are QUEUED in a polled list, a stale QUEUED job is in one exactly if it was, or was not in `processing-queue`, or had been untouched for 30 s, and `processing-queue` names no missing, finished, cancelled or RETRYING job |
| LeaderPass.DeadWorkersJobsReturn | services/scheduler-service/src/scheduler.ts:51-59 | in one pass a RUNNING job of a worker that is declared dead becomes RETRYING, then QUEUED, and ends in a polled list |
| SweepRuns.PassAsRun | services/scheduler-service/src/scheduler.ts:53-59 | the transition system has a run of the four sweeps, undisturbed, whose effect on rows and lists is that of the loops |
| SweepRuns.MonitorAsRun | services/scheduler-service/src/worker-monitor.ts:13-49 | and one of the monitor, whose effect on rows, lists and the worker list is that of its loop |
| SweepRuns.PassHeals | services/scheduler-service/src/scheduler.ts:53-59 | so from every world, one uninterrupted pass within the page limits heals it as `SelfHealing` says |
| SweepRuns.PassMissesJob | services/scheduler-service/src/services/pending-reconciler.service.ts:107-111 | a run that ends with a stale QUEUED job which no uninterrupted pass from there brings into a polled list |
| FaultyRuns.RetriesWithFaults | services/scheduler-service/src/services/retry.service.ts:15-64 | for any pushes and rollbacks that throw, the transition system has a run of the sweep with the effect of the loop |
| FaultyRuns.PendingWithFaults | services/scheduler-service/src/services/pending-reconciler.service.ts:31-56 | the same for pushes and row updates |
| FaultyRuns.StaleWithFaults | services/scheduler-service/src/services/pending-reconciler.service.ts:105-147 | the same for lookups, row updates and pushes |
| FaultyRuns.ScanWithFaults | services/scheduler-service/src/services/recovery.service.ts:65-125 | the same for pushes, the first of which that throws ends the sweep |
| Sweeps.ScanAllRows | services/scheduler-service/src/services/recovery.service.ts:95-123 | scanning changes only the rows of stranded jobs among the scanned entries |
| Sweeps.ScanAllWaits | services/scheduler-service/src/services/recovery.service.ts:110-115 | scanning brings exactly the stranded ones into polled lists |
| Sweeps.ScanAllRemoves | services/scheduler-service/src/services/recovery.service.ts:74-93 | scanning removes as many entries of a dead ID as it scanned, and adds none |
| Jobs.FullPage | services/scheduler-service/src/services/retry.service.ts:83-103 | a page that has room for everything eligible is everything eligible |
| RedisLists.Level | shared/constants/redis.ts:15-30 | the list chosen for a priority is the one that stands at that priority's place in the polling order |
| RedisLists.EnqueueWaits | services/scheduler-service/src/services/queue.service.ts:8-11 | after a push the ID waits in a polled list, and nothing else appears or vanishes |
| RedisLists.RemoveFirstMultiset | services/worker-service/src/worker.ts:141-141 | LREM with count 1 takes away one entry of the ID if there is one, and nothing else |
| RedisLists.RemovesFirst | services/worker-service/src/worker.ts:141-141 | it is the entry nearest the head |
| Dispatch.DispatchLists.PushJob | services/scheduler-service/src/services/queue.service.ts:8-11 | a push is the arrival of one entry at the level of its priority |
| Dispatch.DispatchLists.Scan | services/worker-service/src/queue/consumer.ts:6-24 | a scan takes the oldest entry of the highest non-empty level, moves it to `processing-queue`, conserves all entries of the six lists, and finds nothing only if nothing waits |
| Dispatch.RemovedAt | services/worker-service/src/queue/consumer.ts:7-15 | taking the oldest entry of a level out of the arrivals drops the last ID of that list and no other |
| Dispatch.PopConserves | services/worker-service/src/queue/consumer.ts:8-11 | RPOPLPUSH keeps the multiset of all entries |
| WorkerMonitor.Monitor.LookAt | services/scheduler-service/src/worker-monitor.ts:20-44 | one look resets, raises or clears the counter of the worker, declares it dead exactly at the third miss, and leaves the other counters alone |
| WorkerMonitor.Standing | services/scheduler-service/src/worker-monitor.ts:19-45 | with n strikes standing, the key was refreshed since the last look or has been dead for n looks in a row |
| WorkerMonitor.DeadForFortySeconds | services/worker-service/src/services/worker.service.ts:71-87 | with looks at least 5 s and less than 30 s apart, a worker is declared dead only if its key was last refreshed at least 40 s before |
| WorkerMonitor.FortySecondsIsTight | services/scheduler-service/src/worker-monitor.ts:10-44 | the bound of 40 s is reached |
| WorkerMonitor.ThreeLooksSuffice | services/scheduler-service/src/worker-monitor.ts:28-38 | of three looks at a worker whose key has expired, one declares it dead, whatever the counter was |
| Lease.LeaderService.AcquireLeadership | services/scheduler-service/src/leader-election/leader.service.ts:20-35 | succeeds exactly when nobody holds the lease, and changes nothing otherwise |
| Lease.LeaderService.IsLeader | services/scheduler-service/src/leader-election/leader.service.ts:37-43 | true exactly for the holder |
| Lease.LeaderService.RenewLeadership | services/scheduler-service/src/leader-election/leader.service.ts:62-83 | succeeds exactly for the holder, who gets 15 s from now; for anyone else the key is unchanged |
| Lease.LeaderService.ReleaseLeadership | services/scheduler-service/src/leader-election/leader.service.ts:85-104 | deletes the key exactly for the holder |
| Lease.LeaseOnlyEndsByItsHolder | services/scheduler-service/src/leader-election/leader.service.ts:62-104 | no step of another scheduler changes a live lease |
| Lease.SweeperHoldsLease | services/scheduler-service/src/scheduler.ts:32-64 | a pass that has not outlived its 15 s holds the lease that it renewed |
| Lease.SweepsNeverOverlap | services/scheduler-service/src/scheduler.ts:32-64 | if every pass ends within 15 s of its own renewal, no two schedulers sweep at once, in any run |
| Lease.OverrunOverlaps | services/scheduler-service/src/leader-election/leader.constants.ts:1-1 | and only then: once a pass outlives its 15 s, any idle scheduler can begin a pass beside it |
| Workflows.AdjacencyOfTask | runtime/workflow/compilation-service.ts:204-213 | with distinct IDs, the route graph lists exactly the targets of each task |
| CycleCheck.Search.Dfs | runtime/workflow/compilation-service.ts:219-237 | returns true only where a cycle can be reached, stale gray colours included; otherwise the node turns black after everything it leads to, and the gray nodes are as before |
| CycleCheck.Search.Verdict | runtime/workflow/compilation-service.ts:239-245 | once no node is white, there is a diagnostic exactly if there is a cycle, and whoever reaches a cycle reaches a reported node |
| CycleCheck.DetectCycles | runtime/workflow/compilation-service.ts:202-246 | terminates, reports a diagnostic if and only if the routes contain a cycle; each names a route between tasks that reach a cycle, no task is named twice, and every task that reaches a cycle reaches a named one |
| CycleCheck.FindReachable | runtime/workflow/compilation-service.ts:248-270 | terminates with exactly the IDs that can be reached along routes |
| Compilation.CheckRoutes | runtime/workflow/compilation-service.ts:85-108 | the loop reports `BadRoutes` |
| Compilation.RoutesInOrder | runtime/workflow/compilation-service.ts:85-108 | these come task by task, of each task the default route first and then the conditional ones in their order |
| Compilation.ChoicesInOrder | runtime/workflow/compilation-service.ts:97-107 | the conditional ones in the order of their entries |
| Compilation.InBadRoutes | runtime/workflow/compilation-service.ts:85-108 | they are exactly the routes whose target is no task |
| Compilation.CheckDuplicates | runtime/workflow/compilation-service.ts:110-122 | every task but the first with its ID is reported, in order |
| Compilation.InRepeats | runtime/workflow/compilation-service.ts:110-122 | these are exactly the IDs that occur twice |
| Compilation.RepeatsCounted | runtime/workflow/compilation-service.ts:110-122 | and each is reported once for every task that has it but the first |
| Compilation.InOutsiders | runtime/workflow/compilation-service.ts:132-141 | warns of exactly the tasks outside the reachable set |
| Compilation.InHalfConditions | runtime/workflow/compilation-service.ts:143-155 | warns of exactly the conditions with fewer than two conditional routes |
| Compilation.WarningsInOrder | runtime/workflow/compilation-service.ts:132-155 | both kinds of warnings come task by task, one for each such task |
| Compilation.CompileTask | runtime/workflow/compilation-service.ts:168-187 | the compiled task has the definition's target for every outcome and for the default |
| Compilation.ReportedIsDeserved | runtime/workflow/compilation-service.ts:85-155 | the report holds exactly the diagnostics deserved, unreachable warnings being the complement of reachability, and cycle diagnostics as `DetectCycles` promises them, phase after phase |
| Compilation.Compile | runtime/workflow/compilation-service.ts:54-198 | succeeds exactly when there are tasks, their IDs are distinct, the entry and all targets exist and the routes are acyclic; then the result implements the definition; the diagnostics are exactly those deserved, phase after phase, and the cycle diagnostics name a node for every task that reaches a cycle, none twice |
| Compilation.SameSuccessors | runtime/workflow/compilation-service.ts:166-195 | a compiled workflow goes from one task to another exactly along the routes of the definition |
| Compilation.RunsEnd | runtime/workflow/compilation-service.ts:190-197 | every run from the start task along any routes stays among the tasks and visits no more of them than there are |
| Kahn.TakenOffHits | apps/dashboard/src/builder/layout/auto-layout-service.ts:51-57 | taking a node off lowers each target's in-degree by the number of its edges, never below 0, and queues exactly the targets that are then at 0 |
| Kahn.RoundQueues | apps/dashboard/src/builder/layout/auto-layout-service.ts:46-60 | a round queues exactly the targets of the layer that have in-degree 0 afterwards, and in-degree 0 lasts |
| Kahn.TakenOffInOrder | apps/dashboard/src/builder/layout/auto-layout-service.ts:51-57 | targets are queued from left to right, one for each hit that brings an in-degree to 0 |
| Kahn.LayerInOrder | apps/dashboard/src/builder/layout/auto-layout-service.ts:50-59 | and a round does that for all targets of its layer, from left to right |
| Kahn.FreeInOrder | apps/dashboard/src/builder/layout/auto-layout-service.ts:44-44 | the first layer lists the free nodes in their order |
| Layering.LayerOnce | apps/dashboard/src/builder/layout/auto-layout-service.ts:46-60 | while no ID is queued twice, the in-degrees count exactly the edges from nodes not yet taken off, and the next layer has no ID twice |
| Kahn.LoopEndsIff | apps/dashboard/src/builder/layout/auto-layout-service.ts:46-60 | on any canvas the loop ends exactly if its queue is empty after as many rounds as there are IDs, and exactly if it never lays out a whole cycle |
| Kahn.EndsIfAcyclic | apps/dashboard/src/builder/layout/auto-layout-service.ts:46-60 | on an acyclic canvas it ends, whatever IDs are repeated |
| Layering.EndsIfFreeDistinct | apps/dashboard/src/builder/layout/auto-layout-service.ts:44-60 | it ends where no ID is free twice at the start, however cyclic the canvas is |
| RepeatedIds.RepeatedIdNeverEnds | apps/dashboard/src/builder/layout/auto-layout-service.ts:46-60 | on the imported definition with tasks a, a and b its queue is b after every round, for ever |
| Kahn.Layers | apps/dashboard/src/builder/layout/auto-layout-service.ts:28-60 | where the loop ends, the layers are the queues of its rounds |
| Layering.LayersAreOrdered | apps/dashboard/src/builder/layout/auto-layout-service.ts:46-60 | where no ID is free twice, no ID is listed twice, each node lies below all its predecessors and just below one of them, and a node left over waits for one left over |
| Depths.LastRowIsDepth | apps/dashboard/src/builder/layout/auto-layout-service.ts:46-60 | on a valid acyclic canvas, repeated IDs or not, the last row with an ID is the length of the longest path to it, one that starts at a root |
| Depths.AllPlacedIffAcyclic | apps/dashboard/src/builder/layout/auto-layout-service.ts:62-67 | where the loop ends on a valid canvas, the layers leave no node over exactly on acyclic canvases |
| Layout.Rows | apps/dashboard/src/builder/layout/auto-layout-service.ts:42-67 | every node is in a row, in exactly one where IDs are distinct, and the extra row is empty exactly on acyclic canvases |
| Layout.UnplacedInOrder | apps/dashboard/src/builder/layout/auto-layout-service.ts:63-67 | the extra row lists its nodes in their order |
| Layout.PlaceRows | apps/dashboard/src/builder/layout/auto-layout-service.ts:69-84 | every ID gets the position of its last place in the rows |
| Layout.Layout | apps/dashboard/src/builder/layout/auto-layout-service.ts:25-96 | wherever the loop ends: only positions change; two boxes overlap exactly where an ID is repeated; all rows lie in one frame; with valid edges and distinct IDs they are centred and the widest fills it; on an acyclic valid canvas the row is the depth and every edge points strictly down |
| Layout.ApartIffUnique | apps/dashboard/src/builder/layout/auto-layout-service.ts:73-90 | boxes of 180 by 60 never overlap at two places, and nodes with one ID share a place |
| RepeatedIds.TwinsShareAPlace | apps/dashboard/src/builder/layout/auto-layout-service.ts:73-84 | two free nodes with one ID go to the second of two places, and no frame has their row centred |
| Layout.SlotsCentred | apps/dashboard/src/builder/layout/auto-layout-service.ts:71-76 | each node has a mirror image in its row |
| Layout.DepthsPointDown | apps/dashboard/src/builder/layout/auto-layout-service.ts:78-83 | when rows are depths, the target of an edge is at least one full row below its source |
| Agreement.ImportKeepsGraph | apps/dashboard/src/builder/adapters/workflow-definition-adapter.ts:93-119 | the imported canvas has an edge exactly where the definition has a route |
| Agreement.ValidIffTargetsExist | apps/dashboard/src/builder/adapters/workflow-definition-adapter.ts:93-119 | the imported canvas has valid edges exactly if all route targets exist |
| Agreement.BothChecks | runtime/workflow/compilation-service.ts:219-243 | with distinct IDs and existing targets, the search reports no cycle exactly when the layers of the imported canvas leave no node over |
| Adapter.Deserialize | apps/dashboard/src/builder/adapters/workflow-definition-adapter.ts:79-136 | the loop with its counter gives one node per task, at its saved position or else at the origin, with its name and configuration, and per task its default edge and then its conditional edges, numbered through; the canvas needs an auto-layout exactly if there are two tasks or more and no saved position but the origin |
| Adapter.TaskEdgesAre | apps/dashboard/src/builder/adapters/workflow-definition-adapter.ts:95-119 | a default route gives an edge without handle and label, a conditional route one with its outcome as both |
| Adapter.FindEdge | apps/dashboard/src/builder/adapters/workflow-definition-adapter.ts:31-32 | the first edge with the outcome as label or handle |
| Adapter.ExportedTaskIs | apps/dashboard/src/builder/adapters/workflow-definition-adapter.ts:23-52 | what any node of any canvas is saved as: its configuration is what the node holds but the name, an empty name gives way to the default one, and its routes are told by the edges that leave it |
| Adapter.LastPositionSaved | apps/dashboard/src/builder/adapters/workflow-definition-adapter.ts:56-59 | of several nodes with one ID the position of the last is saved |
| Adapter.OutgoingOf | apps/dashboard/src/builder/adapters/workflow-definition-adapter.ts:24-24 | the outgoing edges of an imported node are those of its own task |
| Adapter.RoutesBackIffCanonical | apps/dashboard/src/builder/adapters/workflow-definition-adapter.ts:27-42 | a task's routes come back exactly if a condition has only true/false routes, and any other task only a default |
| Adapter.GroupCarries | apps/dashboard/src/builder/adapters/workflow-definition-adapter.ts:24-24 | the outgoing edges of an ID are those of all tasks with that ID, one after the other |
| Adapter.FirstChoiceIs | apps/dashboard/src/builder/adapters/workflow-definition-adapter.ts:31-34 | what `Fitting` compares with is the first choice for the outcome |
| Adapter.FittingIffCanonical | apps/dashboard/src/builder/adapters/workflow-definition-adapter.ts:27-42 | where no other task has its ID, what can come back of a task depends on its own shape alone |
| Adapter.RoundTripIffCanonical | apps/dashboard/src/builder/adapters/workflow-definition-adapter.ts:16-127 | serializing the imported form of any definition gives it back if and only if it is canonical: a condition has the first true and the first false choice of all tasks with its ID, any other task their first target as its default route; no `name` in a config, names that are not empty or are the default ones, version 1.0.0, a saved position for exactly the tasks, and the entry that the canvas implies |
| Adapter.ShortNameDropsFirst | apps/dashboard/src/builder/adapters/workflow-definition-adapter.ts:50-50 | the default name is the plugin ID without its first `core/`, whatever else it holds |
| Adapter.EdgesNumbered | apps/dashboard/src/builder/adapters/workflow-definition-adapter.ts:95-118 | the imported edges are numbered from 0 in order |
| Adapter.DigitsMean | apps/dashboard/src/builder/adapters/workflow-definition-adapter.ts:101-101 | in decimal |
| PluginDag.PluginDAG.AddNode | runtime/plugins/dag.ts:8-18 | adding a plugin again replaces it and adds to its dependencies |
| PluginDag.Resolution.Visit | runtime/plugins/dag.ts:25-55 | throws only with a cause, and otherwise lists the plugin and all it depends on, dependencies first |
| PluginDag.PluginDAG.ResolveOrder | runtime/plugins/dag.ts:20-64 | returns normally if and only if every dependency is loaded, no plugin names a loaded one as a conflict and the dependencies are acyclic; then each plugin is listed once, after all it depends on, the plugins taking turns in the order they were loaded and the dependencies of each in the order it names them; an error names what is wrong |
| Commands.Command.Execute | apps/dashboard/src/builder/commands/node-commands.ts:31-111 | the new canvas and the new private fields, for each kind of command |
| Commands.Command.Undo | apps/dashboard/src/builder/commands/edge-commands.ts:30-49 | the canvas after undoing, from the private fields |
| CommandLaws.ExecuteShows | apps/dashboard/src/builder/commands/node-commands.ts:31-111 | executing keeps IDs unique, has its effect on the set of nodes and edges, and remembers what it took away |
| CommandLaws.ExecuteKeepsSelection | apps/dashboard/src/builder/commands/node-commands.ts:31-53 | executing keeps the selection where its node is still there, clears it otherwise, and leaves the validation errors alone |
| CommandOrder.ExecuteKeepsOrder | apps/dashboard/src/builder/commands/node-commands.ts:8-13 | executing never reorders what stays and adds at the ends of the lists |
| CommandLaws.UndoShows | apps/dashboard/src/builder/commands/clipboard-commands.ts:167-187 | undoing what fitted brings back exactly the nodes and edges from before |
| CommandLaws.UndoKeepsSelection | apps/dashboard/src/builder/commands/node-commands.ts:44-54 | undoing changes neither selection nor validation errors |
| CommandLaws.UndoSelectsIff | apps/dashboard/src/builder/commands/node-commands.ts:15-20 | after undoing, the selection is a node of the canvas unless the addition of the selected node was undone |
| CommandOrder.UndoRestoresLists | apps/dashboard/src/builder/commands/node-commands.ts:44-54 | undoing right after executing restores the lists in their order, but that the edges of deleted nodes, and the nodes of a deleted selection, come last |
| History.UndoRestoresIffFits | apps/dashboard/src/builder/commands/node-commands.ts:15-111 | undoing right after executing restores the nodes and edges if and only if IDs were fresh and old values true |
| History.UndosThenRedos | apps/dashboard/src/builder/state/builder-store.ts:36-54 | after any history of fitting commands, k undos and k redos leave the nodes and edges that the redos in excess of the undo stack would have left |
| History.UndosThenRedosRestoreIff | apps/dashboard/src/builder/state/builder-store.ts:36-54 | they restore the nodes and edges exactly if those excess redos alone would change none |
| History.UndosThenRedosRestore | apps/dashboard/src/builder/history/history-manager.ts:17-31 | in particular they do where there are k commands to undo, and where nothing was left to redo |
| History.RedoAddsBack | apps/dashboard/src/builder/history/history-manager.ts:17-31 | after adding any new node to any canvas and undoing that, one undo and one redo do not restore the canvas |
| History.HistoryIsBounded | apps/dashboard/src/builder/history/history-manager.ts:8-15 | the two stacks together never exceed 50 commands |
| History.ImportedIsOpened | apps/dashboard/src/builder/adapters/workflow-definition-adapter.ts:82-119 | an imported definition with distinct task IDs has distinct node and edge IDs, so the theorems on histories apply to it |
| BuilderStore.HistoryManager.Push | apps/dashboard/src/builder/history/history-manager.ts:8-15 | the command goes on top, redo history is lost, and above 50 the oldest command goes |
| BuilderStore.HistoryManager.PopUndo | apps/dashboard/src/builder/history/history-manager.ts:17-23 | the top of the undo stack moves to the redo stack, if there is one |
| BuilderStore.HistoryManager.PopRedo | apps/dashboard/src/builder/history/history-manager.ts:25-31 | and back |
| BuilderStore.Store.Dispatch | apps/dashboard/src/builder/state/builder-store.ts:28-34 | over distinct command objects, the store does what `History` says |
| BuilderStore.Store.Undo | apps/dashboard/src/builder/state/builder-store.ts:36-44 | the same for undo |
| BuilderStore.Store.Redo | apps/dashboard/src/builder/state/builder-store.ts:46-54 | the same for redo, which rewrites the memory of the command it executes again |

## Left out

- LeaderPass.SelfHealing: speaks of a pass that nothing interrupts and that reads one clock; interrupted passes are covered by NeverWedged.
- Progress.NeverWedged: gives a continuation in which the chosen steps are taken; that schedulers and workers are scheduled fairly is not modelled.
- Wedging.ClaimableIff: leaves open a job that a process has already turned to, and a RUNNING one whose worker is no longer listed but stands in a list that a scheduler still reads.
- WorkerMonitor.DeadForFortySeconds: does not cover a worker key that is deleted on shutdown.
- Lease.SweepsNeverOverlap: measures a pass from the moment Redis executes its renewal; message delays and clock drift are not modelled.
- CycleCheck.DetectCycles: does not say which of the nodes of one cycle is named, or with which of its routes.
- Layout.Layout: says nothing where the queue loop does not end, as the source does not return there.
- Agreement.BothChecks: needs distinct task IDs, since of two tasks with one ID the search sees the later one and the canvas the edges of both.
- PluginDag.PluginDAG.ResolveOrder: does not say which error is thrown when several apply.
- Adapter.RoundTripIffCanonical: counts the order of conditional routes as part of a definition.
- History.UndosThenRedos: speaks of nodes and edges as multisets; after several undos list order and the selected node may differ, as in the source; `UndoRestoresLists` has the order after one.
- The worker's handlers: a job's result is arbitrary and it may throw at any time.
- Event rows, metrics, load counters and the events after a commit: no guard reads them.
- `createJob` before its insert (idempotency keys), authorization, and the getters.
- The jitter of retry delays is any value in its range.
- `queueDepthGauge`, the shutdown order of workers and the sleeping between rounds.
- Copy, Paste and Duplicate commands, whose redo makes new IDs.
- `computeHash`, the compile cache, expression and template engines.
- Webhooks, rate limits, the dashboard's components and pages.
- The runtime that executes compiled workflows is not part of the repository; a run may follow any route.
