# Reservations and rounds of the cloudrun operator

The operator runs containers for three kinds of object. A *deployer* runs a job or a service out of a
*resource pool*, a *builder* builds an image, and a *workflow* drives one of each. Every object is worked
on in *rounds*: raising `spec.round` asks for the old workload to be removed, the old reservation to be
given back, a new one to be begged, and only then for the new round to be stored and run. Each of these is
a separate API call that may fail, be answered from an outdated cache, or lose its answer, and reconciles
of different objects interleave freely.

This project models that as a step system over a versioned API store and proves what survives every
interleaving: the pool ledger, the bound on over-commitment, the bound on leaked reservations, at most one
job per deployer, no job without a reservation, exact histories, and Done only when it was earned. It also
proves what the reconciles come to when they are let through: the stored objects after a served sync, beg,
release, advance, handling and teardown.

`dafny verify dfyconfig.toml` checks the whole project.

## How it is put together

- `Objects`, `Api`: the stored objects as version lists (a version is its index, a deletion leaves an
  absent version), requests, and how the server answers. A write lands only on the version it read; a read
  may return any version; a request may be refused, or take effect while its answer is lost.
- `DeployerThread`, `PoolThread`: a reconcile cut at its API calls. `Call` is the request it waits on,
  `Resume` what it does with the answer, in memory, up to its next request.
- `Cluster`: all stores, all reconciles in flight, and everyone else (clients, garbage collection,
  crashes). `Exec` is where a sequence of actions leads from the empty cluster; every theorem about a run
  quantifies over all such sequences. The tally of begs and final status writes is book-keeping of the
  model.
- `Ledger`, `Capacity`: one pool as a list of atomic operations, and exactly when it stays within bounds.
  `Refinement` proves that every run of the concurrent system is such a list; everything about sums is
  proved there once and carried over.
- `Leakage`, `FreshReads`, `OneJob`, `Reservations`, `EndToEnd`, `StatusSeen`, `BuilderSeen`: the invariants over
  all runs.
- `PoolServed`, `DeployerServed` (on the single calls of `DeployerTurns`), `BuilderServed`, `WorkflowServed`:
  the objects that are stored after the turns of a reconcile whose calls are served and which reads the
  latest version, the conflicts of overtaken reads included.
- `Runs`, `ExactJobs`: what holds at every moment of a run exactly if each of its actions does its part, and
  the two guarantees about jobs stated so.
- `Rounds`, `Lives`, `DeployerRounds`, `BuilderCluster`, `WorkflowCluster`: the round machine and its three
  instances.
- `Server`, `DeployerController`, `PoolController`, `BuilderController`, `WorkflowController`: the
  controllers in the form of the source, as classes and methods that update fields between calls and loop
  on conflicts. Each method is proved to make exactly the calls of its thread, in that order, whatever
  others do in between, so each execution of a `Reconcile` is a run of the machine the theorems are about.
- `Quantities`, `Pods`, `Ports`, `Names`: the int32 sums, the pod, the service ports, the names.
- `Scripts`, `Scenes`: runs written down call by call, and the stretches they are made of. A run is
  disciplined but for one kind of lapse, which its theorem names.
- `Witnesses`, `Crowding`, `Services`, `WorkflowWitness`: runs that meet all hypotheses, and runs that give
  up one and break a guarantee.

## What the proofs found

- **Leakage.** A deployer's entries over all pools number its landed begs less its landed releases, in every
  run (`Leakage.EntriesEquation`). So "at most one entry more than the begs whose final status write was
  lost" holds exactly as long as all but one of the reservations made known have been released
  (`Leakage.LostWritesOnlyIff`), and not in every run. A release that reads an outdated pool finds no
  entry, reports success and forgets the pool (`Witnesses.StaleReleaseLeaks`), and an update that rebuilds
  a deployer from scratch, as `GenerateWorkload` does, strips the finalizer, so that a deletion skips the
  release (`Witnesses.StrippedFinalizerLeaks`). `Leakage.BoundedLeakage` counts both and holds in every
  run; `FreshReads.FreshLeakage` is the original claim, for a deployer whose own releases read the latest
  pool and which is not removed unfinalized while it holds one.
- **Workflow history.** `Reconcile` backs up before it generates the workload, and a spec whose base image
  or file pair is nil panics in between. The deferred recovery stores the record without the new round, and
  does so again at every reconcile. `WorkflowCluster.WorkflowHistoryExactIff` and
  `WorkflowCluster.StuttersIffPanics` say exactly when, and `WorkflowWitness.HistorySpoiled` gives an input.
- **Over-commitment.** `Free` is not lowered by a beg, and a negative `Free` is never stored, so begs between
  two syncs can each take all of it. Usage stays within capacity if and only if each beg that lands fits
  into the stored `Free` less what has moved since it was stored (`EndToEnd.AlwaysWithinIff`), which a sync
  between any two begs ensures. Otherwise the over-commit bound holds, exactly as long as no sync meets a
  total beyond int32 (`EndToEnd.RunOverCommitIff`), and it is tight for the system: k deployers can each
  reserve the whole capacity between two syncs and run their jobs (`Crowding.CrowdOverfills`).
- **Two jobs of one deployer.** The lookup of the old job is a cached read. When it misses a running job the
  round advances over it, and both run (`Witnesses.MissedJobRunsTwice`). So it is when a reconcile reads an
  outdated deployer: the refused announcement goes unnoticed (`Witnesses.OldDeployerRunsTwice`). Exactly
  when all live jobs are of the stored round is `ExactJobs.JobsInRoundIff`: each action must store another
  round only while there are no jobs, make a job only in the stored round, and reuse a name only when no
  job of a later round is left. Attentive treatment of the one deployer is enough for that, whatever
  happens to others and whatever its edits do to its finalizer (`ExactJobs.AttentiveIsClean`). A lookup that
  still shows a deleted job does no harm.
- **Jobs without a reservation.** A round 0 set on a deployer that has begun none, a beg that meets a nil
  `Free`, a round set back after a failed beg, and containers changed within a round each reach the job
  without one, or with one too small (`Witnesses`). `ExactJobs.JobsFundedIff` says exactly when each live
  job is reserved for, `ExactJobs.PrudentIsSparing` that prudent treatment of the one deployer is enough.
- **Services.** Cleanup looks up a Deployment although what was created is a StatefulSet (its own error
  messages still speak of a deployment). For any two rounds a service can be taken from one to the other and
  keep both workloads (`Services.OldSetOutlivesRound`).
- **Names.** `name-round` is unique for non-negative rounds only: `a` at round -1 and `a-` at round 1 share
  `a--1`. Rounds in use are proved to be non-negative.

## Model

| member | source | states |
|---|---|---|
| EndToEnd.LiveJobsFitCapacity | controllers/deployer_controller.go:121-150 | At every state of every run in which this pool's own operations are steady and its grants fitted, and the owners of the jobs in question were treated prudently (see "Left out"), the summed limits of all live jobs of non-deleting deployers that draw on the pool are within its capacity; if the pool is absent, none draw on it. Nothing is asked of other pools and deployers |
| EndToEnd.DisciplinedJobsFit | controllers/deployer_controller.go:121-150 | So it is for every pool of a disciplined run |
| EndToEnd.LoadWithinUsage | controllers/deploy/deployer.go:147-158 | Jobs of distinct owners, each covered by an entry of its own size, sum to no more than the usage list |
| EndToEnd.RunOverCommitBound | controllers/deploy/deployer.go:142-159 | In every run of non-negative amounts and fixed capacity whose syncs met no total beyond int32, the stored pool obeys the over-commit bound |
| EndToEnd.RunOverCommitIff | controllers/resourcepool_controller.go:92-109 | In every run of non-negative amounts and fixed capacity the bound holds throughout if and only if no sync met a total more than 2^31 above capacity |
| EndToEnd.AlwaysWithinIff | controllers/deploy/deployer.go:142-159 | In every run of non-negative amounts and fixed capacity, with any reads, the pool is within its capacity at every moment if and only if each beg that landed fitted into Free less what had moved since the last sync |
| EndToEnd.RunUsageEquation | controllers/resourcepool_controller.go:92-109 | In every such run usage is capacity less the stored Free plus grants less returns since it was stored |
| EndToEnd.SyncedBegFits | controllers/resourcepool_controller.go:92-109 | In every run, a beg that lands on a pool of steady operations with a sync since the last one fits |
| EndToEnd.RunLedger | controllers/deploy/deployer.go:109-122 | In every run what is in use equals what was granted less what was returned, and a deployer's entries are the queue of its own grants and returns |
| Ledger.OverCommitBound | controllers/resourcepool_controller.go:92-109 | After k grants since the last sync, with any returns and failed syncs between, usage is at most capacity + (k-1) * Free in each dimension, if no sync met a total beyond int32 |
| Capacity.OverCommitIff | controllers/resourcepool_controller.go:92-109 | And that bound holds at every moment exactly in those runs |
| Capacity.SyncBoundIff | controllers/resourcepool_controller.go:92-109 | A sync with a non-negative result restores the bound if and only if usage exceeds capacity by at most 2^31 |
| Capacity.UsageEquation | controllers/resourcepool_controller.go:92-109 | What the stored Free stands for: usage is capacity less Free plus what has moved since |
| Capacity.WithinIff | controllers/deploy/deployer.go:142-159 | Usage is within capacity if and only if no more than Free has moved since the last sync |
| Capacity.WithinIffFitting | controllers/deploy/deployer.go:142-159 | Over every legal run: usage is within capacity at every moment if and only if every grant fitted, with no assumption on int32 totals |
| Capacity.PacedFits | controllers/deploy/deployer.go:142-159 | With a sync between any two grants every grant fits |
| Capacity.PacedWithin | controllers/resourcepool_controller.go:92-109 | So usage never exceeds capacity, and no sync meets a total its int32 arithmetic gets wrong |
| Ledger.OverCommitAttained | controllers/deploy/deployer.go:142-159 | For every capacity, owners and k some legal run of the ledger meets the bound with equality |
| Crowding.CrowdOverfills | controllers/deploy/deployer.go:142-159 | For every pool, capacity and k some run of the system, disciplined but for begs that do not fit, performs just those grants between two syncs, to k deployers whose live jobs use all of capacity + (k-1) * Free |
| Ledger.Conservation | controllers/deploy/deployer.go:109-159 | Over every legal run the usage equals all grants minus all returns |
| Ledger.EntriesAreQueue | controllers/deploy/deployer.go:109-122 | An owner's entries, in order, are the FIFO queue of its own grants and returns, whatever all others do |
| Ledger.DropFirstEntries | controllers/deploy/deployer.go:109-121 | A release drops the owner's oldest entry and leaves every other owner's entries as they were |
| Ledger.FirstIsOldest | controllers/deploy/deployer.go:109-117 | The entry the search stops at is the owner's oldest |
| Ledger.UsageIsGuarded | controllers/resourcepool_controller.go:77-83 | A pool with entries has its finalizer, after every legal run |
| Refinement.RefinesAtomic | controllers/deploy/deployer.go:98-160 | In every run, with stale reads, refusals and lost answers, a pool is what its accepted writes leave as atomic operations in write order, each legal where it landed |
| Refinement.PoolRemovedEmpty | controllers/resourcepool_controller.go:59-75 | Whatever begs land meanwhile, the version before a pool's removal has no reservations |
| Refinement.StepPools | controllers/deploy/deployer.go:98-166 | Every step leaves all pools alone or performs one legal atomic operation on one of them: a refused attempt has no effect, a retried beg appends once |
| Leakage.EntriesEquation | controllers/deploy/deployer.go:98-166 | In every run a deployer's entries over all pools number exactly its landed begs less its landed releases |
| Leakage.LostWritesOnlyIff | controllers/deploy/deployer.go:98-166 | In every run they number at most 1 + begs without a final write if and only if all but one of the reservations made known have been released |
| Leakage.BoundedLeakage | controllers/deploy/deployer.go:98-166 | In every run a deployer's entries over all pools number at most one more than begs without a final write, overlooked releases and stranding removals together |
| Leakage.CleanFinalization | controllers/deployer_controller.go:91-105 | Once a deployer is gone its entries number at most its slips, and none remain in any pool if there were none |
| Leakage.StepLeak | controllers/deployer_controller.go:121-143 | The strengthened invariant (at most the slips, or one more that the stored status names) is kept by every action |
| FreshReads.FreshLeakage | controllers/deploy/deployer.go:98-124 | When this deployer's releases read the latest pool and nobody removes it unfinalized while it holds one, whatever else happens, its entries number at most 1 + begs that no final write has made known (lost or still to come), and at most that many once it is gone |
| ExactJobs.JobsInRoundIff | controllers/deployer_controller.go:121-145 | For every deployer and every run, with no assumption: all its live jobs are of its stored round at every moment if and only if every action is clean (another round is stored only without jobs, a job is made only in the stored round, a name is reused only without jobs of a later round) |
| ExactJobs.CleanOneJob | controllers/core/job.go:34-58 | In a clean run a stored deployer has one live job at most |
| ExactJobs.AttentiveIsClean | controllers/core/job.go:34-58 | A run that is attentive to the deployer is clean for it |
| OneJob.AtMostOneLiveJob | controllers/core/job.go:34-58 | In a run that is attentive to this one deployer (jobs only, current reads of it, no cleanup of its that misses a running job, its name reused only without jobs and reconciles) every live job of it is the one named for its stored round, at every step and after any partial failure |
| OneJob.OthersJobsUntouched | controllers/core/job.go:101-128 | In every run, with any reads, a turn of one deployer leaves all other deployers' jobs exactly as they are |
| OneJob.RunNamed | controllers/core/context.go:183-202 | In every run a job is stored under the name of its owner and round |
| ExactJobs.JobsFundedIff | controllers/deploy/deployer.go:98-188 | For every deployer and every run, with no assumption: each live job, while the deployer is stored and not being deleted, has an entry of its limits in the stored pool at every moment if and only if every action is sparing (a job is made only with its limits reserved there, a release there leaves an entry for each live job, a write that moves to another pool finds them there, a name is reused only without jobs) |
| ExactJobs.PrudentIsSparing | controllers/deployer_controller.go:121-145 | A run that is prudent towards the deployer is sparing for it |
| Reservations.NoJobWithoutReservation | controllers/deployer_controller.go:121-145 | In a run that is prudent towards this one deployer (see "Left out" for its hypotheses) every live job of it, while it is stored and not being deleted, has an entry of that deployer, of exactly the job's limits, in the pool the stored status names |
| Reservations.BegFunds | controllers/deploy/deployer.go:147-159 | A beg that lands puts exactly the charge of the round's containers into the wanted pool, under the deployer's name |
| DeployerRounds.DeployerHistoryExact | controllers/deployer_controller.go:121-143 | In every run a deployer's records are the earlier non-zero rounds in strictly increasing order, each once, and each keeps the last status of its round |
| DeployerRounds.DeployerRoundMonotone | controllers/deployer_controller.go:134-142 | The stored round never decreases and the history is append-only |
| DeployerRounds.RunOrderly | controllers/deployer_controller.go:107-143 | In every run what a reconcile holds in memory is derived from the version it read, step by step through all branches |
| Rounds.HistoryExactIff | controllers/core/history.go:39-68 | Over any chain of status versions the history is exact if and only if it never grew without the round advancing |
| Rounds.HistoryRounds | controllers/core/history.go:58-68 | Every earlier non-zero round is recorded, and every record is of a round that was current |
| Rounds.RecordsCloseRounds | controllers/core/history.go:44-55 | Without a stutter each record keeps the round and status of the last version of its round |
| Rounds.ChainMonotone | controllers/core/history.go:58-68 | Along a chain the round never decreases and the history only grows |
| Rounds.SpoiledIffStutter | controllers/core/history.go:58-68 | The last version alone tells: it has records out of order, or of the current round, exactly if some step stuttered |
| Lives.LifeIsExact | controllers/core/history.go:39-68 | Any object whose versions keep or advance the round has an exact history |
| BuilderCluster.DoneImpliesHook | controllers/core/job.go:81-91 | In every run a builder stored as Done in round r has had its hook succeed while r was the stored round, despite stale reads and swallowed writes |
| BuilderCluster.BuilderHistoryExact | controllers/builder_controller.go:114-129 | In every run a builder's history is exact |
| WorkflowCluster.WorkflowDoneEarned | controllers/workflow_controller.go:139-166 | In every run a workflow stored as Done in round r was seen, in round r, with its deployer Done and its builder absent or at an end |
| WorkflowCluster.WorkflowHistoryExactIff | controllers/workflow_controller.go:122-137 | In every run a workflow's history is exact if and only if no recovered panic was stored past its first round |
| WorkflowCluster.SaneWorkflowHistoryExact | controllers/workflow/workflow.go:94-112 | While every spec can be generated the history is exact |
| WorkflowCluster.StuttersIffPanics | controllers/workflow/workflow.go:183-201 | When its first two calls are served, a reconcile of a live workflow stores a record of a round that is not over exactly when a later round is asked for, the current one is not 0, and the spec has a nil base image or file pair that generation dereferences |
| WorkflowCluster.StutterIffBotches | controllers/workflow_controller.go:76-81 | No other step of any kind makes a history stutter |
| StatusSeen.DeployerStatusSeen | controllers/core/pod.go:28-58 | In every run a deployer stored in round r had an earlier reconcile at work on round r that was given the explanation of its status. Done: a succeeded pod. Doing: a running one. Failed: a failed one, a refused call about the workload, a pool without Free, or an unknown kind. Pending: no pod or a pending one, no workload yet, or a cleanup that went well. UNDO: a spec of an earlier round |
| BuilderSeen.BuilderStatusSeen | controllers/core/job.go:63-92 | The same for a builder. Done: a hook that succeeded. Doing: a running pod, or a hook that failed. Failed: a failed pod, or a failed lookup, listing or creation |
| PoolServed.ServedSync | controllers/resourcepool_controller.go:92-109 | Two served turns on a live pool store as Free the int32 remainders of capacity less the summed amounts, usage and capacity unchanged, if neither is negative, and leave the store as it was otherwise |
| PoolServed.ServedGuardAndSync | controllers/resourcepool_controller.go:77-109 | Without its finalizer the pool gets it first, and then the same in three turns |
| PoolServed.SyncThenBeg | controllers/deploy/deployer.go:138-145 | The next beg that reads the pool after a sync goes on to write if and only if its int32 amounts are within the remainders just stored |
| PoolServed.ServedRemoval | controllers/resourcepool_controller.go:59-75 | Two served turns remove a pool that is marked for deletion if and only if its usage is empty, and otherwise change nothing |
| DeployerServed.ServedGuard | controllers/deployer_controller.go:107-113 | A new deployer is stored with its finalizer, and a round of 0 as -1 |
| DeployerServed.ServedPark | controllers/deployer_controller.go:115-119 | A round set back is stored as UNDO, and nothing else |
| DeployerServed.ServedFirstRound | controllers/deploy/deployer.go:126-166 | Without a held pool: after up to four attempts that read an overtaken version and conflict, one with room stores the entry of the int32 demand last in the wanted pool, and the round as Pending with its record; without room only an old job that is shown is gone |
| DeployerServed.ServedGivesUp | controllers/deploy/deployer.go:128-163 | The fifth conflict of a beg ends the reconcile, with no entry and no round stored |
| DeployerServed.ServedNilFree | controllers/deployer_controller.go:84-89 | A beg on a pool without Free stores the new round as Failed, without a held pool, and no entry |
| DeployerServed.ServedNextRound | controllers/deployer_controller.go:121-143 | With a held pool: the old job is deleted if it is shown, the oldest own entry given back, and the round stored with a new entry in the wanted pool, the same one or another; without room the job and the entry are gone all the same and the deployer is unchanged |
| DeployerServed.ServedJobMade | controllers/core/job.go:46-58 | Without a job in the stored round six served turns make it, with a pod laid out by the containers, and store Pending |
| DeployerServed.ServedSetMade | controllers/deploy/service.go:45-53 | The same for the StatefulSet of a service |
| DeployerServed.ServedJobWatched | controllers/core/pod.go:38-57 | With a job, four served turns store Pending for no pod or a pending one, Doing for a running, Failed for a failed, Done for a succeeded one, and no status for an unknown phase; nothing else changes |
| DeployerServed.ServedSetWatched | controllers/deploy/service.go:55-79 | The same for a service, whose Service object is updated before the pods are listed |
| DeployerServed.ServedUnknown | controllers/deploy/deployer.go:171-205 | A deployer of no known kind is stored as Failed in its round, and asked for a later round it stores nothing |
| DeployerServed.ServedTeardown | controllers/deployer_controller.go:91-105 | A deployer marked for deletion gives its oldest entry back to the pool it holds, after up to four attempts that read an overtaken version and conflict, and is gone; nothing else changes |
| DeployerServed.ServedTeardownGivesUp | controllers/deploy/deployer.go:100-123 | The fifth conflict of a release ends the reconcile with nothing stored, and the deployer stays |
| DeployerServed.ServedTeardownIff | controllers/deployer_controller.go:91-105 | Four served turns with current reads remove a deployer marked for deletion if and only if it holds no pool or one that still exists; otherwise nothing changes, and without an entry to give back no pool does |
| BuilderServed.ServedPark | controllers/builder_controller.go:108-112 | A round set back is stored as UNDO, and nothing else |
| BuilderServed.ServedAdvance | controllers/builder_controller.go:114-129 | Without an old job three served turns store the new round as Pending, with the record of the one before |
| BuilderServed.ServedAdvanceDeletes | controllers/core/job.go:112-128 | An old job that is found is deleted first: the round is stored if that succeeds, and nothing otherwise |
| BuilderServed.ServedMake | controllers/core/job.go:46-58 | Without a job in the stored round Pending is stored and a job asked for; the round ends as Pending if it is made, and as Failed otherwise |
| BuilderServed.ServedWatch | controllers/core/pod.go:38-57 | With a job whose pod has not succeeded the status that its phase names is stored |
| BuilderServed.ServedSuccess | controllers/core/job.go:81-91 | With one whose pod has: a builder not yet Done runs the hook and is stored Done if and only if it succeeds, Doing otherwise; one that is Done stays so without another hook |
| BuilderServed.ServedBroken | controllers/builder_controller.go:132-137 | A failed lookup or listing is stored as Failed |
| BuilderServed.ServedTeardown | controllers/builder_controller.go:84-98 | A builder marked for deletion is gone after two served turns |
| WorkflowServed.ServedObserve | controllers/workflow_controller.go:139-166 | Four served turns in the stored round store: the deployer's status without a builder; Doing for a builder that is Doing; for one Done or Failed the deployer's, or Doing if that is UNDO or Pending; and the old status for any other; nothing else changes |
| WorkflowServed.ServedDoneIff | controllers/workflow_controller.go:153-163 | So Done is stored if and only if the deployer is Done and the builder missing, Done or Failed, or it was Done before and the builder has not begun |
| WorkflowServed.ServedObserveFails | controllers/workflow_controller.go:139-151 | If either cannot be looked up, or the deployer is missing, nothing is stored |
| WorkflowServed.ServedMoveBuild | controllers/workflow/workflow.go:94-112 | Between rounds, with a build, the builder is stored, then the deployer, and only then the workflow, as UNDO or in its new round with the record of the one before; any refusal leaves the workflow as it was |
| WorkflowServed.ServedMove | controllers/workflow_controller.go:112-137 | Without a build the deployer alone is stored before the workflow |
| WorkflowServed.ServedMisfit | controllers/workflow_controller.go:76-81 | A spec that panics is stored as Failed in its old round, with a record of that round if a later one was asked for; one without its base image stores nothing |
| WorkflowServed.ServedInit | controllers/workflow_controller.go:107-110 | A new workflow is stored with a blank status |
| WorkflowServed.ServedTeardown | controllers/workflow_controller.go:83-97 | A workflow marked for deletion is gone after two served turns |
| DeployerController.Reconcile | controllers/deployer_controller.go:63-161 | Performs one whole reconcile of the deployer as a run of the cluster, from its first call to an idle thread, whatever happens between its calls |
| DeployerController.DeployContext.ReleaseResource | controllers/deploy/deployer.go:98-124 | Retries on conflict at most five times and ends past the release or with nothing left to do; without a held pool it makes no call |
| DeployerController.DeployContext.TryRelease | controllers/deploy/deployer.go:100-123 | One attempt: read, search, write the usage without the first own entry |
| DeployerController.DeployContext.FindUsage | controllers/deploy/deployer.go:109-117 | The index of the first entry of this deployer, or -1 if there is none |
| DeployerController.DeployContext.BegResource | controllers/deploy/deployer.go:126-166 | Retries on conflict; on success the wanted pool is held in memory, a nil Free panics with the deployer unchanged, any other failure ends the reconcile |
| DeployerController.DeployContext.TryBeg | controllers/deploy/deployer.go:128-160 | One attempt: charge, read, compare with Free, append one entry and leave Free alone |
| DeployerController.DeployContext.CleanupForNextRound | controllers/deploy/deployer.go:168-188 | Deletes the workload, then releases, then forgets the pool; stops at the first failure |
| DeployerController.DeployContext.DeleteJob | controllers/core/job.go:112-128 | Asks for the job of the stored round and deletes it if it is there, before anything is released |
| DeployerController.DeployContext.DeleteDeployment | controllers/deploy/service.go:87-97 | Looks for a Deployment and deletes it if it is there |
| DeployerController.DeployContext.Advance | controllers/deployer_controller.go:121-143 | Clean up, back up, beg, and only then store, ending idle |
| DeployerController.DeployContext.BackupState | controllers/core/history.go:39-68 | Appends the current round and status to the history in memory, unless the round is 0 |
| DeployerController.DeployContext.CreateAndWatchJob | controllers/core/job.go:27-99 | Makes the missing job after announcing Pending, or takes over its pod's status; an error leaves Failed to publish |
| DeployerController.DeployContext.CreateJobResource | controllers/core/context.go:104-161 | Creates the job of the stored round, with the pod of its containers, unless one of that name exists |
| DeployerController.DeployContext.HandleService | controllers/deploy/service.go:35-85 | Makes the missing StatefulSet after announcing Pending, or refreshes the service and takes over the pod's status |
| DeployerController.DeployContext.RefreshService | controllers/deploy/service.go:99-175 | Updates the service that is found, or creates the missing one by force, and only then asks for the pods |
| DeployerController.DeployContext.ForceCreateSet | controllers/core/context.go:120-161 | The forcing creation: a StatefulSet of the same name is deleted first, and creation follows only if that succeeded |
| DeployerController.DeployContext.PublishStatus | controllers/core/status.go:23-36 | Writes the status in memory, Failed on an error, and carries on whatever the answer |
| DeployerController.DeployContext.Finalize | controllers/deployer_controller.go:91-105 | Releases first and removes the finalizer only if that succeeded |
| DeployerController.DeployContext.Proceed | controllers/deployer_controller.go:115-152 | Parks, advances or handles according to the two rounds, and publishes the outcome of handling |
| PoolController.Reconcile | controllers/resourcepool_controller.go:46-110 | Performs one whole reconcile of the pool as a run of the cluster, finalization gate included |
| PoolController.StoreRemaining | controllers/resourcepool_controller.go:92-109 | Stores the int32 remainder as Free unless a dimension is negative |
| BuilderController.Reconcile | controllers/builder_controller.go:56-146 | Performs one whole reconcile of the builder as a run of its machine |
| BuilderController.BuildContext.CreateAndWatchJob | controllers/core/job.go:27-99 | The job state machine with a hook; an error leaves Failed to publish |
| BuilderController.BuildContext.TakeStatus | controllers/core/job.go:81-91 | A first success is taken over only if the hook succeeds, and becomes Doing otherwise |
| WorkflowController.Reconcile | controllers/workflow_controller.go:54-169 | Performs one whole reconcile of the workflow as a run of its machine |
| WorkflowController.WorkflowContext.GenerateWorkload | controllers/workflow/workflow.go:94-112 | Panics exactly on a spec with a nil pointer it dereferences, before any call; otherwise stores builder then deployer, stopping at the first failure |
| WorkflowController.WorkflowContext.Advance | controllers/workflow_controller.go:122-137 | Backs up before generating, so that a recovered panic publishes the longer history in the old round |
| WorkflowController.WorkflowContext.Observe | controllers/workflow_controller.go:139-168 | Publishes the aggregate of the builder's and the deployer's status, and nothing if either cannot be read |
| Quantities.SumDemand | controllers/deploy/deployer.go:129-137 | The beg loop computes the exact demand modulo 2^32 |
| Quantities.SumUsage | controllers/resourcepool_controller.go:93-97 | The sync loop computes the exact usage modulo 2^32 |
| Quantities.BegSumsExact | controllers/deploy/deployer.go:129-137 | Every partial sum of the beg loop is exact when amounts are non-negative and the total fits in an int32 |
| Quantities.SyncSumsExact | controllers/resourcepool_controller.go:92-99 | While usage is within capacity no partial sum wraps and Free is the exact, non-negative remainder |
| Quantities.FreeExactIff | controllers/resourcepool_controller.go:92-99 | For non-negative amounts Free is the exact remainder if and only if usage exceeds capacity by at most 2^31 |
| Pods.NewPodSpec | controllers/deploy/deployer.go:228-287 | The loop lays the containers out: the i-th initial one is the i-th init container, the i-th other the i-th main one, each with its spec's name, image, limits, ports, and requests of half the limits, rounded toward zero |
| Pods.LaidOutIff | controllers/deploy/deployer.go:265-279 | And no other pod is laid out so |
| Pods.PartitionPlaces | controllers/deploy/deployer.go:265-272 | Every container is on its side, after exactly the earlier ones of its kind |
| Pods.PartitionStable | controllers/deploy/deployer.go:265-272 | The order of the list is kept on each side, and the sides hold nothing else |
| Pods.PodMatchesCharge | controllers/deploy/deployer.go:241-250 | The pod's summed limits equal what is charged if and only if the demand fits in an int32 |
| Pods.RequestsWithinHalf | controllers/deploy/deployer.go:246-249 | Twice the pod's summed requests is at most the demand, for non-negative amounts |
| Ports.Service.MergePorts | controllers/deploy/service.go:134-165 | The nested loops leave a merge of the old ports: one port per exported container port in order, the old port of its name or a new one of its name, number, target and protocol, and the round label set |
| Ports.Service.Search | controllers/deploy/service.go:134-141 | The first port of that name, or none if there is none |
| Ports.MergeUnique | controllers/deploy/service.go:143-162 | Old ports and containers admit one merge only |
| Ports.MergeIdempotent | controllers/deploy/service.go:134-162 | Merging again changes nothing |
| Ports.NameDeterminesPort | controllers/deploy/deployer.go:297-303 | For valid protocols two port names are equal exactly if protocol and number are |
| Ports.ConvertOriginPorts | controllers/deploy/deployer.go:289-303 | Converts every port, in order: its name, number and protocol in upper case |
| Names.SubNameCollides | controllers/core/context.go:163-173 | The exact condition under which two owners and rounds share a sub-resource name, for all integers |
| Names.DigitsRead | controllers/core/context.go:163-173 | The decimal text of a round reads back as the round |
| Names.SubKeyUnique | controllers/core/context.go:183-202 | For non-negative rounds equal keys mean equal owner and equal round |
| Witnesses.DisciplineAllowsJobs | controllers/deployer_controller.go:121-150 | Some disciplined run has a live job drawing on its pool, so the end-to-end theorem is not vacuous |
| Witnesses.LessCapacityOverfills | controllers/resourcepool_controller.go:92-109 | A run, disciplined but for a lowered capacity, whose live jobs exceed it |
| Witnesses.StaleReleaseLeaks | controllers/deploy/deployer.go:109-120 | A run, disciplined throughout and without a lost write, that leaves two entries of one deployer, because a release read an outdated pool |
| Witnesses.StrippedFinalizerLeaks | controllers/core/context.go:130-145 | A run, disciplined throughout, in which an edit strips a finalizer and a deletion then leaves an entry of the deleted deployer |
| Witnesses.ZeroRoundUnfunded | controllers/deployer_controller.go:115-145 | A run, disciplined but for an edit that sets round 0 on a deployer whose stored round is 0, with a live job and no reservation |
| Witnesses.NilFreeUnfunded | controllers/deployer_controller.go:84-89 | A run, disciplined but for a beg that reads a pool without Free, with a live job and no reservation |
| Witnesses.RoundBackUnfunded | controllers/deploy/deployer.go:142-145 | A run, disciplined but for an edit that sets the round back to the stored one, with a live job and no reservation |
| Witnesses.NewContainersUnfunded | controllers/deploy/deployer.go:219-226 | A run, disciplined but for an edit of the containers within the stored round, with a live job larger than its reservation |
| Witnesses.MissedJobRunsTwice | controllers/core/job.go:101-128 | A run, disciplined but for a cleanup that does not see the running job, with two live jobs of one deployer |
| Witnesses.OldDeployerRunsTwice | controllers/core/job.go:46-58 | A run, disciplined but for an outdated read of the deployer, with two live jobs of one deployer |
| Services.SetStays | controllers/deploy/service.go:87-97 | From any moment of any run on, a StatefulSet goes only by a deletion from outside or by its own forced re-creation, however many rounds pass |
| Services.OldSetOutlivesRound | controllers/deploy/service.go:87-97 | For any rounds 0 < r < r' some run takes a service from r to r' and leaves the StatefulSets of both |
| WorkflowWitness.HistorySpoiled | controllers/workflow_controller.go:122-137 | An input whose run stores a record of round 1 while round 1 is current |

## Left out

- Leakage.BoundedLeakage: counts overlooked releases and stranding removals besides lost final writes, because without them the bound is false (see "What the proofs found").
- EndToEnd.LiveJobsFitCapacity: assumes the next two entries of the owners of the jobs in question, and of the pool a fixed and non-negative capacity, non-negative amounts, and begs that land only when they fit, for which a sync since the last beg is enough. Runs that give up one of these are given for fitting begs (`Crowding`), a fixed capacity, current deployer reads, a cleanup that sees the running job, and the edits below; none is given for deployers that run services, name reuse, and amounts that are negative or beyond int32 in total.
- Reservations.NoJobWithoutReservation: assumes the next entry of the deployer in question, that whoever sets its round to the stored one finds the reservation for it in place and no reconcile running (or changes neither round nor containers, or comes before the first round and the finalizer), that its begs read a pool whose Free has been computed, and that its amounts are non-negative with totals within an int32. The exact condition is `ExactJobs.JobsFundedIff`.
- OneJob.AtMostOneLiveJob: assumes of the deployer in question that it runs jobs, that its reconciles read its latest version, that its cleanup does not miss the old job while it is there (the lookup is a cached read), and that its name is reused only once its old jobs and reconciles are gone (garbage collection by owner is one of the environment's actions, with no promptness assumed). The exact condition is `ExactJobs.JobsInRoundIff`.
- EndToEnd.RunOverCommitBound: assumes that no sync met a total more than 2^31 above capacity, which is exactly what the bound needs.
- Ports.MergeIdempotent: for protocols in the enum the CRD validates; the selector and owner of a service that is created are not part of this model.
- BuilderCluster.DoneImpliesHook: the hook fires at least once, not exactly once, and is an operation that succeeds or fails; the code behind it (`controllers/build`), a panic inside it included, is not part of this model.
- Services.OldSetOutlivesRound: StatefulSets and Deployments are names in a store, without pods of their own; which pod a selector finds first is the environment's choice. A Service is not stored: each of its calls is answered by the environment.
- WorkflowCluster.WorkflowDoneEarned: the builder and the deployer answer as they please; that the deployer's Done belongs to this very round is not claimed, and the code does not check it.
- StatusSeen.DeployerStatusSeen: which pod a listing returns is the environment's choice, so that the pod belongs to that round's job is not claimed.
- The `Deploy` section and the registry location of a workflow, which the CRD requires, are taken to be present.
- A builder and a deployer of one workflow name their jobs alike; builder jobs are kept apart from deployer jobs here.
- Messages, start and end times, pod worker names, display names, environment variables, commands, labels other than the round, JSON encoding of history records, and the spec inside a record.
- Of what an update omits and the API server defaults, only a spec round of 0 (stored as -1) is modelled.
- The requeue delay and error text a reconcile returns, retry back-off, and the workflow stage (only ever Pending).
- `TypeMeta` of a usage entry: constant for deployers, so an entry is identified by its namespaced name; usage entries without a resource or a name.
- `CreateResource` with an update (get, then update under retry) is one call of the workflow machine.
- Finalizers of other parties, owner UIDs, and blocking deletion.
- Dockerfile templates, image tags, deep copies, scheme registration, `main.go`, the empty application controller, and the generated YAML.
