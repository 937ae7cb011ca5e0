# Supervisor protocols, verified

The Supervisor is a control plane for machine-learning models: it keeps a database, a cluster backend and Redis in
agreement while requests, background deploys, a reconciler, a poller, a scaler and a telemetry collector interleave and
fail. This project models its protocols in Dafny and proves what they keep, over every input and every run.

| file | part of the program | form |
|---|---|---|
| `TelemetrySpec`, `TelemetryRollup`, `TelemetryStore` | usage tiers, roll-up, pruning, charts (`app/telemetry/`) | a class over a table of rows, specified by the one-shot aggregation of a ghost sample history |
| `Deployer`, `DeployerInvariants`, `DeployerTheorems`, `DeployerHistory`, `DeployerRuns` | deploy, wake, sleep, failure, crash and recovery (`app/deployer/service.py` and its callers) | a step machine: one step per committed database session or backend call |
| `Workflow`, `WorkflowRequests`, `WorkflowHistory`, `WorkflowTheorems`, `WorkflowRuns` | submissions, approvals and rejections of a model together with its deploys (`app/registry/service.py`, `app/registry/api.py`, `app/poller/service.py`) | a step machine around the deploy machine; every handler writes by id what differs from what it has read, at any time before |
| `WaitLoops` | the two readiness loops | methods with loops and a termination measure |
| `KeyRace` | revocation against key publication | a step machine |
| `RedisSync`, `Reconciler` | one undisturbed reconciler pass | classes over key/value maps |
| `OrphanSweep` | the sweeps of a pass amid everything else | a step machine |
| `Registry` | submissions, approvals, the poller | classes over the model and request tables |
| `LoginLimiter`, `QueueScaler` | login throttle, idle timer | classes with ghost logs of everything that happened |
| `DockerBackend`, `Labels` | container names, apply, scale, delete | a class over the container map |
| `States`, `Resources`, `Options`, `Ordered` | shared vocabulary | datatypes and predicates |

## Main results

* Incremental roll-up equals batch aggregation: after every tick, the rows of every tier are exactly the aggregates
  (count, weighted mean, maximum) of all samples ever recorded in the buckets that are over and still kept; no bucket is
  written twice, and pruning never loses history (`TelemetryStore.UsageStore`, `TelemetryStore.UsageCollector.Tick`).
* A model is busy exactly while one background task owns it, all along a run, if and only if no step of the run splits
  its ownership (`WorkflowTheorems.OwnershipIff`, `DeployerTheorems.OwnershipIff`). Claims on stale copies never do.
  While ownership is whole, a busy model always has a task that can move, at most ten fault-free steps end where that
  task is going, and recovery strands nothing (`DeployerHistory.BusyModelsEnd`). Why a model is in its state, and what
  it remembers as failed, is said by the last step of the run that made it so (`DeployerHistory`).
* In every run, with faults, stale copies and late writes, only resources that an admin granted reach the cluster, and
  only versions that an admin approved or that a submission asked for within the grant it had read
  (`WorkflowTheorems.OnlyGrantedResources`, `WorkflowTheorems.OnlyAdmittedVersions`).
* A model never has two pending requests if and only if no submission files one while another waits that it has not seen
  (`WorkflowRequests.OnePendingIff`), and its decisions never change if and only if no status is written late
  (`WorkflowRequests.DecisionsFinalIff`).
* Outside two windows a revoked key is readable if and only if a fault has left it there (`KeyRace`).
* One pass of the reconciler makes Redis and the cluster agree with the database from any contents; it is idle exactly
  when they agree already.
* Both wait loops end within a bound on every sequence of statuses.

## Properties the code does not have

* "A busy model has one owner." Four kinds of step break it, each with a run that shows it: a deploy that raises after
  its final record (route write or clean-up, `app/deployer/service.py:405-412`) and is repaired while the model is busy
  again (`LateFaultSplitsOwnership`); a repair that cannot reach the database (`FailedRepairStrands`); a rejection of a
  first request that read the row before an approval and writes it after (`StaleRejectSplitsOwnership`): its UPDATE
  (`app/registry/service.py:123-130`) is by id alone; and a re-registration that read the model as removed and is written
  over a claim made since (`StaleReregistrationSplits`, `app/registry/service.py:56-61`). `OwnershipIff` says that nothing
  else among the modelled steps does; removal is modelled as one step with its guard.
* "A ready or sleeping model whose workload exists runs its recorded version with its approved resources." It holds in
  runs without a split, as above, or a lapse (`SettledMeansRecorded`). A lapse is a repair by `_guarded` of a task whose own history does not
  vouch for the workload, in one of six ways (claimed from a failed model, by an approval that replaced the grant, or by
  the recovery, and dead before it started; dead in its failure handling after it had applied another version, after
  its apply call raised, or after the rollback's did), or a crash between the two commits of `recover_interrupted`. For each of
  the seven, `EveryLapseDiverges` gives a run whose only lapse is its last step and which ends diverged, so that none can
  be struck off.
* "A model has at most one pending request." Submissions read which requests wait and write later, by id
  (`app/registry/service.py:134-141`): two that overlap both file one (`OverlappingSubmissionsFile`). `OnePendingIff` gives
  the exact condition.
* "A decided request stays decided." Approve, reject and supersede all write by id what they read before.
  `LateApprovalDeploys` deploys a rejected version, `LateRejectionOverwrites` rejects an approved request under its deploy,
  `LateSupersessionForgets` erases a rejection, so that the rejected digest files a request again, and in `LostClaimRun` a
  poll that loses its claim to the approval of a request marks that request superseded. `DecisionsFinalIff` gives the
  exact condition.
* "A rollback goes to another version." One that acts on a stale copy may deploy what is current already
  (`StaleRollbackStays`); `RollbackGoesElsewhere` gives the exact condition, and no deploy recorded since is enough.
* "The sweep never deletes the workload of an active model" fails for a name that returns while a sweep is about to
  delete its leftovers: `ReturnLoses`; `LossIff` gives the exact condition.
* "A revoked key is unreadable once nothing is in flight" fails after a pass that aborts between its writes and its
  re-check: `AbortedPassLeaks`. `RevokedIsUnreadable` gives the exact condition, `NextPassHeals` says when it ends.
* The login handler raises for every wrong key that is not throttled, if and only if the limiter is configured with room
  for no client (`LoginLimiter.Login`).

## Model

| member | source | states |
|---|---|---|
| TelemetrySpec.BatchSplit | app/telemetry/store.py:37-66 | the one-shot aggregate of a stretch of raw samples is the combination of the aggregates of any two parts of it |
| TelemetrySpec.BatchCounts | app/telemetry/store.py:60-65 | the count of an aggregate is the number of distinct samples in its bucket |
| TelemetrySpec.BatchPeaks | app/telemetry/store.py:63-64 | the maxima of an aggregate bound every sample of the bucket and are reached by one |
| TelemetrySpec.BatchSums | app/telemetry/store.py:60-65 | the sums of an aggregate are the plain sums of the samples of the stretch |
| TelemetrySpec.BatchDescribes | app/telemetry/store.py:59-65 | the row made from an aggregate has as its count the number of samples, as its averages their averages, as its maxima their largest values |
| TelemetrySpec.DueIff | app/telemetry/store.py:54-58 | a bucket is due exactly if it is aligned, over and holds a sample |
| TelemetrySpec.WeightOfRow | app/telemetry/store.py:60-65 | a row's averages weighted by its count give back the exact sums it was made from |
| TelemetrySpec.GroupTotals | app/telemetry/store.py:59-65 | adding up the finer rows of a complete stretch gives the aggregate of its raw samples: chained tiers lose nothing |
| TelemetryRollup.TiersFit | app/telemetry/tiers.py:13-18 | each coarse step is a multiple of the finer one, a bucket closes before its finer rows expire, and keep(coarse) >= keep(fine) + step(coarse) |
| TelemetryRollup.SourceMeansFresh | app/telemetry/store.py:45-58 | a closed bucket with source rows at or above the floor is due and has never been rolled up, even when every row of the tier was pruned and the floor is 0 again |
| TelemetryRollup.FloorBelow | app/telemetry/store.py:45-49 | the floor lies at or below every non-empty bucket that is still to be rolled up |
| TelemetryRollup.FreshMeansComplete | app/telemetry/store.py:49-58 | a bucket that has just closed still has every one of its finer rows, each with its exact value |
| TelemetryRollup.GroupIsFresh | app/telemetry/store.py:50-58 | the non-empty groups of source rows are exactly the buckets that have just become due |
| TelemetryRollup.GroupIsBatch | app/telemetry/store.py:59-65 | the row computed from such a group is the aggregate of every raw sample of the bucket |
| TelemetryStore.GroupPoints | app/telemetry/store.py:54-58 | grouping by bucket yields exactly the non-empty groups of closed buckets, in time order |
| TelemetryStore.RecordAgrees | app/telemetry/store.py:15-27 | a sample recorded now changes no bucket that a roll-up has closed, and no other 5-second bucket |
| TelemetryStore.UsageStore.Record | app/telemetry/store.py:15-27 | the history gains the sample (a second one in the same bucket replaces the first) and every tier stays exact |
| TelemetryStore.UsageStore.Newest | app/telemetry/store.py:45-47 | per model, the latest row of the tier, for exactly the models that have one |
| TelemetryStore.UsageStore.Select | app/telemetry/store.py:50-53 | exactly the rows of one model and tier at or above the floor, oldest first |
| TelemetryStore.UsageStore.InsertAll | app/telemetry/store.py:59-65 | one new row per group, no key inserted twice, nothing else changed |
| TelemetryStore.UsageStore.RollModel | app/telemetry/store.py:49-65 | one model and tier: every bucket over by now gets its exact row once, nothing else changes |
| TelemetryStore.UsageStore.RollTier | app/telemetry/store.py:39-66 | one tier: the rows of every model become those due at now; other tiers are untouched |
| TelemetryStore.UsageStore.Rollup | app/telemetry/store.py:37-66 | existing rows never change; every row describes its samples (count, averages and maxima, sample by sample); every bucket that holds samples, is over by now and is still kept has its row |
| TelemetryStore.UsageStore.Prune | app/telemetry/store.py:69-71 | exactly the expired rows go; after a roll-up at that time the store is still exact |
| TelemetryStore.PrunedIsCovered | app/telemetry/store.py:69-71 | a row that a prune may delete already lies in a coarser bucket that has been written |
| TelemetryStore.UsageStore.DeleteModel | app/telemetry/store.py:101-102 | all rows of one model and its history are forgotten; other models keep theirs |
| TelemetryStore.UsageStore.Series | app/telemetry/store.py:74-87 | a chart holds, in order, exactly the finished buckets of its window, each describing its samples; an unknown range gives none |
| TelemetryStore.UsageCollector.Tick | app/telemetry/collector.py:34-47 | after every tick the store is exact for the history with this round's readings, every row describes its samples, and it has pruned exactly if five minutes have passed since the last prune |
| TelemetryStore.TableIsHonest | app/telemetry/store.py:37-66 | in every valid store each row describes its samples, and no closed, kept, non-empty bucket lacks its row |
| TelemetryStore.RangesAreKept | app/telemetry/tiers.py:13-22 | each chart range is drawn from the tier that is kept for just as long |
| TelemetryStore.StoreIsDetermined | app/telemetry/store.py:37-66 | the table is a function of the samples and the last roll-up and prune times: the tick pattern leaves no trace |
| DeployerInvariants.StepKeepsOwned | app/deployer/service.py:202-230 | every step but a splitting one keeps: busy iff one owner, one lock holder, and says who owns the model next |
| DeployerInvariants.SplitBreaks | app/deployer/service.py:117-128 | after every splitting step (repair of a late fault in a busy row, failed repair, rejection or re-registration written over a claim) the model is busy without an owner, owned without being busy, or blank with a version recorded |
| DeployerInvariants.StepKeepsExclusive | app/deployer/service.py:397-412 | every step that does not split keeps: no clean-up of a failed deploy while the model is ready or sleeping |
| DeployerTheorems.StepKeepsBasic | app/deployer/service.py:235-296 | every step that does not split keeps: what a task carries (prior version, spec) still agrees with the row; a recorded version implies approved resources |
| DeployerTheorems.StepKeepsMatching | app/deployer/service.py:369-446 | every step that neither splits nor lapses keeps: a settled model, and a task whose history vouches for it, has the recorded version with the approved resources |
| DeployerTheorems.RunKeepsOwned | app/deployer/service.py:202-230 | unsplit runs from any state that satisfies the invariants keep them |
| DeployerTheorems.OwnershipIff | app/deployer/service.py:109-128 | all along a run a model is busy iff exactly one task owns it, and a pending or removed one has no version recorded, if and only if no step of the run splits |
| DeployerTheorems.BusyMeansOwned | app/deployer/service.py:202-279 | after every unsplit run a running model is busy iff some task owns it, and never two do |
| DeployerTheorems.BackendCallsExclude | app/deployer/service.py:405-411 | a failed deploy's clean-up never hits a settled model, `sleep` never scales beside a task that changes the workload, and one task at a time holds the lock |
| DeployerTheorems.ClaimsWinIff | app/deployer/service.py:202-230 | begin, rollback, approve, wake and sleep take effect if and only if both their copy and the committed row allow it |
| DeployerTheorems.LosersChangeNothing | app/deployer/service.py:465-485 | whatever copy it holds, a claim on a busy or removed model, a wake of one that is not sleeping and a sleep of one that is not ready change nothing |
| DeployerTheorems.SettledMeansRecorded | app/deployer/service.py:235-279 | in every unsplit run without lapses a ready or sleeping model whose workload exists runs exactly its current digest with its approved resources |
| DeployerTheorems.AlwaysIffLucky | app/deployer/service.py:109-128 | that guarantee is never lost but at a lapse, and a lapse that happens to find the right workload does no harm |
| DeployerTheorems.RecoveryCutIsFinal | app/deployer/service.py:415-446 | a crash between the two commits of the recovery leaves, after the next start, a ready model nobody deploys again |
| DeployerRuns.EveryLapseDiverges | app/deployer/service.py:109-128 | for each of the seven kinds of lapse, a run whose only lapse is its last step, of that kind, ends ready with nobody at work and another workload than recorded |
| DeployerRuns.SoundRepairsAreNone | app/deployer/service.py:112-126 | a repair is a lapse exactly if the task's history does not vouch for the workload and the model has a version |
| DeployerRuns.InterruptedRecoveryDiverges | app/deployer/service.py:421-446 | two crashes, the second between the commits of the recovery, end running and ready with one version recorded and another one running |
| DeployerRuns.FailedRecoveryDiverges | app/deployer/service.py:437-446 | so does one crash, if the redeploy of the recovery dies before it starts |
| DeployerRuns.LateFaultSplitsOwnership | app/deployer/service.py:405-412 | a route write that raises after the final record lets two tasks own the model |
| DeployerRuns.StaleRejectSplitsOwnership | app/registry/service.py:118-131 | three requests and no fault do the same: approve, a rejection that read the row before, begin |
| DeployerRuns.StaleReregistrationSplits | app/registry/service.py:56-61 | so does a re-registration that read the removed row before the model was registered again and approved |
| DeployerRuns.FailedRepairStrands | app/deployer/service.py:117-128 | a repair that cannot reach the database leaves a busy model to nobody |
| DeployerTheorems.StepMovesVersions | app/deployer/service.py:260-268 | each step changes the recorded version only to what a deploy has just applied, and then keeps the replaced one for a rollback |
| DeployerTheorems.PreviousIsAnother | app/deployer/service.py:260-268 | in every unsplit run the previous version differs from the current one and is the one it replaced |
| DeployerTheorems.RemovedHoldsNothing | app/deployer/service.py:529-542 | in every run, split or not, a removed model has no current and no previous version |
| DeployerTheorems.RollbackGoesElsewhere | app/deployer/service.py:458-463 | a rollback deploys the previous version of the row it read, and that is the current one by then if and only if a deploy has since made it current; with no final record since, it is another one |
| DeployerRuns.StaleRollbackStays | app/deployer/service.py:458-463 | a run in which a stale rollback claims the model for the version that is current already |
| DeployerTheorems.OnlyApprovedRuns | app/deployer/service.py:171-199 | in every run, faults included, everything handed to the backend carries resources granted to this model |
| DeployerTheorems.RunKeepsApproved | app/registry/api.py:291-297 | that is kept over whole runs from any state that has it |
| DeployerTheorems.TasksEnd | app/deployer/service.py:109-128 | every step of a task other than a GPU-wait report ends it or brings it strictly closer to its end, moving no other task |
| DeployerTheorems.BusyModelsMove | app/deployer/service.py:235-279 | after every unsplit run a busy model has a task whose next step is possible: the lock holder, or the owner when the lock is free |
| DeployerTheorems.BusyModelsDrain | app/deployer/service.py:235-279 | after every unsplit run at most ten fault-free task steps lead to an idle model (`DeployerHistory.BusyModelsEnd` says to which) |
| DeployerTheorems.NoneStranded | app/deployer/service.py:109-128 | after every unsplit run, whatever faults hit its tasks, a model without tasks is not busy |
| DeployerTheorems.RecoveryStrandsNone | app/deployer/service.py:415-446 | after a crash anywhere, recovery leaves the model idle or owned by a redeploy of its recorded version, whose `begin` cannot conflict |
| DeployerHistory.StepMakes | app/deployer/service.py:109-128 | each step leaves the state it makes, as listed state by state: what ends ready, sleeping or failed among final records, wakes, repairs, recoveries and requests, by mode and recorded version; any other step leaves the state alone |
| DeployerHistory.StateIsLastMade | app/deployer/service.py:235-526 | after every run a model is in a state if and only if the last step that made a state made that one |
| DeployerHistory.WhyInState | app/deployer/service.py:235-526 | so after every run from a new model, which waits for its first approval |
| DeployerHistory.StepWorkload | app/deployer/service.py:235-411 | a successful backend call leaves what it was given, a failed one that, what was there, nothing or a mixture; deletions leave nothing; no other step but a crash touches the workload or hands anything over |
| DeployerHistory.SpecIsGrant | app/deployer/service.py:171-199 | what a deploy or a rollback hands over is its version with the grant of the moment it reads it |
| DeployerHistory.RemovedRunsNothing | app/deployer/service.py:529-542 | in every unsplit run a removed model runs nothing |
| DeployerHistory.FaultsStrikeAnywhere | app/deployer/service.py:109-128 | the runs quantified over have faults at every point of every task, GPU waits in each of the three waits, and crashes of the process at any moment |
| DeployerHistory.StepFails | app/deployer/service.py:387-396 | the failed version changes only by the failure record of a deploy, to its version, and by an explicit redeploy or a re-registration, to none |
| DeployerHistory.FailedIsLast | app/deployer/service.py:387-396 | after every run a version is remembered as failed if and only if its deploy recorded the last failure and nothing has forgotten it since |
| DeployerHistory.StepPending | app/deployer/service.py:262-266 | a version stops waiting when its deploy is over, however it ended; otherwise only submissions, decisions and removals say which one waits |
| DeployerHistory.StepGrant | app/registry/api.py:291-297 | only an approval that wins its claim changes the grant, to what it granted, and only a re-registration drops it |
| DeployerHistory.StepCurrent | app/deployer/service.py:260-268 | the final record of a successful deploy makes its version current, a removal clears it, nothing else touches it |
| DeployerHistory.BusyModelsEnd | app/deployer/service.py:235-526 | from every busy state of every unsplit run at most ten fault-free steps end where the owner is going: a deploy serves its version with the grant, a failed one is back on the recorded version or gives up, a wake is ready, a dead task is repaired |
| DeployerHistory.WakesEndReady | app/deployer/service.py:481-506 | after every unsplit run a wake that wins its claim ends ready if nothing goes wrong |
| Workflow.SubmittedAsSpecified | app/registry/service.py:37-95 | a submission that has read nothing stale does to the model and its requests what `RegistryService.SubmitDigest` ensures |
| WorkflowRequests.SubmissionKeeps | app/registry/service.py:78-95 | a submission keeps what every request asked, files at most one, and supersedes by id exactly what it has read as pending, if it has an effect |
| WorkflowRequests.StepDecidesIff | app/registry/service.py:97-141 | a step leaves every decided or superseded request of the model alone if and only if it writes no status late |
| WorkflowRequests.RequestWasFiled | app/registry/service.py:89-95 | in every run each request was filed by a submission that needed an admin, and says what that asked |
| WorkflowRequests.PendingIsLatest | app/registry/service.py:82-95 | as long as no submission overlooks a waiting request, a pending request was filed by the last submission that had any effect |
| WorkflowRequests.OnePendingIff | app/registry/service.py:82-95 | all along a run a model has at most one pending request, if and only if no submission files one while another waits that it has not seen |
| WorkflowRequests.FilingLeavesOneIff | app/registry/service.py:134-141 | a step from at most one pending request leaves at most one, if and only if it does not file one blindly |
| WorkflowRequests.PendingWasOverlooked | app/registry/service.py:134-141 | in every run whatever submission had an effect after a request that still waits was filed, had not seen it |
| WorkflowRequests.DecisionsFinalIff | app/registry/service.py:97-141 | along a run no decided or superseded status ever changes, if and only if no approval, rejection or supersession is written over a decision made since its request was read |
| WorkflowRequests.RejectedForGood | app/registry/service.py:73-76 | after a rejection, and until a status is written late, no submission that looks for rejections then deploys the digest or files a request for it, across removal and re-registration too |
| WorkflowHistory.KnownBadStays | app/registry/service.py:74-77 | once a deploy of a version has recorded its failure, no submission that reads the row after that deploys it or files a request for it, until an explicit redeploy, another version's failure, or a removal |
| WorkflowHistory.FailureStays | app/deployer/service.py:387-396 | along every run of the workflow the remembered failure stays until one of these |
| WorkflowHistory.KnownIsNoop | app/registry/service.py:74-77 | a submission that reads its digest as current, waiting or failed has no effect |
| WorkflowHistory.ApprovesIff | app/registry/api.py:263-297 | an approval takes effect, request and claim together, if and only if it read its request as pending, stays within it and its claim wins; otherwise nothing changes |
| WorkflowHistory.RejectsIff | app/registry/service.py:118-131 | a rejection that read its request as pending is written whatever has happened since, any other changes nothing; a model it read as new is marked failed |
| WorkflowHistory.RedeploysRecorded | app/deployer/service.py:449-456 | in every run a redeploy is of a version that a row recorded as current, or, with none, as failed |
| WorkflowTheorems.RunProjects | app/registry/api.py:263-297 | every run of the workflow is a run of the deploy machine, unsplit and careful if the workflow's steps are |
| WorkflowTheorems.OwnershipIff | app/registry/service.py:118-131 | all along a run of the workflow a model is busy iff exactly one task owns it, and a blank one has no version, if and only if no machine step splits and no rejection or re-registration is written over a claim |
| WorkflowTheorems.SettledMeansRecorded | app/registry/api.py:263-297 | without overruns and lapses a settled model runs its recorded version with its approved resources in the workflow too |
| WorkflowTheorems.GrantWasDecided | app/registry/service.py:97-116 | every grant the deploy machine works with is an approval of an admin |
| WorkflowTheorems.OnlyGrantedResources | app/deployer/service.py:171-199 | in every run everything handed to the backend carries resources that an approval granted, within what a request asked that a submission of this model had filed |
| WorkflowTheorems.AutomaticNeedsGrant | app/registry/service.py:82-87 | in every run a submission that deploys without a human asks pointwise for no more than the grant of the row it read, which was decided before that |
| WorkflowTheorems.CarriedAlong | app/deployer/service.py:449-463 | in every run each digest in the row, the tasks and the backend calls was admitted, also those that stale redeploys and rollbacks bring back |
| WorkflowTheorems.OnlyAdmittedVersions | app/deployer/service.py:171-199 | in every run every version handed to the backend was approved by an admin or deployed by a submission within the grant it had read |
| WorkflowRuns.LateApprovalDeploys | app/registry/api.py:263-297 | for every first submission, a run in which a late approval deploys the rejected version |
| WorkflowRuns.LateRejectionOverwrites | app/registry/service.py:118-131 | for every first submission, a run in which a late rejection overwrites the approval and leaves the deploying model failed |
| WorkflowRuns.OverlappingSubmissionsFile | app/registry/service.py:134-141 | for any two first submissions, a run in which both have read that nothing waits, and two requests wait |
| WorkflowRuns.LateSupersessionForgets | app/registry/service.py:134-141 | for any two first submissions, a run in which a supersession erases a rejection and the rejected digest files a request again |
| WorkflowRuns.LostClaimSupersedes | app/poller/service.py:86-92 | after every run that ends with the approval of a waiting request, a poll that could have deployed just before it loses its claim and marks the approved request superseded |
| WorkflowRuns.LostClaimRun | app/poller/service.py:86-92 | such a run, for every submission, every one beyond its grant and every one within it |
| WaitLoops.EnoughPolls | app/deployer/service.py:301-335 | however small the poll interval, enough polls pass any deadline |
| WaitLoops.GoOn | app/deployer/service.py:301-335 | a poll that lets the loop go on is before the horizon, so only boundedly many can |
| WaitLoops.LastWaitIsLatest | app/deployer/service.py:301-335 | the time the deadline counts from is the latest of the start and all GPU waits |
| WaitLoops.ReportPoll | app/deployer/service.py:309-325 | waiting is reported when a wait begins and deploying when the model is ready again, in turn |
| WaitLoops.VerdictMeans | app/deployer/service.py:301-335 | what each way to end says of all the polls before it |
| WaitLoops.WaitReady | app/deployer/service.py:301-335 | ends at the first poll that decides anything, as that poll alone and the last GPU wait decide it; within gpu_wait_max + deploy_timeout + 3 delta of its start and deploy_timeout + 2 delta of its last GPU wait, whatever it sees; success is the first poll that shows a ready, healthy, loaded model; the reports alternate |
| WaitLoops.WaitWorkerReady | app/deployer/service.py:345-367 | ends at the first poll that decides: success iff a heartbeat reports a loaded model, trust iff a running worker has sent none for a full grace period since the start and every GPU wait, timeout iff past the deadline counted from each; the same time bounds |
| KeyRace.StepKeepsInv | app/redis_sync/keys.py:42-66 | every step keeps: a revoked key in Redis has a revocation before its second delete, a pass yet to re-check it, or an earlier fault to thank |
| KeyRace.RevokedIsUnreadable | app/keys/api.py:182-193 | in every interleaving and outside those windows a revoked key is readable if and only if a fault left it there and nothing deleted it since; without faults it is absent |
| KeyRace.RevokedForever | app/keys/api.py:182-193 | a committed revocation is never undone |
| KeyRace.NextPassHeals | app/redis_sync/keys.py:28-35 | in every interleaving, once a pass begun after the revocation has published its word on the key, the key is gone unless an older pass writes it back afterwards |
| KeyRace.OnlyOldPassesWriteBack | app/redis_sync/keys.py:42-53 | only a pass that was under way when the key was revoked can write it back |
| KeyRace.AbortedPassLeaks | app/lifecycle/reconciler.py:42-49 | a pass aborted before its re-check leaves a revoked key readable with nothing in flight |
| KeyRace.PassCompletes | app/redis_sync/keys.py:42-66 | from any state a pass that nothing disturbs comes to its end and leaves exactly the valid keys |
| KeyRace.ExpiredGoes | app/redis_sync/keys.py:28-35 | a key found expired, when published or checked again, is deleted |
| KeyRace.CommitFollowsDelete | app/keys/api.py:182-193 | in every interleaving a revocation is committed only after its first Redis delete has succeeded |
| KeyRace.FirstDeleteSuffices | app/keys/api.py:182-193 | with no pass under way the key is gone before its revocation is committed, and stays gone though the second delete fails |
| KeyRace.AbandonedLeavesValid | app/keys/api.py:119-125 | a revocation given up leaves the key valid |
| KeyRace.CreatedIsReadable | app/keys/api.py:128-146 | with no pass under way a key is readable once it is created |
| KeyRace.ValidStaysReadable | app/redis_sync/keys.py:42-66 | in every interleaving a key that every pass has listed and that does not expire stays readable until someone begins to revoke it |
| RedisSync.TtlMatchesExpiry | app/redis_sync/keys.py:34-35 | the TTL is at least a second and ends within a second of the key's expiry |
| RedisSync.Redis.PublishKey | app/redis_sync/keys.py:28-35 | the key is there afterwards exactly if its row is neither revoked nor expired, with its record and a TTL exactly if it expires; no other key changes |
| RedisSync.Redis.RebuildKeys | app/redis_sync/keys.py:42-53 | from any contents: no revoked, expired or unknown key is left, and every other one is there with its record and TTL |
| RedisSync.KeysAreDetermined | app/redis_sync/keys.py:42-53 | the table and the times determine `key:*`: two rebuilds agree entry by entry |
| RedisSync.DropKeepsMatch | app/redis_sync/keys.py:56-66 | a rebuild and a later re-check of an unchanged table leave exactly the keys still valid at the re-check |
| RedisSync.MatchIsRight | app/redis_sync/keys.py:22-35 | what a rebuild leaves, said in terms of the columns: revoked, expired and unknown ids absent, all others present with record and TTL |
| RedisSync.Redis.DropRevoked | app/redis_sync/keys.py:56-66 | of the listed keys exactly those that the fresh read shows as gone, revoked or expired are deleted |
| RedisSync.Redis.PublishRoute | app/redis_sync/routes.py:7-12 | the route and its index entry are set, nothing else |
| RedisSync.Redis.DeleteRoute | app/redis_sync/routes.py:15-17 | the route and its index entry are gone, nothing else |
| RedisSync.Redis.RebuildRouteIndex | app/redis_sync/routes.py:20-28 | from any contents the index equals the names of the routes that exist, and is declared ready |
| Reconciler.PassConverges | app/lifecycle/reconciler.py:41-115 | after a pass from any contents: no leftovers of inactive names, every published row has its desired route, schemas and queue users are there, nothing approved is missing without a claim, but for models whose reconciliation raises |
| Reconciler.IdleIffConverged | app/lifecycle/reconciler.py:41-101 | a pass changes rows, workloads, routes, schemas or users if and only if they did not agree |
| Reconciler.SecondPassIsIdle | app/lifecycle/reconciler.py:41-101 | a second undisturbed pass changes nothing |
| Reconciler.PassShowsStates | app/lifecycle/reconciler.py:14-21 | after a pass a ready model answers, a sleeping sync model shows as sleeping, a sleeping queue model answers, a failed one is unavailable, a removed one has nothing, and a busy one what it had |
| Reconciler.UnknownNamesVanish | app/lifecycle/reconciler.py:59-72 | after a pass a name without a row has no route, workload or schema |
| Reconciler.MissingIsClaimed | app/lifecycle/reconciler.py:103-115 | a ready or sleeping model without its workload is claimed exactly if it has approved resources |
| Reconciler.Reconciler.Tick | app/lifecycle/reconciler.py:41-72 | the whole pass: keys exact, the world after it determined from any start, exactly the approved missing models claimed, routes stay within the index |
| Reconciler.Reconciler.ReconcileAll | app/lifecycle/reconciler.py:51-57 | every row is reconciled, in any order, each leaving the others alone; one that raises, wherever, leaves only the rest of its own reconciliation undone |
| Reconciler.Reconciler.ReconcileModel | app/lifecycle/reconciler.py:74-101 | one model: removed names lose route and schema, busy ones are left alone, missing ones claimed, the rest provisioned and published |
| Reconciler.Reconciler.HealMissingWorkload | app/lifecycle/reconciler.py:103-115 | the claim succeeds iff resources are approved, and is dropped without effect otherwise |
| Reconciler.Reconciler.SweepWorkloads | app/lifecycle/reconciler.py:61-66 | exactly the workloads of active names stay |
| Reconciler.Reconciler.SweepRoutes | app/lifecycle/reconciler.py:67-72 | exactly the routes of active names stay; the index is not touched |
| OrphanSweep.LossNeedsReturn | app/lifecycle/reconciler.py:59-72 | a sweep takes something of an active model only if it listed it, read the name as inactive afterwards, and the name was registered after that |
| OrphanSweep.LossIff | app/lifecycle/reconciler.py:59-72 | what a sweep deletes it listed, and belonged to a name it then read as inactive; it is taken from an active model if and only if the name was registered after that and not removed since |
| OrphanSweep.SweepsSpareLiving | app/lifecycle/reconciler.py:59-72 | in every interleaving a name that stays registered and had no leftovers is never swept |
| OrphanSweep.ReturnLoses | app/lifecycle/reconciler.py:62-72 | from any state with leftovers of an inactive name, a run in which the returning name loses its new workload, route or schema |
| OrphanSweep.SweepCompletes | app/lifecycle/reconciler.py:59-72 | from any state a sweep that nothing disturbs leaves exactly the things of active names, of its kind |
| OrphanSweep.ThereIff | app/lifecycle/reconciler.py:59-72 | a thing is there after a step exactly if the step made it, or it was there and was neither dropped nor deleted |
| Registry.RegistryService.SupersedePending | app/registry/service.py:134-141 | every pending request of the model is superseded, nothing else changes |
| Registry.RegistryService.FindRejected | app/registry/service.py:144-152 | true iff some request for this model and digest was rejected |
| Registry.RegistryService.FindTarget | app/registry/service.py:48-70 | refuses exactly bad names and mismatched owners; a removed model starts from scratch |
| Registry.RegistryService.SubmitDigest | app/registry/service.py:37-95 | an accepted submission is a no-op exactly if the row has its digest as current, pending or failed, or it was rejected before; otherwise it deploys within the grant or files one request; at most one request stays pending and nothing decided changes |
| Registry.RegistryService.Accept | app/registry/service.py:78-95 | waiting requests are superseded first, then it deploys within the grant or files one request |
| Registry.RegistryService.Approve | app/registry/service.py:97-116 | grants exactly the open request, pointwise within what it asked; every error leaves all unchanged |
| Registry.RegistryService.Reject | app/registry/service.py:118-131 | the digest counts as rejected from now on; only a model that never ran fails |
| Registry.RegistryService.Open | app/registry/service.py:154-160 | no error iff the request exists and is pending |
| Registry.AtMostOnePending | app/registry/service.py:82-93 | a model never has two pending requests |
| Registry.SupersededIsFinal | app/registry/service.py:134-141 | superseding leaves decided rows alone and keeps the latest-request invariant |
| Registry.AutoDeployIff | app/registry/resources.py:46-55 | a submission deploys without a human iff it is new, accepted and pointwise within the current grant |
| Registry.Poller.SubmitAndClaim | app/poller/service.py:68-93 | refused, known, filed, claimed or postponed exactly as the registry's outcome and the row say; a claim lost to whatever another request commits keeps that row and writes its supersessions over that request table |
| Registry.Poller.PollPackage | app/poller/service.py:55-97 | a digest becomes seen iff it was dealt with for good; a busy or lost claim leaves it unseen, and submitting again would deploy unless the winner has changed grant, versions or identity; rows and requests change exactly as the outcome says |
| Registry.StillDeploys | app/poller/service.py:86-93 | a submission accepted for deploy but not deployed is accepted again, also when the lost claim's refresh dropped what it wrote to the row |
| LoginLimiter.LiveOfLive | app/session.py:63-69 | dropping expired failures early never changes a later answer |
| LoginLimiter.LoginLimiter.Recent | app/session.py:63-69 | the remaining list is what the unbounded log still counts, and no empty list is kept |
| LoginLimiter.LoginLimiter.Blocked | app/session.py:71-72 | the answer of an unbounded failure log since the client's last reset or eviction |
| LoginLimiter.LoginLimiter.MakeRoom | app/session.py:77-80 | a new client in a full table evicts the client whose last failure is oldest; the read is always defined; it fails only with room for no client |
| LoginLimiter.LoginLimiter.RecordFailure | app/session.py:74-81 | the table stays within its bound, its lists non-empty and sorted, and agrees with the log extended by this failure |
| LoginLimiter.LoginLimiter.Reset | app/session.py:83-84 | forgets exactly this client |
| LoginLimiter.Oldest | app/session.py:79-79 | a client whose last failure is no later than anyone's |
| LoginLimiter.Login | app/auth_api.py:29-41 | a valid key always gets in; a wrong one is refused as too many iff the log counts the maximum, and recorded otherwise; it raises instead iff there is room for no client |
| LoginLimiter.GuardKeepsSpaced | app/auth_api.py:37-39 | recording only while unblocked keeps any max + 1 consecutive failures at least a window apart |
| LoginLimiter.CountedAreConsecutive | app/session.py:63-69 | the failures inside any interval are a consecutive stretch of the log |
| LoginLimiter.AnyWindow | app/session.py:71-72 | then every window of that length, wherever it starts, holds at most the maximum |
| LoginLimiter.ThrottleHolds | app/auth_api.py:31-41 | in every reachable state no window holds more than the maximum of any client's failures |
| QueueScaler.QueueScaler.Examine | app/lifecycle/queue_scaler.py:41-51 | a stop needs a quiet stretch longer than the idle timeout seen by every examination in it; a start needs work and no cooldown; timeout 0 never stops; if the deployer raises, the timer runs on |
| QueueScaler.QueueScaler.Tick | app/lifecycle/queue_scaler.py:30-51 | every accepted start and stop is returned, and justified so by the examinations up to it; the first call that raises ends the tick |
| QueueScaler.QuietGrows | app/lifecycle/queue_scaler.py:42-47 | another examination without work extends a quiet stretch |
| DockerBackend.NamespacesAreDisjoint | app/registry/labels.py:13-22 | two accepted names never share a container or a cache volume |
| Labels.NameShape | app/registry/labels.py:18-20 | a name matches exactly if it is one letter or digit, or two of them around at most 38 letters, digits and dashes |
| DockerBackend.OthersUntouched | app/cluster/docker.py:207-266 | changing one model's containers leaves what every other model has |
| DockerBackend.DockerBackend.Replace | app/cluster/docker.py:196-205 | removes the container and tells whether it was running |
| DockerBackend.DockerBackend.Apply | app/cluster/docker.py:207-239 | exactly the containers of the mode, made from the spec, a running worker kept running; other models untouched; a missing image changes nothing |
| DockerBackend.DockerBackend.ReplaceQueue | app/cluster/docker.py:216-226 | the ordered replacement of a queue model's containers ends in exactly the new API and worker |
| DockerBackend.DockerBackend.Delete | app/cluster/docker.py:255-266 | removes exactly the three containers of this model's names and, unless kept, its cache |
| DockerBackend.DockerBackend.Scale | app/cluster/docker.py:244-253 | starts or stops exactly the container of the role, if there is one |

## Left out

- Deployer: one model at a time; its route, its replica count, deployment rows and events are not part of the state machine.
- Deployer: `remove` is one step together with its guard, because its write is not conditional; a removal written over a claim is not modelled.
- Workflow: what a submission writes is one step, and so is what a decision writes. Configuration changes reach it as redeploys.
- DeployerTheorems.OwnershipIff: about the modelled steps, so without removals written over a claim.
- WorkflowTheorems.OwnershipIff: about the modelled steps, so without removals written over a claim.
- DeployerTheorems.AlwaysIffLucky: its condition looks at the workload; the condition that can be checked beforehand is that of `SettledMeansRecorded`.
- DeployerTheorems.BusyMeansOwned: for unsplit runs; `OwnershipIff` says that no other runs have it throughout. The same goes for the other theorems about unsplit runs.
- DeployerTheorems.SettledMeansRecorded: for runs without lapses; `EveryLapseDiverges` shows that each kind of lapse does harm.
- Registry.RegistryService.Approve: reads and writes in one step; late approvals are in `Workflow`.
- Registry.RegistryService.Reject: reads and writes in one step; late rejections are in `Workflow`.
- Registry.RegistryService.SubmitDigest: reads and writes in one step; overlapping submissions are in `Workflow`.
- Registry.RegistryService.Accept: as `SubmitDigest`.
- Registry.RegistryService.SupersedePending: as `SubmitDigest`.
- Registry.AtMostOnePending: for submissions one after the other; `WorkflowRequests.OnePendingIff` is about those that overlap.
- Registry.Poller.PollPackage: one poll at a time; its reads go stale only towards the claim.
- Registry.Poller.SubmitAndClaim: as `PollPackage`.
- KeyRace: `patch_key` is not one of the interleaved requests; creation and revocation are.
- Reconciler.Reconciler.Tick: nothing else happens during the pass; the deploys it claims start after it, and a publication or removal of a route is not split between its two Redis writes.
- Reconciler.Reconciler.ReconcileModel: as `Reconciler.Reconciler.Tick`.
- Reconciler.Reconciler.HealMissingWorkload: the row read afresh is the row of the pass; a claim lost to another request is the losing claim of `Deployer`.
- RedisSync: JSON records are opaque strings.
- OrphanSweep.SweepsSpareLiving: needs a name without leftovers from before its registration; `ReturnLoses` shows why.
- TelemetryStore: averages are exact reals (floating-point rounding is not modelled), the clock is monotone and starts at or after 0, ticks do not overlap, `latest` and the cluster readings are outside.
- WaitLoops: statuses, probes, heartbeats and the clock are parameters; a backend call that raises ends the loop and is the caller's failure path.
- QueueScaler: the job count and the deployer's answer are parameters; a Redis read that raises is not among them.
- Registry: label parsing, limits and quantity parsing, `to_dict`/`from_dict`; resources start as integers.
- DockerBackend: network isolation, image pulls and container options.
- HTTP, sessions and signatures, webhooks, the event bus, the audit log, configuration, the Kubernetes backend and the user interface.
