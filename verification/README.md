# Verified model of the TofuProject controller

The controller keeps OpenTofu projects in a Kubernetes cluster in step with their specs. One reconcile reads a project
and the Jobs, ConfigMaps and pull requests around it, takes one path, and creates at most one Job; between reconciles
users edit, approve, pin, suspend and delete, Jobs succeed or fail, and pull requests merge or close. This project models
that state machine and the algorithms it rests on, and proves what they promise over every run.

## Layout

| file | what it holds |
|---|---|
| `Api.dfy` | projects, Jobs, pull requests, specs and statuses |
| `Reconciler.dfy` | the reconciler as it runs: a project object changed field by field, a store of Jobs, the object written back |
| `Protocol.dfy` | the same reconcile as a function from stored state to stored state; every method of `Reconciler` is proved against it |
| `Rules.dfy`, `RulesHold.dfy`, `QueueRules.dfy` | an independent statement of the reconcile: where the controller has a branch for each situation, one rule for each field, Job kind, ConfigMap, pull request and answer; every reconcile follows all of them |
| `Moves.dfy` | an abstract machine: every reconcile settles the project and makes exactly one of eleven guarded moves |
| `Traces.dfy` | runs: reconciles of any project in any order, interleaved with everything users, Jobs and GitHub do |
| `Approval.dfy`, `PullRequests.dfy`, `ForeignMerges.dfy` | nothing is applied that was not planned and approved; exactly when pull requests stay bound to their plan, and two runs in which they do not |
| `Orphans.dfy` | what has to happen before a deleted project goes, which Jobs its deletion starts, and what it does not wait for |
| `Exclusion.dfy` | which Jobs can be active together |
| `DependencyOrder.dfy` | upstream projects succeed first; dependency cycles never run |
| `BoundedWork.dfy`, `RetryRuns.dfy` | how many Jobs one desired state can cost, and runs that reach the bound |
| `Lifetimes.dfy` | when a project comes to be deleted, what a force-unlock does, which Jobs start and which are cut short |
| `Recording.dfy` | what a finished apply leaves behind, and how its outputs reach the projects that depend on it |
| `DriftChecks.dfy`, `DriftRepair.dfy` | what a drift check says; what `keepInSync` does, and when it does run an apply |
| `Pins.dfy` | which Jobs a pinned revision leads to |
| `PlainProjects.dfy` | reconciles of a project that nothing holds back, for the runs that show where a promise ends |
| `Params.dfy`, `ParamResolver.dfy`, `ParamLaws.dfy`, `References.dfy` | parameter resolution: specification, loops, laws, what each reference contributes |
| `HashStrings.dfy`, `DesiredHash.dfy` | what the hash strings and the digest of the desired state tell apart |
| `Revisions.dfy`, `RevisionStore.dfy`, `RevisionHistory.dfy` | the revision store: specification, loops, whole histories |
| `ApplyWindow.dfy` | the apply window search |
| `PlanLog.dfy`, `ShellWord.dfy`, `Text.dfy` | plan logs, shell quoting, strings |
| `BlockStrip.dfy`, `BlockTrees.dfy` | the awk block stripper; when it removes the blocks of its keyword and nothing else |

`dafny verify dfyconfig.toml` checks everything.

## How the model reads

A hash is an opaque string of at least eight characters. A Job's name is its project, its kind and the eight-character
prefix (or the drift check's second) instead of a string built from them. What one reconcile learns from outside the
stored state is one observation `Obs`: the time, the digest of the desired state, the order in which the API lists Jobs
and in which Go walks a map, whether logs can be read, what GitHub answers. Theorems hold for every observation.
Reconciles are serialized, read current state, and save the project as a whole; each ends with the object in memory equal
to the stored one, which the methods' contracts prove.

Every handler of the controller is a method of `Reconciler.Controller`, proved to do what the function of its name in
`Protocol` says; `ReconcileRequest` composes them. What those functions promise is stated by the rules and by the lemmas
over moves and runs, so the table names these and only those methods whose contracts say more.

The rules of `Rules.dfy` are stated over the stored state and the observation, with the source's conditions and constants
written out and no function of the handlers. Theorems that speak of `MayRun`, `Steered` or `Wants` mean these.

Theorems over runs are statements about a `Run`, a list of states and the events between them. They say of an index what
held at earlier indices, so no history variable is needed: an invariant of the form "there is an earlier step that …" is
carried along the run by induction.

## Where the code and its promises part

- `doc/drift-detection.md:31` says that clearing the applied hash triggers a re-apply. It does so exactly when the Job of
  the last apply is gone and the hash may still be applied; a finished Job is taken for the new apply, so drift reads as
  repaired although nothing has run (`DriftRepair.RepairRunsIff`, `DriftRepair.RepairMayNotRun`).
- A pending pull request is a bare number, looked up in whatever repository the spec names at the time, and dropped with a
  stale plan in pull request mode only. A reconcile keeps it bound to its plan exactly if it does not drop a
  stale plan and leave its number behind (`PullRequests.ReconcileKeepsBindingIff`), a spec edit exactly if the number is
  bound in the repository it leads to (`PullRequests.EditKeepsBindingIff`), and a project stays bound over a run exactly if
  no step fails so (`PullRequests.AlwaysBoundIff`), as when mode and repository stay while a number is pending
  (`PullRequests.AlwaysBound`). Otherwise a merge can approve what it was not opened for
  (`ForeignMerges.AnotherRepositoryApproves`, `ForeignMerges.AnotherModeApproves`).
- `README.md:53` promises an automatic destroy by the finalizer. A destroy Job has succeeded by then, but the deletion does
  not look at other Jobs: an apply Job that was running when it began may outlive the project and apply anew
  (`Orphans.ReleasedWhileApplying`). Nothing but destroy Jobs is started any more, and another Job is active at the
  release exactly if it was active at the beginning and nothing outside has ended it since (`Orphans.OnlyDestroyStarts`, `Orphans.DeletionWaitsForNoJob`).
  Whether tofu's own state lock stops such a Job is not part of this model.
- `api/v1alpha1/tofuproject_types.go:248` says that `resourceTimeout` kills a running Job whose resource is in progress for
  too long. Of a plan, apply or drift Job it never does: while one is active, the lock check ends the reconcile before the
  timeout is looked at, or the drift check does not look at it. It ends exactly stuck destroy Jobs of a deletion that may
  destroy (`Lifetimes.EndsActiveJobExactly`, `Lifetimes.StuckApplyStays`).
- Pinning a revision again restores nothing while its pinned hash is still the last applied one, whatever was written to the
  `-tf` ConfigMap in between (`RevisionHistory.PinRestoresUnlessLastApplied`, `RevisionHistory.PinningAgainMayKeepOtherFiles`).
- Revisions outlive their project, while the counter of a new project of the name starts at 0. A leftover of the same number
  keeps a revision from being stored, a newer one can push it out at once (`RevisionHistory.StoredIffFreeAndKept`,
  `RevisionHistory.EqualLeftoverBlocks`, `RevisionHistory.NewerLeftoverPushesOut`).
- The blast radius is kept in 32 bits: the total is the sum exactly while the sum fits
  (`PlanLog.TotalIsSumIffItFits`, `PlanLog.TotalWrapsAround`).
- `doc/ignore-providers.md:7` and `:13` promise that all blocks of the keyword are stripped, and nothing is said to go with
  them. The awk pass misses the closing brace of a block opened and closed on one line, such as `provider "random" {}`, and
  takes what follows (`BlockTrees.OrdinaryFilesLoseLines`, `BlockTrees.InlineTakesTheNextBlock`,
  `BlockTrees.InlineTakesTheClosingLine`). A block inside another of the keyword leaves a brace behind
  (`BlockTrees.NestedLeavesTheClosingLine`). Without nesting the pass is right exactly if each one-line block is followed in
  its own sequence, past other one-line ones, by a block of the keyword over several lines, or at the top of the file by
  nothing (`BlockTrees.StripRemovesTheBlocks`); without one-line blocks exactly if none is nested
  (`BlockTrees.MultilineStripsUnlessNested`). With both, the faults can cancel out (`BlockTrees.BothFaultsMayCancel`).
- `controllers/tofuproject_controller.go:443` says that the hash covers all inputs that affect the desired state. Each of
  them alone does change it (`DesiredHash.EditChangesTheHash`), but fields are joined without a separator, so two edits at
  once can cancel out (`DesiredHash.TwoEditsMayCancel`). So can a changed external param in their hash string when a key has
  an equals sign (`HashStrings.EqualsSignsMayCancel`); otherwise it always shows (`HashStrings.ExternalHashShowsValue`).
- The parameters that one dependency yields depend on map iteration order exactly when it sends two different values to
  one parameter (`ParamLaws.OrderMattersIffConflict`).

## Model

| member | source | states |
|---|---|---|
| Approval.AppliesOnlyWhatWasApproved | controllers/tofuproject_controller.go:735-790 | In every run with automatic approval off, no pin, approvals given by the approve command, and approval mode and repository left alone while a pull request is pending: each apply Job is for a hash whose plan Job had succeeded and was reported, and which then the user, its own merged pull request or the size of its plan approved, in this life of the project and unrevoked; and it starts inside the apply window |
| Approval.ApprovalIsEarned | controllers/tofuproject_controller.go:903-991 | Whatever hash is approved in a state, its plan was reported at an earlier step and approved at that or a later one, and the approval has stood since |
| Approval.PendingIsPlanned | controllers/tofuproject_controller.go:903-928 | Whatever plan is pending in a state, its plan Job had succeeded when it was reported |
| Approval.PlanJobIsForTheHash | controllers/tofuproject_controller.go:780-787 | If the hashes in play have distinct prefixes, the plan Job reported for a hash was created by a reconcile of that very hash and has existed since |
| Approval.MergeApprovesItsOwnHash | controllers/github.go:426-446 | Under the same premise on mode and repository, a hash newly approved by a reconcile is the current one, by a small plan or by the merge of the pull request opened for this project and this hash |
| Approval.AppliesExactlyWhenItMay | controllers/tofuproject_controller.go:614-641 | The main flow creates the apply Job of the current hash if and only if that hash is not applied, no such Job exists, and approval is automatic, or the hash is the approved one and its window is open |
| Approval.ApprovalLeadsToApply | controllers/tofuproject_controller.go:748-755 | Once the user approves a pending plan that lacks nothing else, the next reconcile of its hash that passes preparation starts the apply Job |
| Approval.WaitEndsInTheWindow | controllers/tofuproject_controller.go:824-838 | The reconcile of an approved plan outside its window is queued for exactly the least later fire, or for the end of the TTL if that is sooner; until that fire the check keeps failing, from then on it holds for as long as the window is configured, an hour by default |
| Approval.StepApproves | controllers/tofuproject_controller.go:744-774 | In one step of anything, an approved hash stays, vanishes, is copied from the pending plan by the user, or is set by a reconcile through plan size or merge |
| Approval.StepPending | controllers/tofuproject_controller.go:793-821 | In one step of anything, the pending plan hash stays, vanishes, or becomes the hash whose plan Job has succeeded |
| Approval.StepApplies | controllers/tofuproject_controller.go:748-755 | Outside automatic approval and pins only a reconcile of the approved hash creates an apply Job, in the window |
| Approval.StepPlans | controllers/tofuproject_controller.go:842-852 | A plan Job is created only by a reconcile whose current hash it is named after |
| Approval.ReconcileApproves | controllers/tofuproject_controller.go:947-991 | A reconcile sets the approved hash only to the current one, and only with the plan within the threshold or the bound pull request merged |
| Approval.MoveApproves | controllers/github.go:426-446 | Of all moves only a reported small plan and a merged pull request change the approved hash |
| PullRequests.AlwaysBound | controllers/github.go:401-405 | If no spec edit changes approval mode or repository while a pull request is pending, in every state of the run a nonzero pending number names, in the repository of the spec, a pull request opened for this project and for exactly the pending plan hash |
| PullRequests.StepKeepsBinding | controllers/tofuproject_controller.go:793-821 | Hash changes, rejections, failed creations, other projects and other pull requests keep that binding, and so does every spec edit that leaves mode and repository alone |
| PullRequests.MoveKeepsBinding | controllers/github.go:426-464 | Every move keeps it in any mode; so only dropping a stale plan before the move can lose it |
| PullRequests.PlannedKeepsBinding | controllers/tofuproject_controller.go:758-774 | Reporting a plan keeps the binding in any mode: no pull request is pending then, or its number belongs to this same hash and pull request mode is off |
| PullRequests.ReconcileKeepsPRs | controllers/github.go:472-491 | A reconcile reuses no number of a repository: known pull requests keep the plan they were opened for, and a merge is neither made nor undone |
| PullRequests.EditKeepsBindingIff | controllers/github.go:411-420 | A spec edit keeps the binding if and only if no pull request is pending, the repository is the same, or the number is bound in the new one as well |
| PullRequests.ReconcileKeepsBindingIff | controllers/tofuproject_controller.go:793-821 | A reconcile of a bound project, in whatever mode, state and observation, keeps the binding if and only if it does not drop, past preparation and outside pull request mode and automatic approval, a stale plan whose number is pending, for a hash that is neither applied yet nor recorded as applied in this same reconcile |
| PullRequests.StepKeepsBindingIff | controllers/tofuproject_controller.go:793-821 | Of everything that can happen, only such a reconcile and an edit to a repository where the number means something else lose the binding |
| PullRequests.AlwaysBoundIff | controllers/github.go:401-405 | Over any run that starts bound, the project is bound in every state if and only if no step is of these two kinds |
| ForeignMerges.AnotherRepositoryApproves | controllers/github.go:280-288 | A run in which a plan is applied although its pull request is still open, because the number means somebody else's merged one in the repository that the spec now names |
| ForeignMerges.AnotherModeApproves | controllers/tofuproject_controller.go:799-804 | A run in which the merge of the pull request of one hash approves another one, because the mode was off while the first became stale |
| Orphans.NoOrphans | controllers/tofuproject_controller.go:1113-1172 | From a start without leftovers, a project that ever had an apply Job loses its finalizer only after a destroy Job created in this very deletion, approved where deletion is protected, has succeeded |
| Orphans.DestroyJobsAreOwn | controllers/tofuproject_controller.go:1130-1144 | Whenever a project has a destroy Job, it was created while this project was being deleted with approval where required, and has existed since |
| Orphans.ConfigMapStays | controllers/tofuproject_controller.go:344-347 | From its first apply Job on, a project has its `-tf` ConfigMap |
| Orphans.ReleasesExactlyWhenDestroyed | controllers/tofuproject_controller.go:1146-1151 | A reconcile removes the finalizer if and only if the project is being deleted, with approval where protected, and its ConfigMap is gone or its destroy Job has succeeded |
| Orphans.StepEffect | controllers/tofuproject_controller.go:128-142 | In one step of anything a finalizer goes only when deletion may destroy and the ConfigMap is gone or the destroy Job has succeeded |
| Orphans.MoveKeepsConfigMaps | controllers/tofuproject_controller.go:1176-1217 | No move deletes a `-tf` ConfigMap; starting a destroy Job and releasing the finalizer both need the deletion, approved where protected |
| Orphans.OnlyDestroyStarts | controllers/tofuproject_controller.go:124-142 | In every run, from the deletion of a project to its end, each Job created for it is a destroy Job |
| Orphans.DeletionWaitsForNoJob | controllers/tofuproject_controller.go:1113-1172 | In every run, any other Job of a deleted project is active in a state if and only if it was active when the deletion began and has neither finished nor been deleted by somebody else since: the controller neither starts, nor stops, nor awaits it |
| Orphans.QuietDeletionStaysQuiet | controllers/tofuproject_controller.go:1113-1172 | If no other Job of the project is active when the deletion begins, none is at its release or at any point before |
| Orphans.ReleasedWhileApplying | controllers/tofuproject_controller.go:1130-1151 | A run from a fresh project in which the finalizer goes, its destroy Job succeeded, while its apply Job is still active |
| Exclusion.ExclusiveAlways | controllers/tofuproject_controller.go:543-586 | In every state of every run no project has two active Jobs among plan, apply and force-unlock, and none has two drift Jobs |
| Exclusion.SharedCacheSerializes | controllers/helpers.go:601-617 | Where every project of a namespace uses the shared cache, at most one plan, apply or drift Job is ever active there |
| Exclusion.StepKeepsExclusive | controllers/tofuproject_controller.go:210-219 | Every step of anything keeps that exclusion |
| Exclusion.NothingToRunBeside | controllers/tofuproject_controller.go:571-583 | When a plan, apply or force-unlock Job is created, no other such Job of the project is active |
| Exclusion.NothingActiveInNamespace | controllers/tofuproject_controller.go:546-560 | When a shared-cache project creates a plan, apply or drift Job, nothing is active in its namespace |
| Exclusion.StepKeepsNamespaceExclusive | controllers/tofuproject_controller.go:546-561 | Every step of anything keeps the namespace-wide exclusion |
| DependencyOrder.JobsWaitForUpstreams | controllers/params.go:92-116 | Without pins a plan, apply or drift Job is created only while every declared upstream project is Succeeded |
| DependencyOrder.UpstreamSucceedsFirst | controllers/params.go:109-116 | First successes form a topological order: each upstream project succeeds for the first time strictly earlier |
| DependencyOrder.CycleNeverRuns | controllers/params.go:92-116 | No project on a dependency cycle ever gets a plan, apply or drift Job |
| DependencyOrder.NobodyDeadlockedRuns | controllers/params.go:92-116 | The same for every set of projects each of which depends on another of the set, so also for what depends on a cycle |
| DependencyOrder.NobodyDeadlockedSucceeds | controllers/params.go:109-116 | None of them ever succeeds |
| DependencyOrder.StepNeedsUpstreams | controllers/tofuproject_controller.go:326-332 | In one step of anything, reaching Succeeded and creating such a Job both need every upstream project Succeeded before |
| DependencyOrder.SuccessNeedsFlow | controllers/tofuproject_controller.go:660-661 | A move that reaches Succeeded or starts such a Job has passed preparation |
| DependencyOrder.ReadyMeansSucceeded | controllers/params.go:109-116 | What the flow requires of an upstream project held in the stored state, also for a project that depends on itself |
| BoundedWork.WorkIsBounded | controllers/tofuproject_controller.go:614-689 | For a fixed spec and hash, from any state and whatever the outcomes, as long as nobody else deletes its Jobs and no force-unlock does, at most one apply Job more than there are retries left and at most one plan Job is created, whatever the resource timeout |
| BoundedWork.CreationsSpendBudget | controllers/tofuproject_controller.go:993-1070 | Job creations between two states plus the budget left never exceed the budget at the first |
| BoundedWork.SpentMeansQuiet | controllers/tofuproject_controller.go:780-787 | Once the budget is spent, and short of deletion, no Job of the project is created any more |
| BoundedWork.StepSpends | controllers/tofuproject_controller.go:680-689 | Every step of anything keeps creations within the budget, a retry included |
| BoundedWork.MoveSpends | controllers/tofuproject_controller.go:1060-1070 | Starting a Job costs one, a retry pays for the Job it deletes, and nothing gives budget back |
| RetryRuns.BoundIsReached | controllers/tofuproject_controller.go:680-689 | For every number of retries there is such a run that creates the apply Job once more than that |
| BoundedWork.UnwatchedChangesKeepTheHash | controllers/tofuproject_controller.go:444-468 | The hash is fixed as long as program, backend and spec are and nothing changes that a watch reports, in whatever order maps are walked |
| DriftRepair.RepairMayNotRun | controllers/drift.go:55-60 | Two reconciles, in either flow, after which drift was found and reads as repaired though no Job has run |
| DriftRepair.RepairRunsIff | controllers/drift.go:55-60 | After such a repair was triggered, the next reconcile that passes preparation creates an apply Job if and only if the last one is gone and the hash may still be applied (approval automatic, or the hash approved and its window open); a finished Job counts as the repair, and the drift mark is cleared |
| DriftRepair.OnlyDriftTriggers | controllers/drift.go:55-60 | Only found drift under keepInSync clears the applied hash of the current state, and that reconcile deletes no other Job |
| DriftRepair.ShownChangesAreDrift | controllers/drift.go:117-133 | A readable drift log that shows a line of counts is reported as drift |
| DriftChecks.CheckDecides | controllers/drift.go:49-62 | Through the whole reconcile: a finished, readable drift check sets or clears the mark by its log, tells success if there is no drift, notes the time, deletes its Job, and forgets the applied hash if and only if there is drift under keepInSync |
| DriftChecks.ShowsDriftExactly | controllers/helpers.go:142-157 | A log shows drift if and only if the first of its lines that tells of a plan or of no changes tells of a plan |
| RulesHold.ReconcileFollowsRules | controllers/tofuproject_controller.go:69-121 | For every state, project and observation: each field of the project, each Job, the `-tf` ConfigMap and each pull request after a reconcile is what its rule says, and nothing else of the state changes |
| QueueRules.AnswerFollowsRules | controllers/tofuproject_controller.go:105-121 | What every reconcile hands back to the work queue, TTL bound included, is what the rules say |
| QueueRules.ActiveJobsAreWatched | controllers/tofuproject_controller.go:543-586 | While a Job of the project other than a drift Job is active, a project that follows its spec and resolves is looked at again within five seconds |
| QueueRules.EndOfLifeIsSeen | controllers/tofuproject_controller.go:110-118 | A project past preparation is looked at again before its TTL ends |
| Lifetimes.DeletesExactlyWhenOutlived | controllers/tofuproject_controller.go:144-159 | A reconcile of a project not yet deleted deletes it if and only if it has a TTL and now is after creation plus TTL |
| Lifetimes.DeletionHasACause | controllers/tofuproject_controller.go:144-159 | In every run, a step makes a project deleted if and only if somebody asks for it or it is a reconcile that finds the TTL passed |
| Lifetimes.UnlocksExactly | controllers/tofuproject_controller.go:197-290 | A reconcile of a live project with the annotation creates the force-unlock Job iff the ConfigMap is there and the Job is not; clears the annotation iff the ConfigMap is missing or the Job has ended; and leaves no lock mark iff there was none, the ConfigMap is missing or the Job succeeded |
| Lifetimes.UnlockEndsFirst | controllers/tofuproject_controller.go:264-285 | In every run, with the ConfigMap there, a reconcile clears the annotation only after a force-unlock Job created while the annotation was set has ended |
| Lifetimes.StartsExactly | controllers/tofuproject_controller.go:614-642 | A reconcile creates a Job if and only if it is the project's, there is none of its name, and the rule of its kind asks for it: plan, apply of spec or pin, drift check, force-unlock or destroy |
| Lifetimes.EndsActiveJobExactly | controllers/tofuproject_controller.go:1161-1171 | A reconcile deletes an active Job if and only if a force-unlock sweeps it away or it is the stuck destroy Job of a deletion that may destroy |
| Lifetimes.StuckApplyStays | controllers/tofuproject_controller.go:567-583 | A state with a resource timeout and an apply Job stuck beyond it, in which the reconcile leaves the Job active |
| Recording.RecordsApply | controllers/tofuproject_controller.go:645-679 | In both flows, through the whole reconcile: once the hash may be applied and its Job has succeeded, phase, hash, retry count, marks, time of the drift check, pending plan and pull request, and outputs are these, and no Job is touched |
| Recording.RecordsPinnedApply | controllers/revision.go:301-321 | The same for the pinned revision, which leaves the lock mark and the plan alone |
| Recording.RetriesExactly | controllers/tofuproject_controller.go:680-711 | A failed apply is deleted and counted if and only if fewer retries than allowed were made; else the phase tells whether its log names a state lock |
| Recording.OutputsHaveOrigin | controllers/tofuproject_controller.go:672-674 | In every run from a start without outputs, those of a project were printed by an apply whose Job had succeeded when they were recorded, and have stood since |
| Recording.ParamsComeFromApplies | controllers/params.go:92-130 | In every such run, a parameter resolved from a dependency has the value that a recorded apply of the upstream project printed, not replaced since |
| Recording.ResolvesExactly | controllers/params.go:60-130 | Parameters resolve if and only if every reference exists and every upstream project is there, has succeeded and has the outputs taken; and fail for good if and only if a reference is missing |
| Moves.ReconcileMoves | controllers/tofuproject_controller.go:69-121 | Every reconcile of a stored project settles it and makes exactly one guarded move, and writes nothing but that |
| Moves.ReconcileIsLocal | controllers/tofuproject_controller.go:69-121 | A reconcile leaves other projects, their Jobs and their ConfigMaps as they were, never changes a Job that stays, and starts Jobs active |
| Moves.NotEarlyMeansInFlow | controllers/tofuproject_controller.go:305-381 | Past preparation every upstream project is Succeeded, the lock is free and the `-tf` ConfigMap exists |
| Moves.ProceedingIsMain | controllers/tofuproject_controller.go:94-120 | Past lifecycle and preparation a reconcile does what its flow does and waits as long, or until the TTL ends |
| Moves.TakenUpstreamsSucceeded | controllers/params.go:92-116 | Dependencies resolve only if every upstream project exists and is Succeeded |
| Moves.LockMeansFree | controllers/tofuproject_controller.go:543-586 | The lock lets pass if and only if nothing active holds it, and holding a project back changes only its phase |
| Moves.DestroyMoves | controllers/tofuproject_controller.go:1113-1217 | Deletion waits, starts or drops the destroy Job, or releases the finalizer, each under its guard |
| Moves.UnlockMoves | controllers/tofuproject_controller.go:221-290 | Force-unlock makes only such moves; it starts its Job, and clears annotation and lock mark, exactly under the cited conditions |
| Moves.PinMoves | controllers/revision.go:165-202 | A pinned project is applied only for a stored snapshot that is not the last applied one, under the free lock and with its ConfigMap restored |
| Pins.PinStartsOnlyItsSnapshot | controllers/revision.go:165-202 | While a revision is pinned, every Job created, beside those of deletion and force-unlock, is the apply Job of that revision, which is stored, has a snapshot and is not the last applied one |
| Pins.FailedRevisionStartsNothing | controllers/revision.go:229-234 | A failed revision, whatever files it was recorded with, never leads to a Job of the pin |
| Moves.UnfinishedMoves | controllers/tofuproject_controller.go:680-727 | A failed apply Job is deleted only for a counted retry; an active one is never met past the lock |
| Moves.ApprovedMoves | controllers/tofuproject_controller.go:824-839 | The approved hash is applied, retried or recorded only while its window is open |
| Moves.AutoApplyMoves | controllers/tofuproject_controller.go:645-727 | The automatic flow treats a finished apply alike; the recorded status is given field by field |
| Moves.DriftMoves | controllers/drift.go:19-106 | A drift Job is started only if there is none, and only finished ones are deleted |
| Moves.DriftJobReads | controllers/drift.go:49-73 | A finished drift Job is deleted, touches nothing but drift marks, and clears the applied hash only for found drift under keepInSync |
| Moves.PullRequestMoves | controllers/github.go:411-469 | A polled pull request merges, rejects or leaves the plan that is pending |
| Moves.SuccessMoves | controllers/tofuproject_controller.go:903-945 | A succeeded plan becomes pending for the current hash; it approves itself exactly when it is small, and opens a pull request only in that mode |
| Moves.PlanUnfinishedMoves | controllers/tofuproject_controller.go:859-900 | A failed plan changes no approval, and an active plan Job is deleted only when it is stuck |
| Moves.PendingMoves | controllers/tofuproject_controller.go:748-790 | The plan flow applies only the approved hash, polls only the bound pull request and plans only what is neither |
| Moves.AutoMoves | controllers/tofuproject_controller.go:614-642 | The automatic flow makes only such moves too |
| Moves.PlanFlowMoves | controllers/tofuproject_controller.go:735-790 | The plan flow settles a stale plan and makes one such move |
| Moves.LiveMoves | controllers/tofuproject_controller.go:144-192 | A live project expires, is force-unlocked, suspended, pinned or goes on, always by one such move, and is deleted by it if and only if its TTL has passed |
| Moves.InvalidatedSettles | controllers/tofuproject_controller.go:793-821 | Dropping a stale plan clears plan, pull request and foreign approval, and nothing the flow depends on |
| Moves.StartedIsNew | controllers/tofuproject_controller.go:210-219 | A Job that a reconcile starts is not one it has just deleted |
| Reconciler.Controller.ReconcileRequest | controllers/tofuproject_controller.go:69-121 | The imperative reconcile, with every handler it calls, leaves the store and answers the queue exactly as the transition function says |
| Reconciler.Controller.PrepareReconcile | controllers/tofuproject_controller.go:305-381 | Goes on exactly when the program is valid, parameters resolve and the lock is free; the ConfigMap then exists |
| Reconciler.Controller.CheckJobLock | controllers/tofuproject_controller.go:543-586 | Locked if and only if an active Job holds the namespace-wide or the per-project lock; the loop stops at the first one |
| Reconciler.Controller.HasActiveNamespaceJobs | controllers/helpers.go:601-617 | True if and only if some listed Job of the namespace is active |
| Reconciler.Controller.CheckWindow | controllers/tofuproject_controller.go:825-836 | Waits if and only if a schedule is set and its window is closed, until its least later fire |
| Reconciler.Controller.CloseStaleApprovalPR | controllers/github.go:472-491 | No other pull request is touched and no merge is made or undone; the stale one is no longer open if GitHub answers |
| Reconciler.Controller.DeleteActiveJobs | controllers/tofuproject_controller.go:203-219 | The loop deletes exactly the project's active Jobs other than the force-unlock Job, in whatever order they are listed |
| Protocol.FirstDriftIsListed | controllers/drift.go:37-73 | The first drift Job found is listed and the project's own, and none is found only if there is none |
| ParamLaws.EffectiveParamsObeyLayering | controllers/params.go:60-129 | Resolution succeeds exactly when every layer can be read; the keys are the union of all layers and each value comes from the last definer: valuesFrom, paramFrom, paramBindings (Secret over ConfigMap in each), inline params, dependency outputs |
| ParamLaws.OverlayTakesLastDefiner | controllers/params.go:174-199 | Layers written in turn leave each key with its last definer |
| ParamLaws.TakeDependenciesOverlays | controllers/params.go:92-129 | The loop over dependencies adds exactly their layers, and stops exactly when one upstream project or output is not ready |
| ParamLaws.IterationOrderNeverMatters | controllers/params.go:76-143 | Without conflicting outputs, params, hash string and failure are the same for every map iteration order |
| ParamLaws.OrderMattersIffConflict | controllers/params.go:118-129 | The params of one dependency depend on the order if and only if it sends two different values to one param |
| ParamLaws.ExternalHashForgetsOrder | controllers/params.go:199-207 | The hash string of external params is the same for every order in which the map is walked |
| DesiredHash.HashInputForgetsOrder | controllers/tofuproject_controller.go:444-468 | For every two iteration orders, and desired states that differ in one field at most, the digested strings are equal if and only if the mode does not read that field or it is equal |
| DesiredHash.InlineFieldsShow | controllers/tofuproject_controller.go:449-452 | With all else equal, an inline program, its providers, the backend and the workspace each change the digested string if and only if they differ |
| DesiredHash.GitFieldsShow | controllers/tofuproject_controller.go:446-448 | The same for URL, ref and path of a git source, backend and workspace; providers and inline program then never do |
| DesiredHash.OptionsShow | controllers/tofuproject_controller.go:453-465 | In both modes the same for dependency hash, ignored providers, additional providers and validation, set or not |
| DesiredHash.ParamsShow | controllers/tofuproject_controller.go:336-342 | In both modes the same for the parameters, as far as their JSON differs |
| DesiredHash.EditChangesTheHash | controllers/tofuproject_controller.go:444-468 | Between two reconciles with nothing watched changed and one field edited, the hash stays if and only if the mode does not read the field, as far as digests differ |
| DesiredHash.TwoEditsMayCancel | controllers/tofuproject_controller.go:446-452 | Text moved from the end of the providers to the start of the backend leaves the digested string as it was |
| HashStrings.ExternalHashShowsValue | controllers/params.go:199-207 | A changed value of one external param changes their hash string, for keys without '=' |
| HashStrings.EqualsSignsMayCancel | controllers/params.go:199-207 | Two sets of external params that differ in one value and have the same hash string, because a key has '=' |
| HashStrings.OneValueShows | controllers/params.go:133-135 | A changed value of one dependency output changes the sorted and joined parts, if its param has no '=' and no other part |
| HashStrings.HashStringIsOfAllParts | controllers/params.go:118-143 | The combined hash string covers every external param and every output taken from every dependency |
| HashStrings.CombinedHashShows | controllers/params.go:136-143 | Each half of the combined hash string shows in it |
| References.ExternalParamsAreTheReferences | controllers/params.go:147-273 | External params can be read if and only if every ConfigMap, Secret and key referred to exists, and are these laid over each other in order: valuesFrom, paramFrom, paramBindings, the Secret over the ConfigMap, each under its own namespace rule |
| References.WatchedIsNeeded | controllers/params.go:22-53 | Everything that a watch predicate reports is read: without it nothing resolves |
| ParamLaws.WatchesCoverResolution | controllers/params.go:22-53 | Stores that agree on everything the watch predicates report resolve alike, failures included |
| ParamLaws.ExternalLayersAgree | controllers/params.go:333-383 | ConfigMaps and Secrets that the reference predicates do not report are not read |
| ParamLaws.DependenciesAgree | controllers/params.go:22-53 | Upstream projects that the dependency match does not report are not read |
| ParamResolver.ResolveDependencies | controllers/params.go:60-143 | The loops compute params and combined hash string, wait or fail, as specified |
| ParamResolver.ResolveExternalParams | controllers/params.go:174-207 | The external params are the three kinds of sources overlaid in order, with their hash string |
| ParamResolver.ResolveValuesFromSources | controllers/params.go:147-170 | The valuesFrom loop overlays every entry in order and fails exactly when one is missing |
| ParamResolver.ResolveParamFromSources | controllers/params.go:211-241 | The same for paramFrom |
| ParamResolver.ResolveParamBindingSources | controllers/params.go:245-273 | The same for paramBindings, over what is resolved already |
| ParamResolver.HashEntries | controllers/params.go:199-207 | The hash string is the sorted entries, whatever order they come in |
| ParamResolver.CopyOutputs | controllers/params.go:118-129 | The loop over one dependency's outputs takes them in the given order and stops at the first missing one |
| ParamResolver.CopyUpstreams | controllers/params.go:92-130 | The loop over dependencies stops at the first that is not ready |
| Params.SortForgetsOrder | controllers/params.go:133-135 | Sorting forgets the order of what is sorted |
| Params.SortSorts | controllers/params.go:133-135 | Sorting sorts and keeps every element |
| RevisionHistory.UnpinnedStoreIsTheNewest | controllers/revision.go:88-130 | While nothing is pinned, whatever an earlier project of the name has left: above those numbers the store is exactly the newest min(limit, created) revisions, and altogether once limit numbers have passed them |
| RevisionHistory.FreshStoreIsTheNewest | controllers/revision.go:88-130 | Without leftovers the store is exactly the newest min(limit, created) revisions |
| RevisionHistory.ApplyKeepsTheNewest | controllers/revision.go:141-160 | One recorded apply takes the next number and leaves exactly the newest ones and the pin, among the numbers above leftovers at once and among all of them once limit numbers have passed |
| RevisionHistory.StoredIffFreeAndKept | controllers/revision.go:141-160 | A finished apply is stored if and only if its number is free and it is pinned, or no limit is set, or fewer than limit stored revisions are newer |
| RevisionHistory.NewerLeftoverPushesOut | controllers/revision.go:113-127 | A newer leftover at limit 1: the first revision is stored and deleted in the same call |
| RevisionHistory.EqualLeftoverBlocks | controllers/revision.go:31-76 | A leftover of the same number: nothing is stored and the number is used up |
| RevisionHistory.PinnedRevisionStays | controllers/revision.go:113-127 | In any store, a revision present when pinned stays while it is pinned |
| RevisionHistory.RevisionsAreImmutable | controllers/revision.go:141-160 | In any store, a number once given is never given again and what is stored under it never changes |
| RevisionHistory.StoredIsNeverOverwritten | controllers/revision.go:141-160 | In any store and at every event, what stays stored stays as it is and the counter never falls |
| RevisionHistory.RunStaysRanked | controllers/revision.go:88-130 | In every history the newest numbers above leftovers are stored and none exceeds the counter |
| RevisionHistory.PinRestoresUnlessLastApplied | controllers/revision.go:165-177 | A reconcile of a pinned recorded revision leaves the recorded `-tf` data, key for key, if and only if the pinned hash is not the last applied one or the data is there already; a failed revision has no snapshot and changes nothing |
| RevisionHistory.PinningAnotherRestores | controllers/revision.go:165-177 | In every history, after another pin was applied a pin restores its own files; it does not only if number and hash are those applied last |
| RevisionHistory.PinningAgainMayKeepOtherFiles | controllers/revision.go:173-175 | A history in which a revision is pinned again and the files written in between stay |
| Revisions.SnapshotRoundTrip | controllers/revision.go:43-59 | Snapshot and restore undo each other with no metadata key leaking in; a failed revision yields nothing |
| Revisions.MetadataIsNoSnapshot | controllers/revision.go:43-59 | No metadata key looks like a snapshot key |
| Revisions.RecordRoundTrip | controllers/revision.go:43-53 | Number and metadata of a revision read back, whatever files are stored beside them |
| Revisions.PinHashShows | controllers/revision.go:133-137 | Pinned hashes are equal if and only if number and recorded hash are, as far as digests differ |
| RevisionStore.Store.CleanupOldRevisions | controllers/revision.go:88-130 | Listing, sorting in place and the counted loop delete exactly those beyond the limit, the pin excepted |
| RevisionStore.CleanupLeavesLimitOrOneMore | controllers/revision.go:113-127 | A cleanup leaves exactly the limit, or one more if and only if it spares an older pin |
| RevisionStore.OldestAreDeleted | controllers/revision.go:113-127 | Deleting the front of the sorted list is keeping those with fewer than limit newer ones |
| RevisionStore.Store.CreateRevision | controllers/revision.go:31-76 | Stores metadata and snapshot under the current number if that name is free, and else nothing |
| RevisionStore.Store.CreateRevisionFromCM | controllers/revision.go:141-160 | Counts, stores and cleans up; without a ConfigMap does nothing; after a failed creation does not clean up |
| RevisionStore.Store.LoadPinnedSnapshot | controllers/revision.go:206-237 | Missing, empty or the snapshot with its hash |
| RevisionStore.Store.RestorePinned | controllers/revision.go:165-177 | The pinned snapshot replaces the `-tf` data and the reconcile goes on, unless there is none or its hash is the last applied one |
| RevisionStore.Store.DeleteFront | controllers/revision.go:116-127 | The counted loop deletes exactly the front of the sorted list, the pin excepted |
| RevisionStore.AddSnapshot | controllers/revision.go:54-59 | The loop adds every file under the prefix |
| RevisionStore.ReadSnapshot | controllers/revision.go:222-227 | The loop keeps exactly the entries under the prefix, trimmed |
| ApplyWindow.IsWithinApplyWindow | controllers/helpers.go:641-680 | The search ends and is true exactly when some fire f has f <= now < f + window, with the configured window, or 3,600,000,000,000 ns where none or none positive is configured; the second result is the least fire after now |
| ApplyWindow.WindowIsAsConfigured | controllers/helpers.go:652-658 | The same of the definition that the flows use, for a configured window and for the default |
| ApplyWindow.NewestFireDecides | controllers/helpers.go:658-677 | The bounded look-back misses no open window |
| ApplyWindow.NoWindowMissed | controllers/helpers.go:664-679 | After a closed check nothing opens before the start it names, and from that start the window is open throughout |
| ApplyWindow.NextIsLeastFire | controllers/helpers.go:662-671 | The schedule's next time is its least later fire |
| PlanLog.PlanLogRoundTrip | controllers/tofuproject_controller.go:908-919 | A printed plan log splits into the text and JSON it was printed from, up to outer white space, though the marker overlaps itself |
| PlanLog.MarkerFound | controllers/render.go:82-90 | The last marker occurrence is the printed one |
| PlanLog.ThresholdDecidesOnThePrintedCounts | controllers/tofuproject_controller.go:949-956 | From printed counts to the decision: the threshold is compared with their sum while it fits in 32 bits |
| PlanLog.CountsOfPlanLine | controllers/helpers.go:160-180 | The counts of a plan line read back |
| PlanLog.TotalIsSumIffItFits | controllers/helpers.go:172-179 | The total is the sum if and only if the sum is at most 2^31 - 1 |
| PlanLog.TotalWrapsAround | controllers/helpers.go:172-179 | The first sum that does not fit gives the most negative total |
| PlanLog.SummaryOfTrimmed | controllers/helpers.go:142-157 | Trimming a log does not change its summary |
| ShellWord.ShellEscapeRoundTrip | controllers/render.go:216-220 | A shell reads the quoted string back as one word equal to it, with the rest of the command untouched, if and only if it has no NUL |
| ShellWord.WorkspaceStepReadsBack | controllers/render.go:21-57 | The workspace command line is read as its words with the workspace name intact |
| BlockTrees.StripRemovesTheBlocks | controllers/render.go:208-214 | On a printed block tree with no block of the keyword inside another, the pass equals printing the tree without those blocks if and only if each one-line block of the keyword is followed in its sequence, past other one-line ones, by one over several lines, or at the top of the file by nothing |
| BlockTrees.StrippedFileText | controllers/render.go:196-214 | The same for the text of the file, read into lines and written back |
| BlockTrees.MultilineStripsUnlessNested | controllers/render.go:208-214 | On a printed block tree without one-line blocks of the keyword, the pass equals the removal if and only if none is inside another |
| BlockTrees.InlineTakesTheNextBlock | controllers/render.go:208-214 | After any one-line block of the keyword a whole other block is gone, with nothing nested |
| BlockTrees.InlineTakesTheClosingLine | controllers/render.go:208-214 | As the last node of another block's body it takes that block's closing line |
| BlockTrees.NestedLeavesTheClosingLine | controllers/render.go:208-214 | Inside another block of the keyword it leaves the outer closing line behind |
| BlockTrees.BothFaultsMayCancel | controllers/render.go:208-214 | A tree with both faults on which the pass happens to equal the removal |
| BlockTrees.OrdinaryFilesLoseLines | controllers/render.go:196-214 | A file with an empty provider and one resource comes out empty; a terraform block with an empty backend loses its closing brace |
| BlockStrip.StripLeavesNoHeader | controllers/render.go:208-214 | On any input no header line of the keyword is left, and a second pass changes nothing |
| BlockStrip.HeaderIsTheRegexps | controllers/render.go:208-214 | The header test accepts exactly what the two regular expressions match |
| BlockStrip.Strip | controllers/render.go:208-214 | The line loop over skip and depth computes the specified pass |

## Left out

- GitHub's HTTP interface, webhooks, log streaming, metrics, RBAC, service accounts, cache volumes, pod specs, leader
  election and the kubectl plugin other than its approve step.
- SHA-256, JSON encoding, cron parsing and duration parsing: hashes, rendered files, schedules and durations are inputs.
  The digest of the desired state is an input of a reconcile; `ParamLaws.HashInput` models the string that is digested.
- API-server errors, conflicts and stale caches, the response of `Update` overwriting the status in memory, and the key
  validation of ConfigMaps. Every write succeeds and saves the whole project.
- Display-only status: messages, Job names, plan output, blast radius, conditions, expiry time, sync status. The parsing
  behind the plan output is modelled in `PlanLog`, not its storage in the status.
- `setCondition` and `updateReadyCondition`: they only translate the phase for display.
- The contents of the `-tf` ConfigMap in the reconcile protocol, where only its existence matters. Contents, revisions and
  snapshots are in the revision modules; the protocol is given the project's revision ConfigMaps as they are at the time and
  finds the pinned snapshot there.
- Premises the code needs: a schedule always has a later fire, the revision history limit is not negative, the revision
  counter does not overflow 32 bits, no destroy Job is left over from an earlier project of the same name.
- A user removing the finalizer by hand, and a project of the same name created while the old one's Jobs are collected,
  beyond what `Registered` and `Removed` events allow.
- The approve command reads the pending plan hash and writes the annotation in one step; in the plugin they are two requests.
- The text of an error in reading a Job's log is taken to show neither a summary nor a lock error.
- Job logs are strings of one-byte characters, and white space is the ASCII white space of the trimming functions.
- Exclusion.ExclusiveAlways: does not cover destroy Jobs, because the code creates them without looking at the lock.
- Approval.AppliesOnlyWhatWasApproved: says nothing of pinned revisions and automatic approval, which apply without a plan.
- BoundedWork.WorkIsBounded: does not count drift, force-unlock and destroy Jobs, because its premises leave out drift
  checks and every deletion of Jobs by others (a force-unlock among them), and a deletion of the project may add one
  destroy Job.
- DesiredHash.EditChangesTheHash: says nothing of two fields edited at once and of a switch between git and inline, because
  the string is then not told apart in general.
