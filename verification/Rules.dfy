/**
 What a reconcile changes, field by field. The controller has a branch for each situation; here is one rule for each
 thing it writes, stated over the stored state and the observation alone. `ReconcileRules` proves that both agree.
 */
module Rules {
  import opened Wrappers
  import opened PlanLog
  import opened ApplyWindow
  import opened Api
  import opened Protocol
  import Params
  import Revisions

  // ----- what a reconcile is about -----

  /** Neither deleted nor past the end of its life. */
  predicate Lives(p: Project, now: int) {
    !p.deleting && !Outlived(p, now)
  }

  predicate Outlived(p: Project, now: int) {
    p.spec.ttl > 0 && now > p.created + p.spec.ttl
  }

  predicate Unlocks(p: Project, o: Obs) {
    Lives(p, o.now) && p.forceUnlock
  }

  predicate Pinned(p: Project, o: Obs) {
    Lives(p, o.now) && !p.forceUnlock && !p.spec.suspend && p.spec.pinnedRevision > 0
  }

  /** The project follows its spec: nothing above holds it. */
  predicate Follows(p: Project, o: Obs) {
    Lives(p, o.now) && !p.forceUnlock && !p.spec.suspend && p.spec.pinnedRevision <= 0
  }

  ghost function Resolution(w: World, id: Key, o: Obs): Params.Resolution
    requires ValidObs(w, id, o) && id in w.projects
  {
    Params.Resolve(o.sources, id.ns, Upstreams(w.projects), w.projects[id].spec.inputs, o.orders)
  }

  /** No active Job holds the lock: one of the namespace under a shared cache, else one of the project but drift. */
  ghost predicate Unblocked(w: World, id: Key)
    requires id in w.projects
  {
    forall j :: j in w.jobs && w.jobs[j].outcome == Active ==>
      if w.projects[id].spec.sharedCache then j.project.ns != id.ns else j.project != id || j.kind.Drift?
  }

  /** The project is steered by its desired state. */
  ghost predicate Steered(w: World, id: Key, o: Obs)
    requires ValidObs(w, id, o) && id in w.projects
  {
    Follows(w.projects[id], o) && o.program && Resolution(w, id, o).Resolved? && Unblocked(w, id)
  }

  predicate HasSnapshot(p: Project, o: Obs) {
    p.spec.pinnedRevision > 0 && Revisions.LoadSnapshot(o.revisions, p.spec.pinnedRevision).Snapshot?
  }

  /** The pinned revision is to be applied. */
  predicate Repins(p: Project, o: Obs) {
    Pinned(p, o) && HasSnapshot(p, o) && p.status.lastAppliedHash != o.pinHash
  }

  // ----- applying the desired state -----

  /** A window is open, or there is no schedule. A window lasts an hour unless the spec says otherwise. */
  ghost predicate WindowOpen(spec: Spec, now: int) {
    spec.applySchedule.Some? ==>
      && var s := spec.applySchedule.value;
      && s.cron.Some?
      && var length := if s.window.Some? && s.window.value > 0 then s.window.value else 3_600_000_000_000;
      exists f :: IsFire(s.cron.value, f) && f <= now < f + length
  }

  ghost predicate MayRun(w: World, id: Key, o: Obs)
    requires ValidObs(w, id, o) && id in w.projects
  {
    && Steered(w, id, o)
    && var p := w.projects[id];
    && p.status.lastAppliedHash != o.hash
    && (p.spec.autoApprove || (p.approvedHash == o.hash && WindowOpen(p.spec, o.now)))
  }

  predicate JobIs(w: World, j: JobId, outcome: Outcome) {
    j in w.jobs && w.jobs[j].outcome == outcome
  }

  function ApplyJob(id: Key, o: Obs): JobId {
    JobId(id, Apply(o.hash[..8]))
  }

  function PinJob(id: Key, o: Obs): JobId {
    JobId(id, Apply(o.pinHash[..8]))
  }

  function PlanJob(id: Key, o: Obs): JobId {
    JobId(id, Plan(o.hash[..8]))
  }

  /** A succeeded apply is recorded. */
  ghost predicate Records(w: World, id: Key, o: Obs)
    requires ValidObs(w, id, o) && id in w.projects
  {
    MayRun(w, id, o) && JobIs(w, ApplyJob(id, o), Success)
  }

  predicate RetriesLeft(p: Project) {
    p.spec.retry.Some? && p.status.retryCount < p.spec.retry.value.maxRetries
  }

  /** A failed apply is tried again. */
  ghost predicate Retries(w: World, id: Key, o: Obs)
    requires ValidObs(w, id, o) && id in w.projects
  {
    MayRun(w, id, o) && JobIs(w, ApplyJob(id, o), Failure) && RetriesLeft(w.projects[id])
  }

  ghost predicate GivesUp(w: World, id: Key, o: Obs)
    requires ValidObs(w, id, o) && id in w.projects
  {
    MayRun(w, id, o) && JobIs(w, ApplyJob(id, o), Failure) && !RetriesLeft(w.projects[id])
  }

  /** A succeeded apply of the pinned revision is recorded. */
  ghost predicate RecordsPin(w: World, id: Key, o: Obs)
    requires ValidObs(w, id, o) && id in w.projects
  {
    Repins(w.projects[id], o) && Unblocked(w, id) && JobIs(w, PinJob(id, o), Success)
  }

  // ----- planning and approval -----

  /** The review flow has a hash that is not applied yet. */
  ghost predicate Reviews(w: World, id: Key, o: Obs)
    requires ValidObs(w, id, o) && id in w.projects
  {
    && Steered(w, id, o)
    && !w.projects[id].spec.autoApprove && w.projects[id].status.lastAppliedHash != o.hash
  }

  /** The pending plan is for another hash and is dropped. */
  ghost predicate Drops(w: World, id: Key, o: Obs)
    requires ValidObs(w, id, o) && id in w.projects
  {
    && Reviews(w, id, o)
    && w.projects[id].status.pendingPlanHash != "" && w.projects[id].status.pendingPlanHash != o.hash
  }

  function PendingPull(p: Project): PRId {
    PRId(p.spec.repo, p.status.pendingPR)
  }

  /** The pull request of the pending plan is looked at. */
  ghost predicate Polls(w: World, id: Key, o: Obs)
    requires ValidObs(w, id, o) && id in w.projects
  {
    && Reviews(w, id, o)
    && var p := w.projects[id];
    p.approvedHash != o.hash && p.spec.githubPR && p.status.pendingPR > 0 && p.status.pendingPlanHash == o.hash
  }

  ghost predicate Finds(w: World, id: Key, o: Obs, state: PRState)
    requires ValidObs(w, id, o) && id in w.projects
  {
    && Polls(w, id, o) && o.prAnswers
    && PendingPull(w.projects[id]) in w.prs && w.prs[PendingPull(w.projects[id])].state == state
  }

  /** The plan of the hash is made or read: nothing is approved, polled or awaited. */
  ghost predicate Plans(w: World, id: Key, o: Obs)
    requires ValidObs(w, id, o) && id in w.projects
  {
    && Reviews(w, id, o) && !Polls(w, id, o)
    && var p := w.projects[id];
    && p.approvedHash != o.hash
    && !(p.status.phase == WaitingApproval && p.status.pendingPlanHash == o.hash)
  }

  /** A succeeded plan becomes the pending one. */
  ghost predicate Reports(w: World, id: Key, o: Obs)
    requires ValidObs(w, id, o) && id in w.projects
  {
    Plans(w, id, o) && JobIs(w, PlanJob(id, o), Success)
  }

  /** The reported plan is small enough to approve itself. */
  ghost predicate SelfApproves(w: World, id: Key, o: Obs)
    requires ValidObs(w, id, o) && id in w.projects
  {
    && Reports(w, id, o)
    && var radius := ReadPlan(if o.readable then w.jobs[PlanJob(id, o)].logs else "").radius;
    && var threshold := w.projects[id].spec.maxBlastRadius;
    threshold.Some? && radius.Some? && radius.value.total <= threshold.value
  }

  ghost predicate AsksReview(w: World, id: Key, o: Obs)
    requires ValidObs(w, id, o) && id in w.projects
  {
    Reports(w, id, o) && !SelfApproves(w, id, o) && w.projects[id].spec.githubPR
  }

  // ----- drift checks -----

  /** The hash is applied and a drift check is due. */
  ghost predicate ChecksDrift(w: World, id: Key, o: Obs)
    requires ValidObs(w, id, o) && id in w.projects
  {
    && Steered(w, id, o)
    && var p := w.projects[id];
    && p.status.lastAppliedHash == o.hash && p.spec.driftInterval.Some?
    && (p.status.lastDriftCheck.Some? ==> o.now - p.status.lastDriftCheck.value >= p.spec.driftInterval.value)
  }

  /** The drift Job that the check finds first has finished so. */
  ghost predicate DriftEnds(w: World, id: Key, o: Obs, outcome: Outcome)
    requires ValidObs(w, id, o) && id in w.projects
  {
    && ChecksDrift(w, id, o)
    && FirstDrift(o.listing, id).Some? && JobIs(w, FirstDrift(o.listing, id).value, outcome)
  }

  ghost predicate ReadsDrift(w: World, id: Key, o: Obs)
    requires ValidObs(w, id, o) && id in w.projects
  {
    DriftEnds(w, id, o, Success) && o.readable
  }

  predicate ShowsDrift(logs: string) {
    ExtractPlanSummary(logs) != "" && ExtractPlanSummary(logs) != "No changes."
  }

  ghost predicate Drifted(w: World, id: Key, o: Obs)
    requires ValidObs(w, id, o) && id in w.projects
  {
    if ReadsDrift(w, id, o) then ShowsDrift(w.jobs[FirstDrift(o.listing, id).value].logs)
    else w.projects[id].status.driftDetected
  }

  /** The applied hash is forgotten, for the next reconcile to apply it anew. */
  ghost predicate Repairs(w: World, id: Key, o: Obs)
    requires ValidObs(w, id, o) && id in w.projects
  {
    DriftEnds(w, id, o, Success) && w.projects[id].spec.keepInSync && Drifted(w, id, o)
  }

  // ----- deletion and force-unlock -----

  predicate Destroys(p: Project) {
    p.deleting && p.finalizer && (p.spec.deleteProtection ==> p.approvedDelete)
  }

  /** Nothing is left to destroy. */
  predicate Releases(w: World, id: Key)
    requires id in w.projects
  {
    Destroys(w.projects[id]) && (id !in w.tf || JobIs(w, JobId(id, Destroy), Success))
  }

  /** The force-unlock has done its work, or there is no state to unlock. */
  predicate UnlockSucceeds(w: World, id: Key, o: Obs)
    requires id in w.projects
  {
    Unlocks(w.projects[id], o) && (id !in w.tf || JobIs(w, JobId(id, ForceUnlock), Success))
  }

  predicate UnlockFails(w: World, id: Key, o: Obs)
    requires id in w.projects
  {
    Unlocks(w.projects[id], o) && id in w.tf && JobIs(w, JobId(id, ForceUnlock), Failure)
  }

  predicate Says(logs: string, text: string) {
    exists i :: 0 <= i <= |logs| && text <= logs[i..]
  }

  /** The log tells of a state lock. */
  predicate SaysLocked(logs: string) {
    Says(logs, "Error acquiring the state lock") || Says(logs, "Error locking state")
  }

  /** A failed apply or plan is found to have met a state lock; of a plan only the last 32 KiB are read. */
  ghost predicate MeetsLock(w: World, id: Key, o: Obs)
    requires ValidObs(w, id, o) && id in w.projects
  {
    && o.readable
    && (|| (GivesUp(w, id, o) && SaysLocked(w.jobs[ApplyJob(id, o)].logs))
        || (&& Plans(w, id, o) && JobIs(w, PlanJob(id, o), Failure)
            && var logs := w.jobs[PlanJob(id, o)].logs;
               SaysLocked(if |logs| > 32_768 then logs[|logs| - 32_768..] else logs)))
  }

  // ----- one rule for each field -----

  ghost function HashAfter(w: World, id: Key, o: Obs): string
    requires ValidObs(w, id, o) && id in w.projects
  {
    if Records(w, id, o) then o.hash
    else if RecordsPin(w, id, o) then o.pinHash
    else if Repairs(w, id, o) then ""
    else w.projects[id].status.lastAppliedHash
  }

  ghost function ApprovedAfter(w: World, id: Key, o: Obs): string
    requires ValidObs(w, id, o) && id in w.projects
  {
    if SelfApproves(w, id, o) || Finds(w, id, o, Merged) then o.hash
    else if Drops(w, id, o) && w.projects[id].approvedHash != o.hash then ""
    else w.projects[id].approvedHash
  }

  ghost function PendingAfter(w: World, id: Key, o: Obs): string
    requires ValidObs(w, id, o) && id in w.projects
  {
    if Reports(w, id, o) then o.hash
    else if || Drops(w, id, o) || Finds(w, id, o, Closed)
            || (Records(w, id, o) && !w.projects[id].spec.autoApprove) then ""
    else w.projects[id].status.pendingPlanHash
  }

  ghost function NumberAfter(w: World, id: Key, o: Obs): nat
    requires ValidObs(w, id, o) && id in w.projects
  {
    var p := w.projects[id];
    if AsksReview(w, id, o) && o.createdPR.Some? then o.createdPR.value
    else if || (Drops(w, id, o) && p.spec.githubPR) || Finds(w, id, o, Merged) || Finds(w, id, o, Closed)
            || (Records(w, id, o) && !p.spec.autoApprove) then 0
    else p.status.pendingPR
  }

  ghost function RetriesAfter(w: World, id: Key, o: Obs): int
    requires ValidObs(w, id, o) && id in w.projects
  {
    if Records(w, id, o) || RecordsPin(w, id, o) then 0
    else w.projects[id].status.retryCount + if Retries(w, id, o) then 1 else 0
  }

  ghost function OutputsAfter(w: World, id: Key, o: Obs): map<string, string>
    requires ValidObs(w, id, o) && id in w.projects
  {
    if (Records(w, id, o) || RecordsPin(w, id, o)) && o.readable && o.outputs.Some? then o.outputs.value
    else w.projects[id].status.outputs
  }

  ghost function CheckedAfter(w: World, id: Key, o: Obs): Option<int>
    requires ValidObs(w, id, o) && id in w.projects
  {
    if || ReadsDrift(w, id, o) || DriftEnds(w, id, o, Failure)
       || (Records(w, id, o) && w.projects[id].spec.driftInterval.Some?) then Some(o.now)
    else w.projects[id].status.lastDriftCheck
  }

  ghost predicate DriftAfter(w: World, id: Key, o: Obs)
    requires ValidObs(w, id, o) && id in w.projects
  {
    !Records(w, id, o) && !RecordsPin(w, id, o) && Drifted(w, id, o)
  }

  ghost predicate LockedAfter(w: World, id: Key, o: Obs)
    requires ValidObs(w, id, o) && id in w.projects
  {
    !Records(w, id, o) && !UnlockSucceeds(w, id, o) && (w.projects[id].status.stateLocked || MeetsLock(w, id, o))
  }

  predicate AnnotatedAfter(w: World, id: Key, o: Obs)
    requires id in w.projects
  {
    w.projects[id].forceUnlock && !UnlockSucceeds(w, id, o) && !UnlockFails(w, id, o)
  }

  predicate DeletedAfter(p: Project, o: Obs) {
    p.deleting || Outlived(p, o.now)
  }

  predicate FinalizedAfter(w: World, id: Key)
    requires id in w.projects
  {
    !w.projects[id].deleting || (w.projects[id].finalizer && !Releases(w, id))
  }

  ghost function StatusAfter(w: World, id: Key, o: Obs, phase: Phase): Status
    requires ValidObs(w, id, o) && id in w.projects
  {
    Status(phase, HashAfter(w, id, o), PendingAfter(w, id, o), NumberAfter(w, id, o), RetriesAfter(w, id, o),
           OutputsAfter(w, id, o), CheckedAfter(w, id, o), DriftAfter(w, id, o), LockedAfter(w, id, o))
  }

  ghost function ProjectAfter(w: World, id: Key, o: Obs, phase: Phase): Project
    requires ValidObs(w, id, o) && id in w.projects
  {
    var p := w.projects[id];
    Project(p.spec, p.created, DeletedAfter(p, o), FinalizedAfter(w, id), ApprovedAfter(w, id, o), p.approvedDelete,
            AnnotatedAfter(w, id, o), StatusAfter(w, id, o, phase))
  }

  // ----- phases -----

  ghost function PhaseOfDeleted(w: World, id: Key, o: Obs): Phase
    requires id in w.projects
  {
    var p, j := w.projects[id], JobId(id, Destroy);
    if p.finalizer && !Destroys(p) then WaitingDeleteApproval
    else if Destroys(p) && !Releases(w, id) && j !in w.jobs then Destroying
    else if Destroys(p) && !Releases(w, id) && JobIs(w, j, Failure) then DestroyFailed
    else p.status.phase
  }

  ghost function PhaseOfUnlocked(w: World, id: Key, o: Obs): Phase
    requires id in w.projects
  {
    if UnlockSucceeds(w, id, o) then NoPhase else if UnlockFails(w, id, o) then Error else ForceUnlocking
  }

  /** Of a project that is not suspended any more. */
  function Unsuspended(p: Project): Phase {
    if p.status.phase == Suspended then NoPhase else p.status.phase
  }

  function PhaseOfBlocked(p: Project): Phase {
    if p.spec.sharedCache then Queued else Running
  }

  ghost function PhaseOfPinned(w: World, id: Key, o: Obs): Phase
    requires ValidObs(w, id, o) && id in w.projects
  {
    var p := w.projects[id];
    if !HasSnapshot(p, o) then Error
    else if !Repins(p, o) then Unsuspended(p)
    else if !Unblocked(w, id) then PhaseOfBlocked(p)
    else if RecordsPin(w, id, o) then Succeeded
    else if JobIs(w, PinJob(id, o), Failure) then Error
    else Running
  }

  ghost function PhaseOfSteered(w: World, id: Key, o: Obs): Phase
    requires ValidObs(w, id, o) && id in w.projects
  {
    var p := w.projects[id];
    if Records(w, id, o) then Succeeded
    else if Retries(w, id, o) then Retrying
    else if GivesUp(w, id, o) then if MeetsLock(w, id, o) then Locked else Error
    else if MayRun(w, id, o) then Running
    else if Reviews(w, id, o) && (p.approvedHash == o.hash || SelfApproves(w, id, o)) && !WindowOpen(p.spec, o.now) then
      ScheduledApply
    else if Finds(w, id, o, Closed) then PlanRejected
    else if AsksReview(w, id, o) && o.createdPR.None? then Error
    else if Reports(w, id, o) then WaitingApproval
    else if Plans(w, id, o) && PlanJob(id, o) !in w.jobs then Planning
    else if Plans(w, id, o) then if MeetsLock(w, id, o) then Locked else Error
    else if ChecksDrift(w, id, o) && FirstDrift(o.listing, id).None? then DriftChecking
    else if ReadsDrift(w, id, o) && !Drifted(w, id, o) then Succeeded
    else Unsuspended(p)
  }

  ghost function PhaseOfFollowing(w: World, id: Key, o: Obs): Phase
    requires ValidObs(w, id, o) && id in w.projects
  {
    if !o.program || Resolution(w, id, o).Unresolvable? then Error
    else if Resolution(w, id, o).Waiting? then WaitingDependency
    else if !Unblocked(w, id) then PhaseOfBlocked(w.projects[id])
    else PhaseOfSteered(w, id, o)
  }

  ghost function PhaseAfter(w: World, id: Key, o: Obs): Phase
    requires ValidObs(w, id, o) && id in w.projects
  {
    var p := w.projects[id];
    if p.deleting then PhaseOfDeleted(w, id, o)
    else if Outlived(p, o.now) then p.status.phase
    else if p.forceUnlock then PhaseOfUnlocked(w, id, o)
    else if p.spec.suspend then Suspended
    else if p.spec.pinnedRevision > 0 then PhaseOfPinned(w, id, o)
    else PhaseOfFollowing(w, id, o)
  }

  // ----- Jobs, ConfigMap, pull requests -----

  /** The Job is to run: it is created unless there is one of its name. */
  ghost predicate Wants(w: World, id: Key, o: Obs, k: Kind)
    requires ValidObs(w, id, o) && id in w.projects
  {
    match k
    case Apply(x) =>
      || (MayRun(w, id, o) && x == o.hash[..8])
      || (Repins(w.projects[id], o) && Unblocked(w, id) && x == o.pinHash[..8])
    case Plan(x) => Plans(w, id, o) && x == o.hash[..8]
    case Drift(t) => ChecksDrift(w, id, o) && FirstDrift(o.listing, id).None? && t == o.now / 1_000_000_000
    case ForceUnlock => Unlocks(w.projects[id], o) && id in w.tf
    case Destroy => Destroys(w.projects[id]) && id in w.tf
  }

  /** The Job is deleted. */
  ghost predicate Clears(w: World, id: Key, o: Obs, j: JobId)
    requires ValidObs(w, id, o) && id in w.projects
  {
    && j.project == id
    && (|| (Unlocks(w.projects[id], o) && !j.kind.ForceUnlock? && JobIs(w, j, Active))
        || (j.kind.ForceUnlock? && id in w.tf && UnlockSucceeds(w, id, o))
        || (j == ApplyJob(id, o) && Retries(w, id, o))
        || (&& Some(j) == FirstDrift(o.listing, id)
            && (DriftEnds(w, id, o, Success) || DriftEnds(w, id, o, Failure)))
        || (&& j.kind.Destroy? && Destroys(w.projects[id]) && id in w.tf && JobIs(w, j, Active)
            && w.projects[id].spec.resourceTimeout > 0 && o.stuck))
  }

  ghost predicate JobsFollow(w: World, id: Key, o: Obs, after: Jobs)
    requires ValidObs(w, id, o) && id in w.projects
  {
    && (forall j :: j in after <==>
          if j in w.jobs then !Clears(w, id, o, j) else j.project == id && Wants(w, id, o, j.kind))
    && (forall j :: j in after ==> after[j] == if j in w.jobs then w.jobs[j] else Job(Active, ""))
  }

  /** The `-tf` ConfigMap is written. */
  ghost predicate Writes(w: World, id: Key, o: Obs)
    requires ValidObs(w, id, o) && id in w.projects
  {
    var p := w.projects[id];
    (Follows(p, o) && o.program && Resolution(w, id, o).Resolved?) || Repins(p, o)
  }

  /** The pull request of a dropped plan is closed. */
  ghost function PullsDropped(w: World, id: Key, o: Obs): map<PRId, PullRequest>
    requires ValidObs(w, id, o) && id in w.projects
  {
    var p := w.projects[id];
    var pr := PendingPull(p);
    if && Drops(w, id, o) && p.spec.githubPR && p.status.pendingPR > 0
       && o.prAnswers && pr in w.prs && w.prs[pr].state == Open
    then w.prs[pr := PullRequest(w.prs[pr].plan, Closed)] else w.prs
  }

  ghost function PullsAfter(w: World, id: Key, o: Obs): map<PRId, PullRequest>
    requires ValidObs(w, id, o) && id in w.projects
  {
    if AsksReview(w, id, o) && o.createdPR.Some? then
      PullsDropped(w, id, o)[PRId(w.projects[id].spec.repo, o.createdPR.value) :=
                               PullRequest(Some(PlanRef(id, o.hash)), Open)]
    else PullsDropped(w, id, o)
  }

  // ----- the answer to the work queue -----

  const MINUTE := 60_000_000_000
  const QUIET := Result(false, 0, false)
  const AT_ONCE := Result(true, 0, false)
  const SOON := Result(false, 5_000_000_000, false)

  function Later(d: int): Result {
    if d <= 0 then QUIET else Result(false, d, false)
  }

  /** Until the schedule's next fire. */
  function UntilWindow(s: ApplySchedule, now: int): Result {
    if s.cron.Some? then Later(s.cron.value(now) - now) else Later(MINUTE / 2)
  }

  function AnswerOfDeleted(w: World, id: Key, o: Obs): Result
    requires id in w.projects
  {
    var p, j := w.projects[id], JobId(id, Destroy);
    if !Destroys(p) || Releases(w, id) || JobIs(w, j, Failure) then QUIET
    else if JobIs(w, j, Active) && p.spec.resourceTimeout > 0 && o.stuck then Later(2_000_000_000)
    else SOON
  }

  function AnswerOfUnlocked(w: World, id: Key): Result
    requires id in w.projects
  {
    var j := JobId(id, ForceUnlock);
    if id !in w.tf || JobIs(w, j, Failure) then QUIET else if JobIs(w, j, Success) then AT_ONCE else SOON
  }

  ghost function AnswerOfPinned(w: World, id: Key, o: Obs): Result
    requires id in w.projects
  {
    if Repins(w.projects[id], o) && (!Unblocked(w, id) || PinJob(id, o) !in w.jobs) then SOON else QUIET
  }

  ghost function AnswerOfApplied(w: World, id: Key, o: Obs): Result
    requires ValidObs(w, id, o) && id in w.projects
  {
    var p := w.projects[id];
    if p.spec.driftInterval.None? then Later(p.spec.syncInterval)
    else if !ChecksDrift(w, id, o) then
      Later(p.status.lastDriftCheck.GetOr(0) + p.spec.driftInterval.value - o.now)
    else if FirstDrift(o.listing, id).None? || DriftEnds(w, id, o, Active) then SOON
    else if Repairs(w, id, o) then AT_ONCE
    else Later(p.spec.driftInterval.value)
  }

  ghost function AnswerOfRunning(w: World, id: Key, o: Obs): Result
    requires ValidObs(w, id, o) && id in w.projects
  {
    var p := w.projects[id];
    if Records(w, id, o) then if p.spec.autoApprove then QUIET else Later(p.spec.syncInterval)
    else if Retries(w, id, o) then Later(p.spec.retry.GetOr(RetryPolicy(0, 0)).delay)
    else if GivesUp(w, id, o) then QUIET
    else SOON
  }

  ghost function AnswerOfReviewed(w: World, id: Key, o: Obs): Result
    requires ValidObs(w, id, o) && id in w.projects
  {
    var p := w.projects[id];
    if (p.approvedHash == o.hash || SelfApproves(w, id, o)) && !WindowOpen(p.spec, o.now) then
      UntilWindow(p.spec.applySchedule.GetOr(ApplySchedule(None, None)), o.now)
    else if SelfApproves(w, id, o) || Finds(w, id, o, Merged) then AT_ONCE
    else if Finds(w, id, o, Closed) || (Polls(w, id, o) && p.status.phase == PlanRejected) then Later(MINUTE / 6)
    else if Polls(w, id, o) || (AsksReview(w, id, o) && o.createdPR.Some?) then Later(MINUTE / 2)
    else if Plans(w, id, o) && PlanJob(id, o) !in w.jobs then SOON
    else QUIET
  }

  /** The end of the project's life is not slept through. */
  function WithinLife(p: Project, now: int, r: Result): Result {
    var left := p.created + p.spec.ttl - now;
    if p.spec.ttl > 0 && left > 0 && (r.after == 0 || left < r.after) then Result(r.requeue, left, r.failed) else r
  }

  ghost function AnswerOfFollowing(w: World, id: Key, o: Obs): Result
    requires ValidObs(w, id, o) && id in w.projects
  {
    var p := w.projects[id];
    if !o.program || Resolution(w, id, o).Unresolvable? then Result(false, 0, true)
    else if Resolution(w, id, o).Waiting? then Later(MINUTE / 4)
    else if !Unblocked(w, id) then SOON
    else WithinLife(p, o.now,
                    if p.status.lastAppliedHash == o.hash then AnswerOfApplied(w, id, o)
                    else if MayRun(w, id, o) then AnswerOfRunning(w, id, o)
                    else AnswerOfReviewed(w, id, o))
  }

  ghost function AnswerAfter(w: World, id: Key, o: Obs): Result
    requires ValidObs(w, id, o) && id in w.projects
  {
    var p := w.projects[id];
    if p.deleting then AnswerOfDeleted(w, id, o)
    else if Outlived(p, o.now) then QUIET
    else if p.forceUnlock then AnswerOfUnlocked(w, id)
    else if p.spec.suspend then QUIET
    else if p.spec.pinnedRevision > 0 then AnswerOfPinned(w, id, o)
    else AnswerOfFollowing(w, id, o)
  }

  /** The state after a reconcile, told by the rules. */
  ghost predicate FollowsRules(w: World, id: Key, o: Obs, w': World)
    requires ValidObs(w, id, o) && id in w.projects
  {
    && w'.projects == w.projects[id := ProjectAfter(w, id, o, PhaseAfter(w, id, o))]
    && JobsFollow(w, id, o, w'.jobs)
    && w'.tf == (if Writes(w, id, o) then w.tf + {id} else w.tf)
    && w'.prs == PullsAfter(w, id, o)
  }
}
