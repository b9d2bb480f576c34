/**
 One reconcile as a function from the stored state to the stored state: the branches of
 controllers/tofuproject_controller.go, controllers/github.go, controllers/drift.go and controllers/revision.go
 that read or write project status, annotations, Jobs, the `-tf` ConfigMap or pull requests.
 */
module Protocol {
  import opened Wrappers
  import opened Text
  import opened PlanLog
  import opened ApplyWindow
  import opened Api
  import Params
  import Revisions

  const SECOND: int := 1_000_000_000

  type Jobs = map<JobId, Job>

  datatype World = World(
    projects: map<Key, Project>,
    jobs: Jobs,
    tf: set<Key>,                     // the projects whose `-tf` ConfigMap exists
    prs: map<PRId, PullRequest>)

  /** What one reconcile is told by everything outside the stored state. */
  datatype Obs = Obs(
    now: int,
    program: bool,                    // the program was found and the spec passed validation
    sources: Params.Sources,
    orders: seq<seq<string>>,         // the iteration order over each dependency's outputs
    hash: Digest,                     // the digest of the desired state
    listing: seq<JobId>,              // the order in which the API lists Jobs
    readable: bool,                   // job logs can be read
    outputs: Option<Params.Data>,     // the outputs parsed from an apply job's log
    stuck: bool,                      // the running job has been stuck on one resource for too long
    revisions: map<nat, Revisions.Data>,  // the project's revision ConfigMaps
    pinHash: Digest,                  // the digest of the pinned revision's number and recorded hash
    prAnswers: bool,                  // GitHub answers about pull requests
    createdPR: Option<nat>)           // the number of the pull request that GitHub creates on request

  /** The result handed to the work queue. */
  datatype Result = Result(requeue: bool, after: int, failed: bool)

  const DONE := Result(false, 0, false)
  const AGAIN := Result(true, 0, false)
  const FAILED := Result(false, 0, true)

  function After(d: int): Result {
    if d <= 0 then DONE else Result(false, d, false)
  }

  /** The project in memory, and what the cluster stores beside projects. */
  datatype Local = Local(p: Project, jobs: Jobs, tf: set<Key>, prs: map<PRId, PullRequest>)

  datatype Out = Out(l: Local, r: Result)

  // ----- reading the store -----

  predicate IsActive(jobs: Jobs, j: JobId) {
    j in jobs && jobs[j].outcome == Active
  }

  /** hasActiveNamespaceJobs. */
  predicate NamespaceBusy(jobs: Jobs, ns: string) {
    exists j :: j in jobs && j.project.ns == ns && IsActive(jobs, j)
  }

  /** The lock of a project that does not use the shared cache: drift jobs do not hold it. */
  predicate ProjectBusy(jobs: Jobs, id: Key) {
    exists j :: j in jobs && j.project == id && !j.kind.Drift? && IsActive(jobs, j)
  }

  function FirstDrift(listing: seq<JobId>, id: Key): Option<JobId> {
    if listing == [] then None
    else if listing[0].project == id && listing[0].kind.Drift? then Some(listing[0])
    else FirstDrift(listing[1..], id)
  }

  function Upstreams(projects: map<Key, Project>): map<Key, Params.Upstream> {
    map k | k in projects :: Params.Upstream(projects[k].status.phase == Succeeded, projects[k].status.outputs)
  }

  function LogOf(l: Local, j: JobId, o: Obs): string
    requires j in l.jobs
  {
    if o.readable then l.jobs[j].logs else ""
  }

  predicate IsStateLockError(logs: string) {
    Contains(logs, "Error acquiring the state lock") || Contains(logs, "Error locking state")
  }

  // ----- updates -----

  function WithStatus(l: Local, s: Status): Local {
    l.(p := l.p.(status := s))
  }

  function WithPhase(l: Local, phase: Phase): Local {
    WithStatus(l, l.p.status.(phase := phase))
  }

  function Created(l: Local, j: JobId): Local {
    l.(jobs := l.jobs[j := Job(Active, "")])
  }

  function Deleted(l: Local, j: JobId): Local {
    l.(jobs := l.jobs - {j})
  }

  // ----- deletion -----

  /** reconcileDestroy. */
  function DestroyStep(l: Local, id: Key, o: Obs): Out {
    var j := JobId(id, Destroy);
    if l.p.spec.deleteProtection && !l.p.approvedDelete then Out(WithPhase(l, WaitingDeleteApproval), DONE)
    else if id !in l.tf then Out(l.(p := l.p.(finalizer := false)), DONE)
    else if j !in l.jobs then Out(WithPhase(Created(l, j), Destroying), After(5 * SECOND))
    else
      match l.jobs[j].outcome
      case Success => Out(l.(p := l.p.(finalizer := false)), DONE)
      case Failure => Out(WithPhase(l, DestroyFailed), DONE)
      case Active =>
        if l.p.spec.resourceTimeout > 0 && o.stuck then Out(Deleted(l, j), After(2 * SECOND))
        else Out(l, After(5 * SECOND))
  }

  // ----- force-unlock -----

  /** The active jobs of the project, the force-unlock job excepted, are deleted. */
  function KillActive(jobs: Jobs, id: Key): Jobs {
    map j | j in jobs && !(j.project == id && !j.kind.ForceUnlock? && IsActive(jobs, j)) :: jobs[j]
  }

  function Unlocked(l: Local, phase: Phase): Local {
    WithStatus(l.(p := l.p.(forceUnlock := false)), l.p.status.(stateLocked := false, phase := phase))
  }

  /** handleForceUnlock after the active jobs are gone. */
  function UnlockJobStep(l: Local, id: Key): Out {
    var j := JobId(id, ForceUnlock);
    if id !in l.tf then Out(Unlocked(l, NoPhase), DONE)
    else if j !in l.jobs then Out(WithPhase(Created(l, j), ForceUnlocking), After(5 * SECOND))
    else
      match l.jobs[j].outcome
      case Success => Out(Unlocked(Deleted(l, j), NoPhase), AGAIN)
      case Failure => Out(WithPhase(l.(p := l.p.(forceUnlock := false)), Error), DONE)
      case Active => Out(WithPhase(l, ForceUnlocking), After(5 * SECOND))
  }

  /** handleForceUnlock. */
  function ForceUnlockStep(l: Local, id: Key): Out {
    UnlockJobStep(l.(jobs := KillActive(l.jobs, id)), id)
  }

  // ----- apply jobs -----

  /** A failed or still active apply job: retry, report, or wait. */
  function ApplyUnfinished(l: Local, j: JobId, o: Obs): Out
    requires j in l.jobs
  {
    var s := l.p.status;
    if l.jobs[j].outcome == Failure then
      if l.p.spec.retry.Some? && s.retryCount < l.p.spec.retry.value.maxRetries then
        Out(WithStatus(Deleted(l, j), s.(retryCount := s.retryCount + 1, phase := Retrying)),
            After(l.p.spec.retry.value.delay))
      else if IsStateLockError(LogOf(l, j, o)) then
        Out(WithStatus(l, s.(stateLocked := true, phase := Locked)), DONE)
      else Out(WithPhase(l, Error), DONE)
    else if l.p.spec.resourceTimeout > 0 && o.stuck then Out(Deleted(l, j), After(2 * SECOND))
    else Out(WithPhase(l, Running), After(5 * SECOND))
  }

  /** The status after a succeeded apply of this hash. */
  function AppliedStatus(p: Project, hash: string, o: Obs): Status {
    p.status.(
      phase := Succeeded, lastAppliedHash := hash, retryCount := 0, driftDetected := false, stateLocked := false,
      lastDriftCheck := if p.spec.driftInterval.Some? then Some(o.now) else p.status.lastDriftCheck,
      outputs := if o.readable && o.outputs.Some? then o.outputs.value else p.status.outputs)
  }

  /** handleApplyJobResult. */
  function AutoApplyResult(l: Local, j: JobId, o: Obs): Out
    requires j in l.jobs
  {
    if l.jobs[j].outcome == Success then Out(WithStatus(l, AppliedStatus(l.p, o.hash, o)), DONE)
    else ApplyUnfinished(l, j, o)
  }

  /** The part of createApplyAfterApproval that finds the job. */
  function ApprovedApplyResult(l: Local, j: JobId, o: Obs): Out
    requires j in l.jobs
  {
    if l.jobs[j].outcome == Success then
      Out(WithStatus(l, AppliedStatus(l.p, o.hash, o).(pendingPlanHash := "", pendingPR := 0)),
          After(l.p.spec.syncInterval))
    else ApplyUnfinished(l, j, o)
  }

  /** createApplyAfterApproval. */
  function ApplyApproved(l: Local, id: Key, o: Obs): Out {
    var j := JobId(id, Apply(Prefix(o.hash)));
    if j !in l.jobs then Out(WithPhase(Created(l, j), Running), After(5 * SECOND))
    else ApprovedApplyResult(l, j, o)
  }

  /** The wait for the start of the next window, or 30 seconds when the schedule names none. */
  function WindowWait(s: ApplySchedule, now: int): Result {
    After(if s.cron.Some? && s.cron.value(now) > now then s.cron.value(now) - now else 30 * SECOND)
  }

  ghost predicate MustWait(spec: Spec, now: int) {
    spec.applySchedule.Some? && !InWindow(spec.applySchedule.value, now)
  }

  /** handleApprovedPlan. */
  ghost function ApprovedStep(l: Local, id: Key, o: Obs): Out {
    if MustWait(l.p.spec, o.now) then Out(WithPhase(l, ScheduledApply), WindowWait(l.p.spec.applySchedule.value, o.now))
    else ApplyApproved(l, id, o)
  }

  // ----- drift detection -----

  /** handleCompletedDriftJob. */
  function DriftChecked(l: Local, j: JobId, o: Obs): Local
    requires j in l.jobs
  {
    if !o.readable then l
    else
      var summary := ExtractPlanSummary(l.jobs[j].logs);
      var s := l.p.status.(lastDriftCheck := Some(o.now));
      WithStatus(l, if summary == "No changes." || summary == "" then s.(driftDetected := false, phase := Succeeded)
                    else s.(driftDetected := true))
  }

  /** What follows a completed drift check. */
  function Resync(l: Local, interval: int): Out {
    if l.p.status.driftDetected && l.p.spec.keepInSync then
      Out(WithStatus(l, l.p.status.(lastAppliedHash := "")), AGAIN)
    else Out(l, After(interval))
  }

  /** reconcileDriftDetection where a drift job is found. */
  function DriftJobStep(l: Local, j: JobId, interval: int, o: Obs): Out
    requires j in l.jobs
  {
    match l.jobs[j].outcome
    case Success => Resync(Deleted(DriftChecked(l, j, o), j), interval)
    case Failure => Out(WithStatus(Deleted(l, j), l.p.status.(lastDriftCheck := Some(o.now))), After(interval))
    case Active => Out(l, After(5 * SECOND))
  }

  /** reconcileDriftDetection. */
  function DriftStep(l: Local, id: Key, o: Obs): Out
    requires l.p.spec.driftInterval.Some?
    requires FirstDrift(o.listing, id).Some? ==> FirstDrift(o.listing, id).value in l.jobs
  {
    var interval := l.p.spec.driftInterval.value;
    var last := l.p.status.lastDriftCheck;
    if last.Some? && o.now - last.value < interval then Out(l, After(interval - (o.now - last.value)))
    else
      match FirstDrift(o.listing, id)
      case None => Out(WithPhase(Created(l, JobId(id, Drift(o.now / SECOND))), DriftChecking), After(5 * SECOND))
      case Some(j) => DriftJobStep(l, j, interval, o)
  }

  function InSync(l: Local, id: Key, o: Obs): Out
    requires FirstDrift(o.listing, id).Some? ==> FirstDrift(o.listing, id).value in l.jobs
  {
    if l.p.spec.driftInterval.Some? then DriftStep(l, id, o) else Out(l, After(l.p.spec.syncInterval))
  }

  // ----- automatic approval -----

  /** reconcileAutoApprove. */
  function AutoStep(l: Local, id: Key, o: Obs): Out
    requires FirstDrift(o.listing, id).Some? ==> FirstDrift(o.listing, id).value in l.jobs
  {
    var j := JobId(id, Apply(Prefix(o.hash)));
    if l.p.status.lastAppliedHash == o.hash then InSync(l, id, o)
    else if j !in l.jobs then Out(WithPhase(Created(l, j), Running), After(5 * SECOND))
    else AutoApplyResult(l, j, o)
  }

  // ----- plan, approve, apply -----

  /** The pull request that a project's number means: whichever has it in the repository that the spec names now. */
  function PendingPR(p: Project): PRId {
    PRId(p.spec.repo, p.status.pendingPR)
  }

  /** closeStaleApprovalPR: closing a pull request that is still open. */
  function ClosedPR(prs: map<PRId, PullRequest>, pr: PRId, o: Obs): map<PRId, PullRequest> {
    if o.prAnswers && pr in prs && prs[pr].state == Open then prs[pr := prs[pr].(state := Closed)] else prs
  }

  /** invalidateStalePlan. */
  function Invalidated(l: Local, o: Obs): Local {
    var s := l.p.status;
    if s.pendingPlanHash == "" || s.pendingPlanHash == o.hash then l
    else
      var stalePR := l.p.spec.githubPR && s.pendingPR > 0;
      l.(prs := if stalePR then ClosedPR(l.prs, PendingPR(l.p), o) else l.prs,
         p := l.p.(
           status := s.(pendingPlanHash := "", pendingPR := if stalePR then 0 else s.pendingPR),
           approvedHash := if l.p.approvedHash != o.hash then "" else l.p.approvedHash))
  }

  /** checkPRMergeStatus, and what reconcilePlanApprove makes of it. */
  function PRStep(l: Local, o: Obs): Out {
    var s := l.p.status;
    var pr := PendingPR(l.p);
    var answer := if o.prAnswers && pr in l.prs then Some(l.prs[pr].state) else None;
    if answer == Some(Merged) then Out(l.(p := l.p.(approvedHash := o.hash, status := s.(pendingPR := 0))), AGAIN)
    else if answer == Some(Closed) then
      Out(WithStatus(l, s.(pendingPR := 0, pendingPlanHash := "", phase := PlanRejected)), After(10 * SECOND))
    else Out(l, After(if s.phase == PlanRejected then 10 * SECOND else 30 * SECOND))
  }

  /** createApprovalPR. */
  function OpenPR(l: Local, id: Key, o: Obs): Out {
    match o.createdPR
    case None => Out(WithPhase(l, Error), DONE)
    case Some(n) =>
      var m := l.(prs := l.prs[PRId(l.p.spec.repo, n) := PullRequest(Some(PlanRef(id, o.hash)), Open)]);
      Out(WithStatus(m, l.p.status.(pendingPR := n, phase := WaitingApproval)), After(30 * SECOND))
  }

  /** checkAutoApproveThreshold where the plan is within the threshold. */
  ghost function SelfApproved(l: Local, o: Obs): Out {
    var m := l.(p := l.p.(approvedHash := o.hash));
    if MustWait(l.p.spec, o.now) then Out(WithPhase(m, ScheduledApply), WindowWait(l.p.spec.applySchedule.value, o.now))
    else Out(WithPhase(m, WaitingApproval), AGAIN)
  }

  /** handlePlanSuccess, with the automatic approval of checkAutoApproveThreshold. */
  ghost function PlanSucceeded(l0: Local, id: Key, j: JobId, o: Obs): Out
    requires j in l0.jobs
  {
    var report := ReadPlan(LogOf(l0, j, o));
    var l := WithStatus(l0, l0.p.status.(pendingPlanHash := o.hash));
    if !l.p.spec.autoApprove && WithinThreshold(l.p.spec.maxBlastRadius, report.radius) then
      SelfApproved(l, o)
    else if l.p.spec.githubPR then OpenPR(l, id, o)
    else Out(WithPhase(l, WaitingApproval), DONE)
  }

  /** handlePlanJobStatus. */
  ghost function PlanResult(l: Local, id: Key, j: JobId, o: Obs): Out
    requires j in l.jobs
  {
    match l.jobs[j].outcome
    case Success => PlanSucceeded(l, id, j, o)
    case Failure =>
      if IsStateLockError(Tail(LogOf(l, j, o))) then
        Out(WithStatus(l, l.p.status.(stateLocked := true, phase := Locked)), DONE)
      else Out(WithPhase(l, Error), DONE)
    case Active =>
      if l.p.spec.resourceTimeout > 0 && o.stuck then Out(Deleted(l, j), After(2 * SECOND))
      else Out(WithPhase(l, Planning), After(5 * SECOND))
  }

  /** reconcilePlanApprove once the hash is known not to be applied and a stale plan is gone. */
  ghost function PendingStep(l: Local, id: Key, o: Obs): Out {
    var s := l.p.status;
    var j := JobId(id, Plan(Prefix(o.hash)));
    if l.p.approvedHash == o.hash then ApprovedStep(l, id, o)
    else if l.p.spec.githubPR && s.pendingPR > 0 && s.pendingPlanHash == o.hash then PRStep(l, o)
    else if s.phase == WaitingApproval && s.pendingPlanHash == o.hash then Out(l, DONE)
    else if j !in l.jobs then Out(WithPhase(Created(l, j), Planning), After(5 * SECOND))
    else PlanResult(l, id, j, o)
  }

  /** reconcilePlanApprove. */
  ghost function PlanStep(l: Local, id: Key, o: Obs): Out
    requires FirstDrift(o.listing, id).Some? ==> FirstDrift(o.listing, id).value in l.jobs
  {
    if l.p.status.lastAppliedHash == o.hash then InSync(l, id, o)
    else PendingStep(Invalidated(l, o), id, o)
  }

  // ----- preparation -----

  /** checkJobLock: None when nothing holds the lock. */
  function LockStep(l: Local, id: Key): Option<Out> {
    if l.p.spec.sharedCache then
      if NamespaceBusy(l.jobs, id.ns) then Some(Out(WithPhase(l, Queued), After(5 * SECOND))) else None
    else if ProjectBusy(l.jobs, id) then Some(Out(WithPhase(l, Running), After(5 * SECOND)))
    else None
  }

  /** Whether preparation ends the reconcile. `others` are the stored projects. */
  ghost predicate ReturnsEarly(l: Local, id: Key, others: map<Key, Project>, o: Obs)
    requires Params.AreOrders(o.orders, l.p.spec.inputs.dependencies)
  {
    || !o.program
    || !Params.Resolve(o.sources, id.ns, Upstreams(others[id := l.p]), l.p.spec.inputs, o.orders).Resolved?
    || LockStep(l, id).Some?
  }

  /** prepareReconcile where it ends the reconcile. */
  ghost function PreparedOut(l: Local, id: Key, others: map<Key, Project>, o: Obs): Out
    requires Params.AreOrders(o.orders, l.p.spec.inputs.dependencies)
    requires ReturnsEarly(l, id, others, o)
  {
    if !o.program then Out(WithPhase(l, Error), FAILED)
    else
      match Params.Resolve(o.sources, id.ns, Upstreams(others[id := l.p]), l.p.spec.inputs, o.orders)
      case Unresolvable => Out(WithPhase(l, Error), FAILED)
      case Waiting => Out(WithPhase(l, WaitingDependency), After(15 * SECOND))
      case Resolved(_, _) => LockStep(l.(tf := l.tf + {id}), id).value
  }

  /** prepareReconcile and the flow it leads to. */
  ghost function MainStep(l: Local, id: Key, others: map<Key, Project>, o: Obs): Out
    requires Params.AreOrders(o.orders, l.p.spec.inputs.dependencies)
    requires FirstDrift(o.listing, id).Some? ==> FirstDrift(o.listing, id).value in l.jobs
  {
    if ReturnsEarly(l, id, others, o) then PreparedOut(l, id, others, o)
    else
      var m := l.(tf := l.tf + {id});
      if m.p.spec.autoApprove then AutoStep(m, id, o) else PlanStep(m, id, o)
  }

  /** The TTL bounds the wait. */
  function Clamp(p: Project, now: int, r: Result): Result {
    var remaining := p.created + p.spec.ttl - now;
    if p.spec.ttl > 0 && remaining > 0 && (r.after == 0 || remaining < r.after) then r.(after := remaining) else r
  }

  // ----- pinned revision -----

  function PinnedResult(l: Local, j: JobId, hash: string, o: Obs): Out
    requires j in l.jobs
  {
    match l.jobs[j].outcome
    case Success =>
      Out(WithStatus(l, l.p.status.(
            phase := Succeeded, lastAppliedHash := hash, retryCount := 0, driftDetected := false,
            outputs := if o.readable && o.outputs.Some? then o.outputs.value else l.p.status.outputs)), DONE)
    case Failure => Out(WithPhase(l, Error), DONE)
    case Active => Out(WithPhase(l, Running), After(5 * SECOND))
  }

  /** The hash that the pin stands for: a pinned revision without snapshot has none. */
  function PinnedHash(p: Project, o: Obs): Option<Digest> {
    var n := p.spec.pinnedRevision;
    if n > 0 && Revisions.LoadSnapshot(o.revisions, n).Snapshot? then Some(o.pinHash)
    else None
  }

  /** The part of reconcilePinned past the lock. */
  function PinnedJobStep(l: Local, id: Key, hash: Digest, o: Obs): Out {
    var j := JobId(id, Apply(Prefix(hash)));
    if j !in l.jobs then Out(WithPhase(Created(l, j), Running), After(5 * SECOND))
    else PinnedResult(l, j, hash, o)
  }

  /** reconcilePinned. */
  function PinnedStep(l: Local, id: Key, o: Obs): Out {
    match PinnedHash(l.p, o)
    case None => Out(WithPhase(l, Error), DONE)
    case Some(hash) =>
      if l.p.status.lastAppliedHash == hash then Out(l, DONE)
      else
        var m := l.(tf := l.tf + {id});
        match LockStep(m, id)
        case Some(out) => out
        case None => PinnedJobStep(m, id, hash, o)
  }

  // ----- the reconcile -----

  /** Suspension set or lifted. */
  function Resumed(l: Local): Local {
    if l.p.status.phase == Suspended then WithPhase(l, NoPhase) else l
  }

  predicate Expired(p: Project, now: int) {
    p.spec.ttl > 0 && now > p.created + p.spec.ttl
  }

  function Finalized(l: Local): Local {
    l.(p := l.p.(finalizer := true))
  }

  /** handleLifecycle of a project that is not being deleted, its finalizer set: None when the main flow follows. */
  function LiveStep(l: Local, id: Key, o: Obs): Option<Out> {
    if Expired(l.p, o.now) then Some(Out(l.(p := l.p.(deleting := true)), DONE))
    else if l.p.forceUnlock then Some(ForceUnlockStep(l, id))
    else if l.p.spec.suspend then Some(Out(WithPhase(l, Suspended), DONE))
    else if l.p.spec.pinnedRevision > 0 then Some(PinnedStep(Resumed(l), id, o))
    else None
  }

  /** handleLifecycle. */
  function LifecycleStep(l: Local, id: Key, o: Obs): Option<Out> {
    if !l.p.deleting then LiveStep(Finalized(l), id, o)
    else if l.p.finalizer then Some(DestroyStep(l, id, o))
    else Some(Out(l, DONE))
  }

  /** The main flow's answer, its wait bounded by the TTL unless preparation ended the reconcile. */
  ghost function Bounded(l: Local, id: Key, others: map<Key, Project>, o: Obs): Result
    requires Params.AreOrders(o.orders, l.p.spec.inputs.dependencies)
    requires FirstDrift(o.listing, id).Some? ==> FirstDrift(o.listing, id).value in l.jobs
  {
    var out := MainStep(l, id, others, o);
    if ReturnsEarly(l, id, others, o) then out.r else Clamp(out.l.p, o.now, out.r)
  }

  /**
   A dependency on the project itself is read from the store. Every handler writes back before that, so memory and store
   agree there, and `MainStep` takes the entry from memory: what `others` holds under `id` is overwritten.
   */
  lemma OwnEntryIsIgnored(l: Local, id: Key, x: Project, others: map<Key, Project>, o: Obs)
    requires Params.AreOrders(o.orders, l.p.spec.inputs.dependencies)
    requires FirstDrift(o.listing, id).Some? ==> FirstDrift(o.listing, id).value in l.jobs
    ensures MainStep(l, id, others[id := x], o) == MainStep(l, id, others, o)
    ensures Bounded(l, id, others[id := x], o) == Bounded(l, id, others, o)
  {
    hide AutoStep, PlanStep, LockStep, FirstDrift, Clamp, Params.Resolve, Params.AreOrders, Upstreams;
    assert others[id := x][id := l.p] == others[id := l.p];
  }

  /** Reconcile of a stored project: handleLifecycle, then the main flow. */
  ghost function LocalStep(l: Local, id: Key, others: map<Key, Project>, o: Obs): Out
    requires Params.AreOrders(o.orders, l.p.spec.inputs.dependencies)
    requires FirstDrift(o.listing, id).Some? ==> FirstDrift(o.listing, id).value in l.jobs
  {
    match LifecycleStep(l, id, o)
    case Some(out) => out
    case None =>
      var m := Resumed(Finalized(l));
      Out(MainStep(m, id, others, o).l, Bounded(m, id, others, o))
  }

  function Loaded(w: World, id: Key): Local
    requires id in w.projects
  {
    Local(w.projects[id], w.jobs, w.tf, w.prs)
  }

  function Stored(w: World, id: Key, l: Local): World {
    World(w.projects[id := l.p], l.jobs, l.tf, l.prs)
  }

  /** A pull request created on request gets a number that its repository has not given yet. */
  predicate FreshPR(l: Local, o: Obs) {
    o.createdPR.Some? ==> o.createdPR.value > 0 && PRId(l.p.spec.repo, o.createdPR.value) !in l.prs
  }

  /** What the environment can tell: every Job listed, one order per dependency, fresh pull request numbers. */
  ghost predicate ValidObs(w: World, id: Key, o: Obs) {
    && (forall j :: j in o.listing <==> j in w.jobs)
    && (id in w.projects ==> FreshPR(Loaded(w, id), o))
    && (id in w.projects ==> Params.AreOrders(o.orders, w.projects[id].spec.inputs.dependencies))
  }

  lemma {:induction false} FirstDriftIsListed(listing: seq<JobId>, id: Key)
    ensures var d := FirstDrift(listing, id);
            if d.Some? then d.value in listing && d.value.project == id && d.value.kind.Drift?
            else forall j :: j in listing ==> !(j.project == id && j.kind.Drift?)
  {
    if listing != [] && !(listing[0].project == id && listing[0].kind.Drift?) {
      FirstDriftIsListed(listing[1..], id);
    }
  }

  ghost function Reconcile(w: World, id: Key, o: Obs): World
    requires ValidObs(w, id, o)
  {
    if id !in w.projects then w
    else
      FirstDriftIsListed(o.listing, id);
      Stored(w, id, LocalStep(Loaded(w, id), id, w.projects, o).l)
  }

  /** What that reconcile hands back to the work queue. */
  ghost function Answer(w: World, id: Key, o: Obs): Result
    requires ValidObs(w, id, o)
  {
    if id !in w.projects then DONE
    else
      FirstDriftIsListed(o.listing, id);
      LocalStep(Loaded(w, id), id, w.projects, o).r
  }
}
