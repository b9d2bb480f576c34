/**
 The reconciler as it runs: a project object changed field by field, Jobs created and deleted in the store, and the
 project written back. Each handler is proved to do what its function in Protocol says and to leave nothing unsaved.
 */
module Reconciler {
  import opened Wrappers
  import opened PlanLog
  import opened ApplyWindow
  import opened Api
  import opened Protocol
  import Params
  import ParamResolver
  import Revisions

  /** The project in memory: its status is a struct of its own, as in the API type. */
  class TofuProject {
    const id: Key
    const spec: Spec
    const created: int
    var deleting: bool
    var finalizer: bool
    var approvedHash: string
    var approvedDelete: bool
    var forceUnlock: bool
    var status: Status

    constructor (id: Key, p: Project)
      ensures this.id == id && Value() == p
    {
      this.id, spec, created, deleting, finalizer := id, p.spec, p.created, p.deleting, p.finalizer;
      approvedHash, approvedDelete, forceUnlock, status := p.approvedHash, p.approvedDelete, p.forceUnlock, p.status;
    }

    function Value(): Project
      reads this
    {
      Project(spec, created, deleting, finalizer, approvedHash, approvedDelete, forceUnlock, status)
    }
  }

  class Controller {
    var projects: map<Key, Project>
    var jobs: Jobs
    var tf: set<Key>
    var prs: map<PRId, PullRequest>

    constructor (w: World)
      ensures Store() == w
    {
      projects, jobs, tf, prs := w.projects, w.jobs, w.tf, w.prs;
    }

    ghost function Store(): World
      reads this
    {
      World(projects, jobs, tf, prs)
    }

    ghost function View(p: TofuProject): Local
      reads this, p
    {
      Local(p.Value(), jobs, tf, prs)
    }

    /** The object in memory is the stored one. */
    ghost predicate Saved(p: TofuProject)
      reads this, p
    {
      p.id in projects && projects[p.id] == p.Value()
    }

    /** After a handler: memory and store are `l`, the project is written back and no other project has changed. */
    ghost predicate Reached(p: TofuProject, before: map<Key, Project>, l: Local)
      reads this, p
    {
      View(p) == l && projects == before[p.id := l.p]
    }

    // ----- the client -----

    method Update(p: TofuProject)
      modifies this`projects
      ensures projects == old(projects)[p.id := p.Value()]
    {
      projects := projects[p.id := p.Value()];
    }

    method Create(j: JobId)
      modifies this`jobs
      ensures jobs == old(jobs)[j := Job(Active, "")]
    {
      jobs := jobs[j := Job(Active, "")];
    }

    method Delete(j: JobId)
      modifies this`jobs
      ensures jobs == old(jobs) - {j}
    {
      jobs := jobs - {j};
    }

    method ReadJobLogs(j: JobId, o: Obs) returns (logs: string)
      requires j in jobs
      ensures logs == if o.readable then jobs[j].logs else ""
    {
      logs := if o.readable then jobs[j].logs else "";
    }

    // ----- deletion -----

    method ReconcileDestroy(p: TofuProject, o: Obs) returns (r: Result)
      requires Saved(p)
      modifies this, p
      ensures Reached(p, old(projects), DestroyStep(old(View(p)), p.id, o).l)
      ensures r == DestroyStep(old(View(p)), p.id, o).r
    {
      if p.spec.deleteProtection && !p.approvedDelete {
        if p.status.phase != WaitingDeleteApproval {
          p.status := p.status.(phase := WaitingDeleteApproval);
          Update(p);
        }
        return DONE;
      }
      if p.id !in tf {
        p.finalizer := false;
        Update(p);
        return DONE;
      }
      var job := JobId(p.id, Destroy);
      if job !in jobs {
        Create(job);
        p.status := p.status.(phase := Destroying);
        Update(p);
        return After(5 * SECOND);
      }
      if jobs[job].outcome == Success {
        p.finalizer := false;
        Update(p);
        return DONE;
      }
      if jobs[job].outcome == Failure {
        p.status := p.status.(phase := DestroyFailed);
        Update(p);
        return DONE;
      }
      if p.spec.resourceTimeout > 0 && o.stuck {
        Delete(job);
        Update(p);
        return After(2 * SECOND);
      }
      r := After(5 * SECOND);
    }

    // ----- force-unlock -----

    /** The loop over the listed jobs that deletes the project's active ones. */
    method DeleteActiveJobs(id: Key, listing: seq<JobId>)
      requires forall j :: j in jobs ==> j in listing
      modifies this`jobs
      ensures jobs == KillActive(old(jobs), id)
    {
      ghost var before := jobs;
      for i := 0 to |listing|
        invariant jobs == map j | j in before &&
                    !(j in listing[..i] && j.project == id && !j.kind.ForceUnlock? && IsActive(before, j)) :: before[j]
      {
        var j := listing[i];
        assert listing[..i + 1] == listing[..i] + [j];
        if j.project != id || j.kind.ForceUnlock? {
          continue;
        }
        if j in jobs && jobs[j].outcome == Active {
          Delete(j);
        }
      }
    }

    method ClearForceUnlockAnnotation(p: TofuProject)
      modifies this`projects, p`forceUnlock
      ensures !p.forceUnlock && projects == old(projects)[p.id := p.Value()]
    {
      p.forceUnlock := false;
      Update(p);
    }

    /** The lock is taken to be gone. */
    method ClearLockState(p: TofuProject)
      modifies this`projects, p
      ensures Reached(p, old(projects), Unlocked(old(View(p)), NoPhase))
    {
      ClearForceUnlockAnnotation(p);
      p.status := p.status.(stateLocked := false, phase := NoPhase);
      Update(p);
    }

    method HandleForceUnlockJob(p: TofuProject, o: Obs) returns (r: Result)
      requires Saved(p)
      modifies this, p
      ensures Reached(p, old(projects), UnlockJobStep(old(View(p)), p.id).l)
      ensures r == UnlockJobStep(old(View(p)), p.id).r
    {
      if p.id !in tf {
        ClearLockState(p);
        return DONE;
      }
      var job := JobId(p.id, ForceUnlock);
      if job !in jobs {
        Create(job);
        p.status := p.status.(phase := ForceUnlocking);
        Update(p);
        return After(5 * SECOND);
      }
      if jobs[job].outcome == Success {
        Delete(job);
        ClearLockState(p);
        return AGAIN;
      }
      if jobs[job].outcome == Failure {
        ClearForceUnlockAnnotation(p);
        p.status := p.status.(phase := Error);
        Update(p);
        return DONE;
      }
      p.status := p.status.(phase := ForceUnlocking);
      Update(p);
      r := After(5 * SECOND);
    }

    method HandleForceUnlock(p: TofuProject, o: Obs) returns (r: Result)
      requires Saved(p) && forall j :: j in jobs ==> j in o.listing
      modifies this, p
      ensures Reached(p, old(projects), ForceUnlockStep(old(View(p)), p.id).l)
      ensures r == ForceUnlockStep(old(View(p)), p.id).r
    {
      hide KillActive, UnlockJobStep;
      DeleteActiveJobs(p.id, o.listing);
      r := HandleForceUnlockJob(p, o);
    }

    // ----- apply jobs -----

    method HandleUnfinishedApply(p: TofuProject, job: JobId, o: Obs) returns (r: Result)
      requires Saved(p) && job in jobs
      modifies this, p
      ensures Reached(p, old(projects), ApplyUnfinished(old(View(p)), job, o).l)
      ensures r == ApplyUnfinished(old(View(p)), job, o).r
    {
      if jobs[job].outcome == Failure {
        if p.spec.retry.Some? && p.status.retryCount < p.spec.retry.value.maxRetries {
          p.status := p.status.(retryCount := p.status.retryCount + 1, phase := Retrying);
          Delete(job);
          Update(p);
          return After(p.spec.retry.value.delay);
        }
        var failLogs := ReadJobLogs(job, o);
        if IsStateLockError(failLogs) {
          p.status := p.status.(stateLocked := true, phase := Locked);
          Update(p);
          return DONE;
        }
        p.status := p.status.(phase := Error);
        Update(p);
        return DONE;
      }
      if p.spec.resourceTimeout > 0 && o.stuck {
        Delete(job);
        Update(p);
        return After(2 * SECOND);
      }
      p.status := p.status.(phase := Running);
      Update(p);
      r := After(5 * SECOND);
    }

    /** The fields that both flows set after a succeeded apply; what approval depends on stays as it was. */
    method MarkApplied(p: TofuProject, hash: string, o: Obs)
      modifies p
      ensures p.Value() == old(p.Value()).(status := AppliedStatus(old(p.Value()), hash, o))
      ensures p.approvedHash == old(p.approvedHash)
      ensures p.status.pendingPlanHash == old(p.status.pendingPlanHash) && p.status.pendingPR == old(p.status.pendingPR)
    {
      p.status := p.status.(phase := Succeeded, lastAppliedHash := hash, retryCount := 0, driftDetected := false,
                            stateLocked := false);
      if p.spec.driftInterval.Some? {
        p.status := p.status.(lastDriftCheck := Some(o.now));
      }
      if o.readable && o.outputs.Some? {
        p.status := p.status.(outputs := o.outputs.value);
      }
    }

    method HandleApplyJobResult(p: TofuProject, job: JobId, o: Obs) returns (r: Result)
      requires Saved(p) && job in jobs
      modifies this, p
      ensures Reached(p, old(projects), AutoApplyResult(old(View(p)), job, o).l)
      ensures r == AutoApplyResult(old(View(p)), job, o).r
    {
      if jobs[job].outcome == Success {
        MarkApplied(p, o.hash, o);
        Update(p);
        return DONE;
      }
      r := HandleUnfinishedApply(p, job, o);
    }

    method CreateApplyAfterApproval(p: TofuProject, o: Obs) returns (r: Result)
      requires Saved(p)
      modifies this, p
      ensures Reached(p, old(projects), ApplyApproved(old(View(p)), p.id, o).l)
      ensures r == ApplyApproved(old(View(p)), p.id, o).r
    {
      var job := JobId(p.id, Apply(Prefix(o.hash)));
      if job !in jobs {
        Create(job);
        p.status := p.status.(phase := Running);
        Update(p);
        return After(5 * SECOND);
      }
      if jobs[job].outcome == Success {
        MarkApplied(p, o.hash, o);
        p.status := p.status.(pendingPlanHash := "", pendingPR := 0);
        Update(p);
        return After(p.spec.syncInterval);
      }
      r := HandleUnfinishedApply(p, job, o);
    }

    /** The window check, with the wait for the next start. */
    method CheckWindow(spec: Spec, now: int) returns (mustWait: bool, r: Result)
      ensures mustWait == MustWait(spec, now)
      ensures mustWait ==> r == WindowWait(spec.applySchedule.value, now)
    {
      if spec.applySchedule.None? {
        return false, DONE;
      }
      var inWindow, next := IsWithinApplyWindow(spec.applySchedule, now);
      if next.Some? {
        NextIsLeastFire(spec.applySchedule.value.cron.value, now);
      }
      var wait := if next.Some? then next.value - now else 0;
      if wait <= 0 {
        wait := 30 * SECOND;
      }
      return !inWindow, After(wait);
    }

    method HandleApprovedPlan(p: TofuProject, o: Obs) returns (r: Result)
      requires Saved(p)
      modifies this, p
      ensures Reached(p, old(projects), ApprovedStep(old(View(p)), p.id, o).l)
      ensures r == ApprovedStep(old(View(p)), p.id, o).r
    {
      var mustWait, wait := CheckWindow(p.spec, o.now);
      if mustWait {
        p.status := p.status.(phase := ScheduledApply);
        Update(p);
        return wait;
      }
      r := CreateApplyAfterApproval(p, o);
    }

    // ----- drift detection -----

    method HandleCompletedDriftJob(p: TofuProject, job: JobId, o: Obs)
      requires Saved(p) && job in jobs
      modifies this`projects, p
      ensures Reached(p, old(projects), DriftChecked(old(View(p)), job, o))
    {
      hide ExtractPlanSummary;
      if !o.readable {
        return;
      }
      var output := ReadJobLogs(job, o);
      var summary := ExtractPlanSummary(output);
      p.status := p.status.(lastDriftCheck := Some(o.now));
      if summary == "No changes." || summary == "" {
        p.status := p.status.(driftDetected := false, phase := Succeeded);
      } else {
        p.status := p.status.(driftDetected := true);
      }
      Update(p);
    }

    /** The first drift job of the project in the listing. */
    method FindDriftJob(id: Key, listing: seq<JobId>) returns (job: Option<JobId>)
      ensures job == FirstDrift(listing, id)
    {
      for i := 0 to |listing|
        invariant FirstDrift(listing, id) == FirstDrift(listing[i..], id)
      {
        assert listing[i..][0] == listing[i] && listing[i..][1..] == listing[i + 1..];
        if listing[i].project == id && listing[i].kind.Drift? {
          return Some(listing[i]);
        }
      }
      job := None;
    }

    method HandleResync(p: TofuProject, interval: int) returns (r: Result)
      requires Saved(p)
      modifies this`projects, p
      ensures Reached(p, old(projects), Resync(old(View(p)), interval).l)
      ensures r == Resync(old(View(p)), interval).r
    {
      if p.status.driftDetected && p.spec.keepInSync {
        p.status := p.status.(lastAppliedHash := "");
        Update(p);
        return AGAIN;
      }
      r := After(interval);
    }

    /** The part of reconcileDriftDetection for a drift job that was found. */
    method HandleDriftJob(p: TofuProject, job: JobId, interval: int, o: Obs) returns (r: Result)
      requires Saved(p) && job in jobs
      modifies this, p
      ensures Reached(p, old(projects), DriftJobStep(old(View(p)), job, interval, o).l)
      ensures r == DriftJobStep(old(View(p)), job, interval, o).r
    {
      hide DriftChecked, Resync;
      if jobs[job].outcome == Success {
        HandleCompletedDriftJob(p, job, o);
        Delete(job);
        r := HandleResync(p, interval);
        return;
      }
      if jobs[job].outcome == Failure {
        p.status := p.status.(lastDriftCheck := Some(o.now));
        Update(p);
        Delete(job);
        return After(interval);
      }
      r := After(5 * SECOND);
    }

    method ReconcileDriftDetection(p: TofuProject, o: Obs) returns (r: Result)
      requires Saved(p) && p.spec.driftInterval.Some?
      requires FirstDrift(o.listing, p.id).Some? ==> FirstDrift(o.listing, p.id).value in jobs
      modifies this, p
      ensures Reached(p, old(projects), DriftStep(old(View(p)), p.id, o).l)
      ensures r == DriftStep(old(View(p)), p.id, o).r
    {
      hide DriftJobStep, FirstDrift;
      var interval := p.spec.driftInterval.value;
      if p.status.lastDriftCheck.Some? {
        var elapsed := o.now - p.status.lastDriftCheck.value;
        if elapsed < interval {
          return After(interval - elapsed);
        }
      }
      var found := FindDriftJob(p.id, o.listing);
      if found.None? {
        Create(JobId(p.id, Drift(o.now / SECOND)));
        p.status := p.status.(phase := DriftChecking);
        Update(p);
        return After(5 * SECOND);
      }
      r := HandleDriftJob(p, found.value, interval, o);
    }

    // ----- automatic approval -----

    method ReconcileAutoApprove(p: TofuProject, o: Obs) returns (r: Result)
      requires Saved(p)
      requires FirstDrift(o.listing, p.id).Some? ==> FirstDrift(o.listing, p.id).value in jobs
      modifies this, p
      ensures Reached(p, old(projects), AutoStep(old(View(p)), p.id, o).l)
      ensures r == AutoStep(old(View(p)), p.id, o).r
    {
      if p.status.lastAppliedHash == o.hash {
        r := StayInSync(p, o);
        return;
      }
      var job := JobId(p.id, Apply(Prefix(o.hash)));
      if job !in jobs {
        Create(job);
        p.status := p.status.(phase := Running);
        Update(p);
        return After(5 * SECOND);
      }
      r := HandleApplyJobResult(p, job, o);
    }

    // ----- plan, approve, apply -----

    /** Closes the pull request if GitHub answers and it is open; touches no other, makes and undoes no merge. */
    method CloseStaleApprovalPR(pr: PRId, o: Obs)
      modifies this`prs
      ensures prs == ClosedPR(old(prs), pr, o)
      ensures prs.Keys == old(prs).Keys
      ensures forall q :: q in prs && q != pr ==> prs[q] == old(prs)[q]
      ensures pr in prs ==> prs[pr].plan == old(prs)[pr].plan
      ensures pr in prs ==> (prs[pr].state == Merged <==> old(prs)[pr].state == Merged)
      ensures pr in prs && o.prAnswers ==> prs[pr].state != Open
    {
      if o.prAnswers && pr in prs && prs[pr].state == Open {
        prs := prs[pr := prs[pr].(state := Closed)];
      }
    }

    method InvalidateStalePlan(p: TofuProject, o: Obs)
      requires Saved(p)
      modifies this`projects, this`prs, p
      ensures Reached(p, old(projects), Invalidated(old(View(p)), o))
    {
      if p.status.pendingPlanHash == "" || p.status.pendingPlanHash == o.hash {
        return;
      }
      if p.spec.githubPR && p.status.pendingPR > 0 {
        CloseStaleApprovalPR(PRId(p.spec.repo, p.status.pendingPR), o);
        p.status := p.status.(pendingPR := 0);
      }
      p.status := p.status.(pendingPlanHash := "");
      if p.approvedHash != o.hash {
        p.approvedHash := "";
        Update(p);
      }
      Update(p);
    }

    method CheckPRMergeStatus(p: TofuProject, o: Obs) returns (r: Result)
      requires Saved(p)
      modifies this`projects, p
      ensures Reached(p, old(projects), PRStep(old(View(p)), o).l)
      ensures r == PRStep(old(View(p)), o).r
    {
      var pr := PRId(p.spec.repo, p.status.pendingPR);
      if o.prAnswers && pr in prs {
        var state := prs[pr].state;
        if state == Merged {
          p.status := p.status.(pendingPR := 0);
          p.approvedHash := o.hash;
          Update(p);
          return AGAIN;
        }
        if state == Closed {
          p.status := p.status.(pendingPR := 0, pendingPlanHash := "", phase := PlanRejected);
          Update(p);
        }
      }
      if p.status.phase == PlanRejected {
        return After(10 * SECOND);
      }
      r := After(30 * SECOND);
    }

    method CreateApprovalPR(p: TofuProject, o: Obs) returns (r: Result)
      modifies this`projects, this`prs, p
      ensures Reached(p, old(projects), OpenPR(old(View(p)), p.id, o).l)
      ensures r == OpenPR(old(View(p)), p.id, o).r
    {
      if o.createdPR.None? {
        p.status := p.status.(phase := Error);
        Update(p);
        return DONE;
      }
      var n := o.createdPR.value;
      prs := prs[PRId(p.spec.repo, n) := PullRequest(Some(PlanRef(p.id, o.hash)), Open)];
      p.status := p.status.(pendingPR := n, phase := WaitingApproval);
      Update(p);
      r := After(30 * SECOND);
    }

    /** The part of checkAutoApproveThreshold that approves; the pending plan hash is set but not saved yet. */
    method SelfApprove(p: TofuProject, o: Obs) returns (r: Result)
      modifies this`projects, p
      ensures Reached(p, old(projects), SelfApproved(old(View(p)), o).l)
      ensures r == SelfApproved(old(View(p)), o).r
    {
      hide MustWait, WindowWait;
      p.approvedHash := o.hash;
      Update(p);
      var mustWait, wait := CheckWindow(p.spec, o.now);
      p.status := p.status.(phase := if mustWait then ScheduledApply else WaitingApproval);
      Update(p);
      r := if mustWait then wait else AGAIN;
    }

    /** checkAutoApproveThreshold. */
    method CheckAutoApproveThreshold(p: TofuProject, report: PlanReport, o: Obs) returns (approved: bool, r: Result)
      modifies this`projects, p
      ensures approved == (!p.spec.autoApprove && WithinThreshold(p.spec.maxBlastRadius, report.radius))
      ensures approved ==> Reached(p, old(projects), SelfApproved(old(View(p)), o).l)
      ensures approved ==> r == SelfApproved(old(View(p)), o).r
      ensures !approved ==> View(p) == old(View(p)) && projects == old(projects)
    {
      hide WithinThreshold, SelfApproved;
      if p.spec.autoApprove || !WithinThreshold(p.spec.maxBlastRadius, report.radius) {
        return false, DONE;
      }
      approved := true;
      r := SelfApprove(p, o);
    }

    method HandlePlanSuccess(p: TofuProject, job: JobId, o: Obs) returns (r: Result)
      requires Saved(p) && job in jobs
      modifies this, p
      ensures Reached(p, old(projects), PlanSucceeded(old(View(p)), p.id, job, o).l)
      ensures r == PlanSucceeded(old(View(p)), p.id, job, o).r
    {
      hide ReadPlan, OpenPR, WithinThreshold, SelfApproved;
      var output := ReadJobLogs(job, o);
      var report := ReadPlan(output);
      p.status := p.status.(pendingPlanHash := o.hash);
      var approved;
      approved, r := CheckAutoApproveThreshold(p, report, o);
      if approved {
        return;
      }
      if p.spec.githubPR {
        r := CreateApprovalPR(p, o);
        return;
      }
      p.status := p.status.(phase := WaitingApproval);
      Update(p);
      r := DONE;
    }

    method HandlePlanJobStatus(p: TofuProject, job: JobId, o: Obs) returns (r: Result)
      requires Saved(p) && job in jobs
      modifies this, p
      ensures Reached(p, old(projects), PlanResult(old(View(p)), p.id, job, o).l)
      ensures r == PlanResult(old(View(p)), p.id, job, o).r
    {
      if jobs[job].outcome == Success {
        r := HandlePlanSuccess(p, job, o);
        return;
      }
      if jobs[job].outcome == Failure {
        var output := ReadJobLogs(job, o);
        if IsStateLockError(Tail(output)) {
          p.status := p.status.(stateLocked := true, phase := Locked);
          Update(p);
          return DONE;
        }
        p.status := p.status.(phase := Error);
        Update(p);
        return DONE;
      }
      if p.spec.resourceTimeout > 0 && o.stuck {
        Delete(job);
        Update(p);
        return After(2 * SECOND);
      }
      p.status := p.status.(phase := Planning);
      Update(p);
      r := After(5 * SECOND);
    }

    /** reconcilePlanApprove after the stale plan is gone. */
    method ReconcilePending(p: TofuProject, o: Obs) returns (r: Result)
      requires Saved(p)
      modifies this, p
      ensures Reached(p, old(projects), PendingStep(old(View(p)), p.id, o).l)
      ensures r == PendingStep(old(View(p)), p.id, o).r
    {
      hide ApprovedStep, PRStep, PlanResult;
      if p.approvedHash == o.hash {
        r := HandleApprovedPlan(p, o);
        return;
      }
      if p.spec.githubPR && p.status.pendingPR > 0 && p.status.pendingPlanHash == o.hash {
        r := CheckPRMergeStatus(p, o);
        return;
      }
      if p.status.phase == WaitingApproval && p.status.pendingPlanHash == o.hash {
        return DONE;
      }
      var job := JobId(p.id, Plan(Prefix(o.hash)));
      if job !in jobs {
        Create(job);
        p.status := p.status.(phase := Planning);
        Update(p);
        return After(5 * SECOND);
      }
      r := HandlePlanJobStatus(p, job, o);
    }

    /** What both flows do for a hash that is applied. */
    method StayInSync(p: TofuProject, o: Obs) returns (r: Result)
      requires Saved(p)
      requires FirstDrift(o.listing, p.id).Some? ==> FirstDrift(o.listing, p.id).value in jobs
      modifies this, p
      ensures Reached(p, old(projects), InSync(old(View(p)), p.id, o).l)
      ensures r == InSync(old(View(p)), p.id, o).r
    {
      hide DriftStep, FirstDrift;
      if p.spec.driftInterval.Some? {
        r := ReconcileDriftDetection(p, o);
        return;
      }
      r := After(p.spec.syncInterval);
    }

    method ReconcilePlanApprove(p: TofuProject, o: Obs) returns (r: Result)
      requires Saved(p)
      requires FirstDrift(o.listing, p.id).Some? ==> FirstDrift(o.listing, p.id).value in jobs
      modifies this, p
      ensures Reached(p, old(projects), PlanStep(old(View(p)), p.id, o).l)
      ensures r == PlanStep(old(View(p)), p.id, o).r
    {
      hide PendingStep, Invalidated, InSync, FirstDrift;
      if p.status.lastAppliedHash == o.hash {
        r := StayInSync(p, o);
        return;
      }
      InvalidateStalePlan(p, o);
      r := ReconcilePending(p, o);
    }

    // ----- preparation -----

    /** hasActiveNamespaceJobs. */
    method HasActiveNamespaceJobs(ns: string, listing: seq<JobId>) returns (busy: bool)
      requires forall j :: j in listing <==> j in jobs
      ensures busy <==> NamespaceBusy(jobs, ns)
    {
      for i := 0 to |listing|
        invariant forall k :: 0 <= k < i ==> !(listing[k].project.ns == ns && IsActive(jobs, listing[k]))
      {
        if listing[i].project.ns == ns && jobs[listing[i]].outcome == Active {
          return true;
        }
      }
      busy := false;
    }

    method CheckJobLock(p: TofuProject, o: Obs) returns (locked: bool, r: Result)
      requires Saved(p) && forall j :: j in o.listing <==> j in jobs
      modifies this`projects, p
      ensures locked == LockStep(old(View(p)), p.id).Some?
      ensures locked ==> Reached(p, old(projects), LockStep(old(View(p)), p.id).value.l)
      ensures locked ==> r == LockStep(old(View(p)), p.id).value.r
      ensures !locked ==> Reached(p, old(projects), old(View(p)))
    {
      if p.spec.sharedCache {
        var busy := HasActiveNamespaceJobs(p.id.ns, o.listing);
        if busy {
          if p.status.phase != Queued {
            p.status := p.status.(phase := Queued);
            Update(p);
          }
          return true, After(5 * SECOND);
        }
        return false, DONE;
      }
      for i := 0 to |o.listing|
        invariant View(p) == old(View(p)) && projects == old(projects)
        invariant forall k :: 0 <= k < i ==>
                    !(o.listing[k].project == p.id && !o.listing[k].kind.Drift? && IsActive(jobs, o.listing[k]))
      {
        var j := o.listing[i];
        if j.project != p.id || j.kind.Drift? {
          continue;
        }
        if jobs[j].outcome == Active {
          p.status := p.status.(phase := Running);
          Update(p);
          return true, After(5 * SECOND);
        }
      }
      return false, DONE;
    }

    /** prepareReconcile: `ready` when the reconcile goes on with the main flow. */
    method PrepareReconcile(p: TofuProject, o: Obs) returns (ready: bool, r: Result)
      requires Saved(p) && forall j :: j in o.listing <==> j in jobs
      requires Params.AreOrders(o.orders, p.spec.inputs.dependencies)
      modifies this, p
      ensures ready <==> !ReturnsEarly(old(View(p)), p.id, old(projects), o)
      ensures ready ==> Reached(p, old(projects), old(View(p)).(tf := old(tf) + {p.id}))
      ensures !ready ==> Reached(p, old(projects), PreparedOut(old(View(p)), p.id, old(projects), o).l)
      ensures !ready ==> r == PreparedOut(old(View(p)), p.id, old(projects), o).r
    {
      if !o.program {
        p.status := p.status.(phase := Error);
        Update(p);
        return false, FAILED;
      }
      assert projects == projects[p.id := p.Value()];
      var res := ParamResolver.ResolveDependencies(o.sources, p.id.ns, Upstreams(projects), p.spec.inputs, o.orders);
      match res {
        case Unresolvable =>
          p.status := p.status.(phase := Error);
          Update(p);
          return false, FAILED;
        case Waiting =>
          p.status := p.status.(phase := WaitingDependency);
          Update(p);
          return false, After(15 * SECOND);
        case Resolved(_, _) =>
          tf := tf + {p.id};
          var locked;
          locked, r := CheckJobLock(p, o);
          ready := !locked;
      }
    }

    // ----- pinned revision -----

    method HandlePinnedJobResult(p: TofuProject, job: JobId, hash: string, o: Obs) returns (r: Result)
      requires Saved(p) && job in jobs
      modifies this`projects, p
      ensures Reached(p, old(projects), PinnedResult(old(View(p)), job, hash, o).l)
      ensures r == PinnedResult(old(View(p)), job, hash, o).r
    {
      if jobs[job].outcome == Success {
        p.status := p.status.(phase := Succeeded, lastAppliedHash := hash, retryCount := 0, driftDetected := false);
        if o.readable && o.outputs.Some? {
          p.status := p.status.(outputs := o.outputs.value);
        }
        Update(p);
        return DONE;
      }
      if jobs[job].outcome == Failure {
        p.status := p.status.(phase := Error);
        Update(p);
        return DONE;
      }
      p.status := p.status.(phase := Running);
      Update(p);
      r := After(5 * SECOND);
    }

    method HandlePinnedJob(p: TofuProject, hash: Digest, o: Obs) returns (r: Result)
      requires Saved(p)
      modifies this, p
      ensures Reached(p, old(projects), PinnedJobStep(old(View(p)), p.id, hash, o).l)
      ensures r == PinnedJobStep(old(View(p)), p.id, hash, o).r
    {
      hide PinnedResult;
      var job := JobId(p.id, Apply(Prefix(hash)));
      if job !in jobs {
        Create(job);
        p.status := p.status.(phase := Running);
        Update(p);
        return After(5 * SECOND);
      }
      r := HandlePinnedJobResult(p, job, hash, o);
    }

    method ReconcilePinned(p: TofuProject, o: Obs) returns (r: Result)
      requires Saved(p) && forall j :: j in o.listing <==> j in jobs
      modifies this, p
      ensures Reached(p, old(projects), PinnedStep(old(View(p)), p.id, o).l)
      ensures r == PinnedStep(old(View(p)), p.id, o).r
    {
      hide LockStep, PinnedJobStep, Revisions.LoadSnapshot;
      if p.spec.pinnedRevision <= 0 || !Revisions.LoadSnapshot(o.revisions, p.spec.pinnedRevision).Snapshot? {
        p.status := p.status.(phase := Error);
        Update(p);
        return DONE;
      }
      var hash := o.pinHash;
      if p.status.lastAppliedHash == hash {
        return DONE;
      }
      tf := tf + {p.id};
      var locked;
      locked, r := CheckJobLock(p, o);
      if !locked {
        r := HandlePinnedJob(p, hash, o);
      }
    }

    // ----- the reconcile -----

    /** Preparation and the flow it leads to. */
    method ReconcileMain(p: TofuProject, o: Obs) returns (r: Result)
      requires Saved(p) && forall j :: j in o.listing <==> j in jobs
      requires FirstDrift(o.listing, p.id).Some? ==> FirstDrift(o.listing, p.id).value in jobs
      requires Params.AreOrders(o.orders, p.spec.inputs.dependencies)
      modifies this, p
      ensures Reached(p, old(projects), MainStep(old(View(p)), p.id, old(projects), o).l)
      ensures r == Bounded(old(View(p)), p.id, old(projects), o)
    {
      hide AutoStep, PlanStep, LockStep, ReturnsEarly, PreparedOut, FirstDrift, Clamp;
      var ready;
      ready, r := PrepareReconcile(p, o);
      if !ready {
        return;
      }
      if p.spec.autoApprove {
        r := ReconcileAutoApprove(p, o);
      } else {
        r := ReconcilePlanApprove(p, o);
      }
      r := Clamp(p.Value(), o.now, r);
    }

    /** The part of handleLifecycle for a project that is not being deleted and has its finalizer. */
    method HandleLive(p: TofuProject, o: Obs) returns (done: bool, r: Result)
      requires Saved(p) && forall j :: j in o.listing <==> j in jobs
      modifies this, p
      ensures done == LiveStep(old(View(p)), p.id, o).Some?
      ensures done ==> Reached(p, old(projects), LiveStep(old(View(p)), p.id, o).value.l)
      ensures done ==> r == LiveStep(old(View(p)), p.id, o).value.r
      ensures !done ==> Reached(p, old(projects), Resumed(old(View(p))))
    {
      hide ForceUnlockStep, PinnedStep;
      if p.spec.ttl > 0 && o.now > p.created + p.spec.ttl {
        p.deleting := true;
        Update(p);
        return true, DONE;
      }
      if p.forceUnlock {
        r := HandleForceUnlock(p, o);
        return true, r;
      }
      if p.spec.suspend {
        if p.status.phase != Suspended {
          p.status := p.status.(phase := Suspended);
          Update(p);
        }
        return true, DONE;
      }
      if p.status.phase == Suspended {
        p.status := p.status.(phase := NoPhase);
        Update(p);
      }
      if p.spec.pinnedRevision > 0 {
        r := ReconcilePinned(p, o);
        return true, r;
      }
      return false, DONE;
    }

    /** handleLifecycle: `done` when the reconcile ends there. */
    method HandleLifecycle(p: TofuProject, o: Obs) returns (done: bool, r: Result)
      requires Saved(p) && forall j :: j in o.listing <==> j in jobs
      modifies this, p
      ensures done == LifecycleStep(old(View(p)), p.id, o).Some?
      ensures done ==> Reached(p, old(projects), LifecycleStep(old(View(p)), p.id, o).value.l)
      ensures done ==> r == LifecycleStep(old(View(p)), p.id, o).value.r
      ensures !done ==> Reached(p, old(projects), Resumed(Finalized(old(View(p)))))
    {
      hide DestroyStep, LiveStep, Resumed;
      if p.deleting {
        if p.finalizer {
          r := ReconcileDestroy(p, o);
          return true, r;
        }
        return true, DONE;
      }
      if !p.finalizer {
        p.finalizer := true;
        Update(p);
      }
      done, r := HandleLive(p, o);
    }

    method ReconcileProject(p: TofuProject, o: Obs) returns (r: Result)
      requires Saved(p) && forall j :: j in o.listing <==> j in jobs
      requires FirstDrift(o.listing, p.id).Some? ==> FirstDrift(o.listing, p.id).value in jobs
      requires Params.AreOrders(o.orders, p.spec.inputs.dependencies)
      modifies this, p
      ensures Reached(p, old(projects), LocalStep(old(View(p)), p.id, old(projects), o).l)
      ensures r == LocalStep(old(View(p)), p.id, old(projects), o).r
    {
      hide LifecycleStep, MainStep, Bounded, FirstDrift;
      var done;
      done, r := HandleLifecycle(p, o);
      if done {
        return;
      }
      OwnEntryIsIgnored(View(p), p.id, p.Value(), old(projects), o);
      r := ReconcileMain(p, o);
    }

    /** Reconcile: the project is read from the store, handled, and the store is what Protocol.Reconcile says. */
    method ReconcileRequest(id: Key, o: Obs) returns (r: Result)
      requires ValidObs(Store(), id, o)
      modifies this
      ensures Store() == Reconcile(old(Store()), id, o)
      ensures r == Answer(old(Store()), id, o)
    {
      if id !in projects {
        return DONE;
      }
      FirstDriftIsListed(o.listing, id);
      var p := new TofuProject(id, projects[id]);
      r := ReconcileProject(p, o);
    }
  }
}
