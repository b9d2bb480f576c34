/**
 An abstract machine for the controller: every reconcile first settles the project and then makes exactly one of
 eleven moves. The theorems about runs argue over these moves instead of the controller's branches.
 */
module Moves {
  import opened Wrappers
  import opened PlanLog
  import opened Api
  import opened Protocol
  import Params
  import Revisions

  datatype Move =
    | Wait                    // at most a phase, the lock mark, the unlock annotation, or the deletion after the TTL
    | Start(kind: Kind)       // one Job is created
    | Drop(job: JobId)        // a finished force-unlock Job or a stuck destroy Job is deleted
    | DriftDone(job: JobId)   // a finished drift Job is read and deleted
    | Retry                   // a failed apply Job is deleted to be created again
    | Applied                 // a succeeded apply Job is recorded
    | PinApplied              // a succeeded apply Job of the pinned revision is recorded
    | Planned                 // a succeeded plan is pending: waiting, approved by its size, or with a pull request
    | PRMerged                // the merged pull request approves the pending plan
    | PRRejected              // the closed pull request discards the pending plan
    | Release                 // the finalizer is removed

  // ----- guards -----

  ghost predicate UpstreamsReady(p: Project, id: Key, others: map<Key, Project>) {
    forall d :: d in p.spec.inputs.dependencies ==>
      && d.project.In(id.ns) in others[id := p]
      && others[id := p][d.project.In(id.ns)].status.phase == Succeeded
  }

  /** checkJobLock lets the project pass. */
  ghost predicate LockFree(l: Local, id: Key) {
    if l.p.spec.sharedCache then !NamespaceBusy(l.jobs, id.ns) else !ProjectBusy(l.jobs, id)
  }

  /** Past handleLifecycle and prepareReconcile. */
  ghost predicate InFlow(l: Local, id: Key, others: map<Key, Project>) {
    && !l.p.deleting && !l.p.forceUnlock && !l.p.spec.suspend && l.p.spec.pinnedRevision <= 0
    && id in l.tf
    && UpstreamsReady(l.p, id, others)
    && LockFree(l, id)
  }

  ghost predicate InPin(l: Local, id: Key) {
    !l.p.deleting && !l.p.forceUnlock && l.p.spec.pinnedRevision > 0 && id in l.tf && LockFree(l, id)
  }

  /** The flow may apply this hash. */
  ghost predicate MayApply(p: Project, o: Obs) {
    && p.status.lastAppliedHash != o.hash
    && (p.spec.autoApprove || (p.approvedHash == o.hash && !MustWait(p.spec, o.now)))
  }

  ghost predicate NoDriftJob(jobs: Jobs, id: Key) {
    forall j :: j in jobs ==> !(j.project == id && j.kind.Drift?)
  }

  ghost predicate MayStart(l: Local, id: Key, others: map<Key, Project>, o: Obs, k: Kind) {
    match k
    case Plan(x) =>
      && InFlow(l, id, others) && x == Prefix(o.hash)
      && !l.p.spec.autoApprove && l.p.status.lastAppliedHash != o.hash && l.p.approvedHash != o.hash
    case Apply(x) =>
      || (InFlow(l, id, others) && x == Prefix(o.hash) && MayApply(l.p, o))
      || (InPin(l, id) && PinnedHash(l.p, o).Some? && x == Prefix(o.pinHash) && l.p.status.lastAppliedHash != o.pinHash)
    case Drift(_) => InFlow(l, id, others) && l.p.status.lastAppliedHash == o.hash && NoDriftJob(l.jobs, id)
                     && l.p.spec.driftInterval.Some?
    case ForceUnlock =>
      && l.p.forceUnlock && !l.p.deleting
      && (forall j :: IsActive(l.jobs, j) && j.project == id ==> j.kind.ForceUnlock?)
    case Destroy => l.p.deleting && id in l.tf && (l.p.spec.deleteProtection ==> l.p.approvedDelete)
  }

  /** The pending plan is for another hash. */
  predicate Stale(p: Project, o: Obs) {
    p.status.pendingPlanHash != "" && p.status.pendingPlanHash != o.hash
  }

  ghost predicate Ended(jobs: Jobs, j: JobId, outcome: Outcome) {
    j in jobs && jobs[j].outcome == outcome
  }

  ghost predicate SelfApproves(l: Local, j: JobId, o: Obs)
    requires j in l.jobs
  {
    !l.p.spec.autoApprove && WithinThreshold(l.p.spec.maxBlastRadius, ReadPlan(LogOf(l, j, o)).radius)
  }

  // ----- moves -----

  /** Nothing that approval, retry, drift repair or deletion depends on has changed. */
  ghost predicate Quiet(p: Project, q: Project) {
    && q == p.(forceUnlock := q.forceUnlock,
               status := p.status.(phase := q.status.phase, stateLocked := q.status.stateLocked))
    && (q.status.phase == Succeeded ==> p.status.phase == Succeeded)
  }

  /** The project's TTL has passed. */
  predicate Outlived(p: Project, o: Obs) {
    p.spec.ttl > 0 && o.now > p.created + p.spec.ttl
  }

  ghost predicate SameStore(l: Local, m: Local) {
    m.jobs == l.jobs && m.tf == l.tf && m.prs == l.prs
  }

  ghost predicate DriftRead(p: Project, q: Project) {
    && q == p.(status := p.status.(phase := q.status.phase, lastAppliedHash := q.status.lastAppliedHash,
                                   lastDriftCheck := q.status.lastDriftCheck, driftDetected := q.status.driftDetected))
    && (q.status.phase == p.status.phase || q.status.phase == Succeeded)
    && (|| q.status.lastAppliedHash == p.status.lastAppliedHash
        || (q.status.lastAppliedHash == "" && q.status.driftDetected && p.spec.keepInSync))
  }

  /** The whole status after a recorded apply. The plan flow also clears the pending plan and its pull request. */
  ghost predicate AppliedTo(p: Project, q: Project, o: Obs) {
    q == p.(status := Status(
              Succeeded, o.hash, if p.spec.autoApprove then p.status.pendingPlanHash else "",
              if p.spec.autoApprove then p.status.pendingPR else 0, 0,
              if o.readable && o.outputs.Some? then o.outputs.value else p.status.outputs,
              if p.spec.driftInterval.Some? then Some(o.now) else p.status.lastDriftCheck, false, false))
  }

  ghost predicate PlannedTo(l: Local, id: Key, j: JobId, o: Obs, m: Local)
    requires j in l.jobs
  {
    && m.jobs == l.jobs && m.tf == l.tf
    && m.p == l.p.(approvedHash := m.p.approvedHash,
                   status := l.p.status.(pendingPlanHash := o.hash, pendingPR := m.p.status.pendingPR,
                                         phase := m.p.status.phase))
    && m.p.status.phase != Succeeded
    && m.p.approvedHash == (if SelfApproves(l, j, o) then o.hash else l.p.approvedHash)
    && (if m.prs == l.prs then
          && m.p.status.pendingPR == l.p.status.pendingPR
          && (l.p.spec.githubPR ==> m.p.approvedHash == o.hash || m.p.status.phase == Error)
        else
          && l.p.spec.githubPR && o.createdPR.Some? && m.p.status.pendingPR == o.createdPR.value
          && m.prs == l.prs[PRId(l.p.spec.repo, o.createdPR.value) := PullRequest(Some(PlanRef(id, o.hash)), Open)])
  }

  ghost predicate Makes(l: Local, id: Key, others: map<Key, Project>, o: Obs, v: Move, m: Local) {
    match v
    case Wait => SameStore(l, m) && (Quiet(l.p, m.p) || (Outlived(l.p, o) && m.p == l.p.(deleting := true)))
    case Start(k) =>
      && MayStart(l, id, others, o, k) && JobId(id, k) !in l.jobs
      && m.jobs == l.jobs[JobId(id, k) := Job(Active, "")] && m.tf == l.tf && m.prs == l.prs
      && Quiet(l.p, m.p)
    case Drop(j) =>
      && j in l.jobs && j.project == id
      && (j.kind.ForceUnlock?
          || (j.kind.Destroy? && l.jobs[j].outcome == Active && l.p.spec.resourceTimeout > 0 && o.stuck))
      && m.jobs == l.jobs - {j} && m.tf == l.tf && m.prs == l.prs
      && Quiet(l.p, m.p)
    case DriftDone(j) =>
      && InFlow(l, id, others) && l.p.status.lastAppliedHash == o.hash && l.p.spec.driftInterval.Some?
      && j in l.jobs && j.project == id && j.kind.Drift? && l.jobs[j].outcome != Active
      && m.jobs == l.jobs - {j} && m.tf == l.tf && m.prs == l.prs
      && DriftRead(l.p, m.p)
    case Retry =>
      var j := JobId(id, Apply(Prefix(o.hash)));
      && InFlow(l, id, others) && MayApply(l.p, o) && Ended(l.jobs, j, Failure)
      && l.p.spec.retry.Some? && l.p.status.retryCount < l.p.spec.retry.value.maxRetries
      && m.jobs == l.jobs - {j} && m.tf == l.tf && m.prs == l.prs
      && m.p == l.p.(status := l.p.status.(retryCount := l.p.status.retryCount + 1, phase := Retrying))
    case Applied =>
      && InFlow(l, id, others) && MayApply(l.p, o) && Ended(l.jobs, JobId(id, Apply(Prefix(o.hash))), Success)
      && SameStore(l, m) && AppliedTo(l.p, m.p, o)
    case PinApplied =>
      && InPin(l, id) && PinnedHash(l.p, o).Some? && Ended(l.jobs, JobId(id, Apply(Prefix(o.pinHash))), Success)
      && SameStore(l, m)
      && m.p == l.p.(status := m.p.status)
      && m.p.status.pendingPlanHash == l.p.status.pendingPlanHash && m.p.status.pendingPR == l.p.status.pendingPR
    case Planned =>
      var j := JobId(id, Plan(Prefix(o.hash)));
      && InFlow(l, id, others) && !l.p.spec.autoApprove && Ended(l.jobs, j, Success) && !Stale(l.p, o)
      && l.p.approvedHash != o.hash && l.p.status.lastAppliedHash != o.hash
      && !(l.p.status.phase == WaitingApproval && l.p.status.pendingPlanHash == o.hash)
      && !(l.p.spec.githubPR && l.p.status.pendingPR > 0 && l.p.status.pendingPlanHash == o.hash)
      && PlannedTo(l, id, j, o, m)
    case PRMerged =>
      && InFlow(l, id, others) && l.p.spec.githubPR && l.p.status.pendingPlanHash == o.hash
      && l.p.status.pendingPR > 0 && PendingPR(l.p) in l.prs && l.prs[PendingPR(l.p)].state == PRState.Merged
      && SameStore(l, m)
      && m.p == l.p.(approvedHash := o.hash, status := l.p.status.(pendingPR := 0))
    case PRRejected =>
      && InFlow(l, id, others) && l.p.spec.githubPR && l.p.status.pendingPlanHash == o.hash
      && l.p.status.pendingPR > 0 && PendingPR(l.p) in l.prs && l.prs[PendingPR(l.p)].state == Closed
      && SameStore(l, m)
      && m.p == l.p.(status := l.p.status.(pendingPR := 0, pendingPlanHash := "", phase := PlanRejected))
    case Release =>
      && l.p.deleting && (l.p.spec.deleteProtection ==> l.p.approvedDelete)
      && (id !in l.tf || Ended(l.jobs, JobId(id, Destroy), Success))
      && SameStore(l, m)
      && m.p == l.p.(finalizer := false)
  }

  // ----- settling -----

  /** What a reconcile does before its move: finalizer, suspension lifted, a stale plan dropped. */
  ghost predicate Settles(p: Project, q: Project, o: Obs) {
    && q == p.(finalizer := q.finalizer, approvedHash := q.approvedHash,
               status := p.status.(phase := q.status.phase, pendingPlanHash := q.status.pendingPlanHash,
                                   pendingPR := q.status.pendingPR))
    && q.finalizer == (p.finalizer || !p.deleting)
    && (q.status.phase == p.status.phase || q.status.phase == NoPhase)
    && (|| (q.approvedHash == p.approvedHash && q.status.pendingPlanHash == p.status.pendingPlanHash
            && q.status.pendingPR == p.status.pendingPR)
        || (Stale(p, o) && !p.deleting
            && q.approvedHash == (if p.approvedHash == o.hash then o.hash else "") && q.status.pendingPlanHash == ""
            && q.status.pendingPR == (if p.spec.githubPR then 0 else p.status.pendingPR)))
  }

  /** Between the stored state and the move. */
  ghost predicate Settled(l: Local, id: Key, o: Obs, b: Local) {
    && Settles(l.p, b.p, o)
    && (b.jobs == l.jobs || (l.p.forceUnlock && !l.p.deleting && b.jobs == KillActive(l.jobs, id)))
    && (b.tf == l.tf || b.tf == l.tf + {id})
    && (b.prs == l.prs || b.prs == ClosedPR(l.prs, PendingPR(l.p), o))
  }

  // ----- each handler makes one move -----

  lemma DestroyMoves(l: Local, id: Key, others: map<Key, Project>, o: Obs) returns (v: Move)
    requires l.p.deleting
    ensures Makes(l, id, others, o, v, DestroyStep(l, id, o).l)
  {
    hide InFlow, InPin, PlannedTo, AppliedTo, DriftRead, MayApply;
    var j := JobId(id, Destroy);
    v := if l.p.spec.deleteProtection && !l.p.approvedDelete then Wait
         else if id !in l.tf then Release
         else if j !in l.jobs then Start(Destroy)
         else if l.jobs[j].outcome == Success then Release
         else if l.jobs[j].outcome == Active && l.p.spec.resourceTimeout > 0 && o.stuck then Drop(j)
         else Wait;
  }

  lemma UnlockMoves(l: Local, id: Key, others: map<Key, Project>, o: Obs) returns (v: Move)
    requires l.p.forceUnlock && !l.p.deleting
    requires forall j :: IsActive(l.jobs, j) && j.project == id ==> j.kind.ForceUnlock?
    ensures Makes(l, id, others, o, v, UnlockJobStep(l, id).l)
    ensures v == Start(ForceUnlock) <==> id in l.tf && JobId(id, ForceUnlock) !in l.jobs
    ensures var m, j := UnlockJobStep(l, id).l, JobId(id, ForceUnlock);
            && (m.p.forceUnlock <==> id in l.tf && (j in l.jobs ==> l.jobs[j].outcome == Active))
            && (m.p.status.stateLocked <==>
                l.p.status.stateLocked && id in l.tf && (j in l.jobs ==> l.jobs[j].outcome != Success))
  {
    hide InFlow, InPin, PlannedTo, AppliedTo, DriftRead, MayApply, Ended;
    var j := JobId(id, ForceUnlock);
    v := if id !in l.tf then Wait
         else if j !in l.jobs then Start(ForceUnlock)
         else if l.jobs[j].outcome == Success then Drop(j)
         else Wait;
  }

  lemma LockMeansFree(l: Local, id: Key)
    ensures LockStep(l, id).None? <==> LockFree(l, id)
    ensures LockStep(l, id).Some? ==> SameStore(l, LockStep(l, id).value.l) && Quiet(l.p, LockStep(l, id).value.l.p)
  {
    hide NamespaceBusy, ProjectBusy;
  }

  lemma PinnedResultMoves(l: Local, id: Key, others: map<Key, Project>, o: Obs) returns (v: Move)
    requires InPin(l, id) && PinnedHash(l.p, o).Some? && JobId(id, Apply(Prefix(o.pinHash))) in l.jobs
    ensures Makes(l, id, others, o, v, PinnedResult(l, JobId(id, Apply(Prefix(o.pinHash))), o.pinHash, o).l)
  {
    hide InFlow, InPin, PinnedHash, PlannedTo, AppliedTo, DriftRead, MayApply, MayStart;
    v := if l.jobs[JobId(id, Apply(Prefix(o.pinHash)))].outcome == Success then PinApplied else Wait;
  }

  lemma PinnedJobMoves(l: Local, id: Key, others: map<Key, Project>, o: Obs) returns (v: Move)
    requires InPin(l, id) && PinnedHash(l.p, o).Some? && l.p.status.lastAppliedHash != o.pinHash
    ensures Makes(l, id, others, o, v, PinnedJobStep(l, id, o.pinHash, o).l)
  {
    hide InFlow, InPin, PinnedHash, PinnedResult, PlannedTo, AppliedTo, DriftRead, MayApply, Ended;
    var j := JobId(id, Apply(Prefix(o.pinHash)));
    if j !in l.jobs {
      v := Start(j.kind);
    } else {
      v := PinnedResultMoves(l, id, others, o);
    }
  }

  lemma PinMoves(l: Local, id: Key, others: map<Key, Project>, o: Obs) returns (b: Local, v: Move)
    requires !l.p.deleting && !l.p.forceUnlock && l.p.spec.pinnedRevision > 0
    ensures b == l || b == l.(tf := l.tf + {id})
    ensures Makes(b, id, others, o, v, PinnedStep(l, id, o).l)
  {
    hide LockStep, LockFree, PinnedJobStep, Revisions.LoadSnapshot, InFlow, PlannedTo, AppliedTo, DriftRead, MayApply,
         MayStart, Ended;
    b, v := l, Wait;
    if PinnedHash(l.p, o).Some? && l.p.status.lastAppliedHash != o.pinHash {
      b := l.(tf := l.tf + {id});
      LockMeansFree(b, id);
      if LockStep(b, id).None? {
        v := PinnedJobMoves(b, id, others, o);
      }
    }
  }

  lemma UnfinishedMoves(l: Local, id: Key, others: map<Key, Project>, o: Obs) returns (v: Move)
    requires InFlow(l, id, others) && MayApply(l.p, o)
    requires var j := JobId(id, Apply(Prefix(o.hash))); j in l.jobs && l.jobs[j].outcome != Success
    ensures Makes(l, id, others, o, v, ApplyUnfinished(l, JobId(id, Apply(Prefix(o.hash))), o).l)
  {
    hide InFlow, InPin, PlannedTo, AppliedTo, DriftRead, MayApply, MayStart, IsStateLockError;
    var j := JobId(id, Apply(Prefix(o.hash)));
    OwnJobHoldsLock(l, id, others, j);
    v := if j in ApplyUnfinished(l, j, o).l.jobs then Wait else Retry;
  }

  /** Past preparation no Job of the project is active but drift Jobs: preparation would have stopped at its lock. */
  lemma OwnJobHoldsLock(l: Local, id: Key, others: map<Key, Project>, j: JobId)
    requires InFlow(l, id, others) && j.project == id && !j.kind.Drift?
    ensures !IsActive(l.jobs, j)
  {
    hide UpstreamsReady;
    assert j in l.jobs && j.project.ns == id.ns ==> IsActive(l.jobs, j) ==> NamespaceBusy(l.jobs, id.ns);
  }

  lemma ApplyMoves(l: Local, id: Key, others: map<Key, Project>, o: Obs) returns (v: Move)
    requires InFlow(l, id, others) && MayApply(l.p, o) && !l.p.spec.autoApprove
    ensures Makes(l, id, others, o, v, ApplyApproved(l, id, o).l)
  {
    hide InFlow, MayApply, ApplyUnfinished;
    var j := JobId(id, Apply(Prefix(o.hash)));
    if j !in l.jobs {
      v := Start(j.kind);
    } else if l.jobs[j].outcome == Success {
      v := Applied;
    } else {
      v := UnfinishedMoves(l, id, others, o);
    }
  }

  lemma ApprovedMoves(l: Local, id: Key, others: map<Key, Project>, o: Obs) returns (v: Move)
    requires InFlow(l, id, others) && l.p.status.lastAppliedHash != o.hash
    requires l.p.approvedHash == o.hash && !l.p.spec.autoApprove
    ensures Makes(l, id, others, o, v, ApprovedStep(l, id, o).l)
  {
    hide InFlow, MustWait, ApplyApproved;
    if MustWait(l.p.spec, o.now) {
      v := Wait;
    } else {
      v := ApplyMoves(l, id, others, o);
    }
  }

  lemma AutoApplyMoves(l: Local, id: Key, others: map<Key, Project>, o: Obs) returns (v: Move)
    requires InFlow(l, id, others) && MayApply(l.p, o) && l.p.spec.autoApprove
    requires JobId(id, Apply(Prefix(o.hash))) in l.jobs
    ensures Makes(l, id, others, o, v, AutoApplyResult(l, JobId(id, Apply(Prefix(o.hash))), o).l)
  {
    hide InFlow, MayApply, ApplyUnfinished;
    if l.jobs[JobId(id, Apply(Prefix(o.hash)))].outcome == Success {
      v := Applied;
    } else {
      v := UnfinishedMoves(l, id, others, o);
    }
  }

  lemma DriftJobReads(l: Local, j: JobId, interval: int, o: Obs)
    requires j in l.jobs && l.jobs[j].outcome != Active
    ensures var m := DriftJobStep(l, j, interval, o).l;
            m.jobs == l.jobs - {j} && m.tf == l.tf && m.prs == l.prs && DriftRead(l.p, m.p)
  {
    hide DriftChecked;
    DriftReads(l, j, o);
  }

  lemma DriftJobMoves(l: Local, id: Key, others: map<Key, Project>, j: JobId, interval: int, o: Obs) returns (v: Move)
    requires InFlow(l, id, others) && l.p.status.lastAppliedHash == o.hash && l.p.spec.driftInterval.Some?
    requires j in l.jobs && j.project == id && j.kind.Drift?
    ensures Makes(l, id, others, o, v, DriftJobStep(l, j, interval, o).l)
  {
    if l.jobs[j].outcome == Active {
      WaitMakes(l, id, others, o);
      v := Wait;
    } else {
      hide InFlow, InPin, PlannedTo, AppliedTo, DriftRead, MayApply, MayStart, Ended, DriftJobStep;
      DriftJobReads(l, j, interval, o);
      v := DriftDone(j);
    }
  }

  lemma DriftMoves(l: Local, id: Key, others: map<Key, Project>, o: Obs) returns (v: Move)
    requires InFlow(l, id, others) && l.p.status.lastAppliedHash == o.hash && l.p.spec.driftInterval.Some?
    requires forall j :: j in o.listing <==> j in l.jobs
    ensures FirstDrift(o.listing, id).Some? ==> FirstDrift(o.listing, id).value in l.jobs
    ensures Makes(l, id, others, o, v, DriftStep(l, id, o).l)
  {
    hide InFlow, FirstDrift, DriftJobStep;
    FirstDriftIsListed(o.listing, id);
    var last := l.p.status.lastDriftCheck;
    var d := FirstDrift(o.listing, id);
    if last.Some? && o.now - last.value < l.p.spec.driftInterval.value {
      v := Wait;
    } else if d.None? {
      v := Start(Drift(o.now / SECOND));
    } else {
      v := DriftJobMoves(l, id, others, d.value, l.p.spec.driftInterval.value, o);
    }
  }

  lemma DriftReads(l: Local, j: JobId, o: Obs)
    requires j in l.jobs
    ensures SameStore(l, DriftChecked(l, j, o)) && DriftRead(l.p, DriftChecked(l, j, o).p)
    ensures DriftChecked(l, j, o).p.status.lastAppliedHash == l.p.status.lastAppliedHash
  {
    hide ExtractPlanSummary;
  }

  lemma SyncMoves(l: Local, id: Key, others: map<Key, Project>, o: Obs) returns (v: Move)
    requires InFlow(l, id, others) && l.p.status.lastAppliedHash == o.hash
    requires forall j :: j in o.listing <==> j in l.jobs
    ensures FirstDrift(o.listing, id).Some? ==> FirstDrift(o.listing, id).value in l.jobs
    ensures Makes(l, id, others, o, v, InSync(l, id, o).l)
  {
    hide InFlow, FirstDrift, DriftStep;
    if l.p.spec.driftInterval.Some? {
      v := DriftMoves(l, id, others, o);
    } else {
      FirstDriftIsListed(o.listing, id);
      v := Wait;
    }
  }

  lemma AutoMoves(l: Local, id: Key, others: map<Key, Project>, o: Obs) returns (v: Move)
    requires InFlow(l, id, others) && l.p.spec.autoApprove
    requires forall j :: j in o.listing <==> j in l.jobs
    ensures FirstDrift(o.listing, id).Some? ==> FirstDrift(o.listing, id).value in l.jobs
    ensures Makes(l, id, others, o, v, AutoStep(l, id, o).l)
  {
    hide InFlow, FirstDrift, InSync, AutoApplyResult;
    FirstDriftIsListed(o.listing, id);
    if l.p.status.lastAppliedHash == o.hash {
      v := SyncMoves(l, id, others, o);
    } else if JobId(id, Apply(Prefix(o.hash))) !in l.jobs {
      v := Start(Apply(Prefix(o.hash)));
    } else {
      v := AutoApplyMoves(l, id, others, o);
    }
  }

  lemma PullRequestCases(l: Local, o: Obs)
    ensures var s := l.p.status;
            PRStep(l, o).l ==
            if !o.prAnswers || PendingPR(l.p) !in l.prs || l.prs[PendingPR(l.p)].state == Open then l
            else if l.prs[PendingPR(l.p)].state == Merged then
              l.(p := l.p.(approvedHash := o.hash, status := s.(pendingPR := 0)))
            else l.(p := l.p.(status := s.(pendingPR := 0, pendingPlanHash := "", phase := PlanRejected)))
  {
  }

  lemma PullRequestMoves(l: Local, id: Key, others: map<Key, Project>, o: Obs) returns (v: Move)
    requires InFlow(l, id, others) && l.p.spec.githubPR && l.p.status.pendingPlanHash == o.hash
    requires l.p.status.pendingPR > 0
    ensures Makes(l, id, others, o, v, PRStep(l, o).l)
  {
    hide InFlow, InPin, PlannedTo, AppliedTo, DriftRead, MayApply, MayStart, Ended, PRStep;
    PullRequestCases(l, o);
    var s := l.p.status;
    if !o.prAnswers || PendingPR(l.p) !in l.prs || l.prs[PendingPR(l.p)].state == Open {
      v := Wait;
    } else {
      v := if l.prs[PendingPR(l.p)].state == Merged then PRMerged else PRRejected;
    }
  }

  /** The plan of the current hash is pending, nothing else of it is saved yet. */
  function Reported(l: Local, o: Obs): Local {
    WithStatus(l, l.p.status.(pendingPlanHash := o.hash))
  }

  lemma SmallPlanMoves(l: Local, id: Key, j: JobId, o: Obs)
    requires j in l.jobs && SelfApproves(l, j, o)
    ensures PlannedTo(l, id, j, o, SelfApproved(Reported(l, o), o).l)
  {
    hide MustWait, SelfApproves;
  }

  lemma OpenedPlanMoves(l: Local, id: Key, j: JobId, o: Obs)
    requires j in l.jobs && !SelfApproves(l, j, o) && l.p.spec.githubPR && FreshPR(l, o)
    ensures PlannedTo(l, id, j, o, OpenPR(Reported(l, o), id, o).l)
  {
    hide SelfApproves;
    if o.createdPR.Some? {
      assert PRId(l.p.spec.repo, o.createdPR.value) in OpenPR(Reported(l, o), id, o).l.prs;
    }
  }

  lemma WaitingPlanMoves(l: Local, id: Key, j: JobId, o: Obs)
    requires j in l.jobs && !SelfApproves(l, j, o) && !l.p.spec.githubPR
    ensures PlannedTo(l, id, j, o, WithPhase(Reported(l, o), WaitingApproval))
  {
    hide SelfApproves;
  }

  lemma SuccessMoves(l: Local, id: Key, o: Obs)
    requires !l.p.spec.autoApprove && JobId(id, Plan(Prefix(o.hash))) in l.jobs
    requires FreshPR(l, o)
    ensures var j := JobId(id, Plan(Prefix(o.hash)));
            PlannedTo(l, id, j, o, PlanSucceeded(l, id, j, o).l)
  {
    hide ReadPlan, WithinThreshold, LogOf, SelfApproved, OpenPR, FreshPR, PlannedTo;
    var j := JobId(id, Plan(Prefix(o.hash)));
    if SelfApproves(l, j, o) {
      SmallPlanMoves(l, id, j, o);
    } else if l.p.spec.githubPR {
      OpenedPlanMoves(l, id, j, o);
    } else {
      WaitingPlanMoves(l, id, j, o);
    }
  }

  lemma PlanUnfinishedMoves(l: Local, id: Key, others: map<Key, Project>, o: Obs) returns (v: Move)
    requires InFlow(l, id, others)
    requires var j := JobId(id, Plan(Prefix(o.hash))); j in l.jobs && l.jobs[j].outcome != Success
    ensures Makes(l, id, others, o, v, PlanResult(l, id, JobId(id, Plan(Prefix(o.hash))), o).l)
  {
    hide InFlow, InPin, AppliedTo, DriftRead, MayApply, MayStart, Ended, PlanSucceeded, PlannedTo, IsStateLockError,
         Tail, LogOf;
    OwnJobHoldsLock(l, id, others, JobId(id, Plan(Prefix(o.hash))));
    v := Wait;
  }

  lemma PlanMoves(l: Local, id: Key, others: map<Key, Project>, o: Obs) returns (v: Move)
    requires InFlow(l, id, others) && !l.p.spec.autoApprove && JobId(id, Plan(Prefix(o.hash))) in l.jobs
    requires l.p.approvedHash != o.hash && l.p.status.lastAppliedHash != o.hash
    requires !(l.p.status.phase == WaitingApproval && l.p.status.pendingPlanHash == o.hash)
    requires !(l.p.spec.githubPR && l.p.status.pendingPR > 0 && l.p.status.pendingPlanHash == o.hash) && !Stale(l.p, o)
    requires FreshPR(l, o)
    ensures Makes(l, id, others, o, v, PlanResult(l, id, JobId(id, Plan(Prefix(o.hash))), o).l)
  {
    hide InFlow, PlanSucceeded, PlannedTo, IsStateLockError, Tail, LogOf;
    if l.jobs[JobId(id, Plan(Prefix(o.hash)))].outcome == Success {
      SuccessMoves(l, id, o);
      v := Planned;
    } else {
      v := PlanUnfinishedMoves(l, id, others, o);
    }
  }

  lemma StartPlanMakes(l: Local, id: Key, others: map<Key, Project>, o: Obs)
    requires InFlow(l, id, others) && !l.p.spec.autoApprove && l.p.status.lastAppliedHash != o.hash
    requires l.p.approvedHash != o.hash && JobId(id, Plan(Prefix(o.hash))) !in l.jobs
    ensures var k := Plan(Prefix(o.hash));
            Makes(l, id, others, o, Start(k), WithPhase(Created(l, JobId(id, k)), Planning))
  {
    hide InFlow, InPin, PlannedTo, AppliedTo, DriftRead, MayApply, Ended;
  }

  lemma WaitMakes(l: Local, id: Key, others: map<Key, Project>, o: Obs)
    ensures Makes(l, id, others, o, Wait, l)
  {
    hide InFlow, InPin, PlannedTo, AppliedTo, DriftRead, MayApply, MayStart, Ended;
  }

  lemma PendingMoves(l: Local, id: Key, others: map<Key, Project>, o: Obs) returns (v: Move)
    requires InFlow(l, id, others) && !l.p.spec.autoApprove && l.p.status.lastAppliedHash != o.hash && !Stale(l.p, o)
    requires FreshPR(l, o)
    ensures Makes(l, id, others, o, v, PendingStep(l, id, o).l)
  {
    hide InFlow, ApprovedStep, PRStep, PlanResult, Makes, WithPhase, Created;
    var s := l.p.status;
    if l.p.approvedHash == o.hash {
      v := ApprovedMoves(l, id, others, o);
    } else if l.p.spec.githubPR && s.pendingPR > 0 && s.pendingPlanHash == o.hash {
      v := PullRequestMoves(l, id, others, o);
    } else if s.phase == WaitingApproval && s.pendingPlanHash == o.hash {
      v := Wait;
      WaitMakes(l, id, others, o);
    } else if JobId(id, Plan(Prefix(o.hash))) !in l.jobs {
      v := Start(Plan(Prefix(o.hash)));
      StartPlanMakes(l, id, others, o);
    } else {
      v := PlanMoves(l, id, others, o);
    }
  }

  // ----- the whole reconcile -----

  lemma {:induction false} TakenUpstreamsSucceeded(ns: string, ups: map<Key, Params.Upstream>, deps: seq<Dependency>,
                                                   orders: seq<seq<string>>, p: Params.Progress)
    requires Params.AreOrders(orders, deps) && Params.TakeDependencies(ns, ups, deps, orders, p).Going?
    ensures forall d :: d in deps ==> d.project.In(ns) in ups && ups[d.project.In(ns)].succeeded
  {
    if deps != [] {
      var n := |deps| - 1;
      TakenUpstreamsSucceeded(ns, ups, deps[..n], orders[..n], p);
      assert deps == deps[..n] + [deps[n]];
    }
  }

  lemma NotEarlyMeansInFlow(l: Local, id: Key, others: map<Key, Project>, o: Obs)
    requires Params.AreOrders(o.orders, l.p.spec.inputs.dependencies)
    requires !ReturnsEarly(l, id, others, o)
    requires !l.p.deleting && !l.p.forceUnlock && !l.p.spec.suspend && l.p.spec.pinnedRevision <= 0
    ensures InFlow(l.(tf := l.tf + {id}), id, others)
  {
    hide Params.AreOrders, Params.TakeDependencies, Params.ExternalLayers, LockStep, LockFree;
    LockMeansFree(l, id);
    LockMeansFree(l.(tf := l.tf + {id}), id);
    assert LockFree(l, id) == LockFree(l.(tf := l.tf + {id}), id) by { FreeIgnoresConfigMaps(l, id); }
    var spec, ups := l.p.spec.inputs, Upstreams(others[id := l.p]);
    var layers := Params.ExternalLayers(o.sources, id.ns, spec).value;
    var start := Params.Going(Params.Overlay(layers) + spec.params, []);
    TakenUpstreamsSucceeded(id.ns, ups, spec.dependencies, o.orders, start);
  }

  lemma FreeIgnoresConfigMaps(l: Local, id: Key)
    ensures LockFree(l, id) == LockFree(l.(tf := l.tf + {id}), id)
  {
  }

  lemma InvalidatedSettles(l: Local, id: Key, others: map<Key, Project>, o: Obs)
    requires InFlow(l, id, others) && l.p.finalizer
    ensures InFlow(Invalidated(l, o), id, others)
    ensures Settled(l, id, o, Invalidated(l, o))
    ensures Invalidated(l, o).prs.Keys == l.prs.Keys
  {
    hide NamespaceBusy, ProjectBusy, KillActive;
  }

  lemma PlanFlowMoves(l: Local, id: Key, others: map<Key, Project>, o: Obs) returns (b: Local, v: Move)
    requires InFlow(l, id, others) && !l.p.spec.autoApprove && l.p.finalizer
    requires forall j :: j in o.listing <==> j in l.jobs
    requires FreshPR(l, o)
    ensures FirstDrift(o.listing, id).Some? ==> FirstDrift(o.listing, id).value in l.jobs
    ensures Settled(l, id, o, b)
    ensures Makes(b, id, others, o, v, PlanStep(l, id, o).l)
  {
    hide InFlow, FirstDrift, InSync, PendingStep, Invalidated, Makes;
    FirstDriftIsListed(o.listing, id);
    if l.p.status.lastAppliedHash == o.hash {
      b := l;
      v := SyncMoves(l, id, others, o);
    } else {
      b := Invalidated(l, o);
      InvalidatedSettles(l, id, others, o);
      InvalidatedKeeps(l, o);
      v := PendingMoves(b, id, others, o);
    }
  }

  lemma InvalidatedKeeps(l: Local, o: Obs)
    ensures var b := Invalidated(l, o);
            && b.p.spec == l.p.spec && b.p.status.lastAppliedHash == l.p.status.lastAppliedHash
            && !Stale(b.p, o)
  {
  }

  lemma MainMoves(l: Local, id: Key, others: map<Key, Project>, o: Obs) returns (b: Local, v: Move)
    requires Params.AreOrders(o.orders, l.p.spec.inputs.dependencies)
    requires !l.p.deleting && !l.p.forceUnlock && !l.p.spec.suspend && l.p.spec.pinnedRevision <= 0 && l.p.finalizer
    requires forall j :: j in o.listing <==> j in l.jobs
    requires FreshPR(l, o)
    ensures FirstDrift(o.listing, id).Some? ==> FirstDrift(o.listing, id).value in l.jobs
    ensures Settled(l, id, o, b)
    ensures Makes(b, id, others, o, v, MainStep(l, id, others, o).l)
  {
    hide InFlow, FirstDrift, AutoStep, PlanStep, Makes, ReturnsEarly, Params.AreOrders, PreparedOut;
    FirstDriftIsListed(o.listing, id);
    if ReturnsEarly(l, id, others, o) {
      b, v := EarlyMoves(l, id, others, o);
    } else {
      NotEarlyMeansInFlow(l, id, others, o);
      b := l.(tf := l.tf + {id});
      if l.p.spec.autoApprove {
        v := AutoMoves(b, id, others, o);
      } else {
        b, v := PlanFlowMoves(b, id, others, o);
      }
    }
  }

  lemma EarlyMoves(l: Local, id: Key, others: map<Key, Project>, o: Obs) returns (b: Local, v: Move)
    requires Params.AreOrders(o.orders, l.p.spec.inputs.dependencies)
    requires ReturnsEarly(l, id, others, o)
    ensures b == l || b == l.(tf := l.tf + {id})
    ensures Makes(b, id, others, o, v, PreparedOut(l, id, others, o).l)
  {
    hide InFlow, Params.AreOrders, Params.Resolve;
    LockMeansFree(l.(tf := l.tf + {id}), id);
    var ups := Upstreams(others[id := l.p]);
    b := if o.program && Params.Resolve(o.sources, id.ns, ups, l.p.spec.inputs, o.orders).Resolved?
         then l.(tf := l.tf + {id}) else l;
    v := Wait;
  }

  lemma UnlockFlowMoves(l: Local, id: Key, others: map<Key, Project>, o: Obs) returns (b: Local, v: Move)
    requires l.p.forceUnlock && !l.p.deleting && l.p.finalizer
    ensures b == l.(jobs := KillActive(l.jobs, id))
    ensures Settled(l, id, o, b)
    ensures Makes(b, id, others, o, v, ForceUnlockStep(l, id).l)
  {
    hide Makes, UnlockJobStep;
    b := l.(jobs := KillActive(l.jobs, id));
    v := UnlockMoves(b, id, others, o);
  }

  lemma OtherMovesDeleteNothing(b: Local, id: Key, others: map<Key, Project>, o: Obs, v: Move, m: Local)
    requires Makes(b, id, others, o, v, m) && !Outlived(b.p, o)
    ensures m.p.deleting == b.p.deleting
  {
    hide InFlow, InPin, MayApply, MayStart, Ended, SelfApproves, Outlived;
  }

  /** handleLifecycle of a live project, then the main flow. */
  lemma LiveMoves(l: Local, id: Key, others: map<Key, Project>, o: Obs) returns (b: Local, v: Move)
    requires Params.AreOrders(o.orders, l.p.spec.inputs.dependencies)
    requires !l.p.deleting && l.p.finalizer
    requires forall j :: j in o.listing <==> j in l.jobs
    requires FreshPR(l, o)
    ensures FirstDrift(o.listing, id).Some? ==> FirstDrift(o.listing, id).value in l.jobs
    ensures LiveStep(l, id, o).Some? ==> Settled(l, id, o, b) && Makes(b, id, others, o, v, LiveStep(l, id, o).value.l)
    ensures LiveStep(l, id, o).None? ==>
              && Settled(Resumed(l), id, o, b)
              && Makes(b, id, others, o, v, MainStep(Resumed(l), id, others, o).l)
    ensures Outlived(l.p, o) <==> LiveStep(l, id, o).Some? && LiveStep(l, id, o).value.l.p.deleting
  {
    hide FirstDrift, Params.AreOrders, ForceUnlockStep, PinnedStep, MainStep, KillActive, InFlow, InPin, MayStart,
         ClosedPR;
    FirstDriftIsListed(o.listing, id);
    if Expired(l.p, o.now) {
      b, v := l, Wait;
    } else if l.p.forceUnlock {
      b, v := UnlockFlowMoves(l, id, others, o);
      OtherMovesDeleteNothing(b, id, others, o, v, ForceUnlockStep(l, id).l);
    } else if l.p.spec.suspend {
      b, v := l, Wait;
    } else if l.p.spec.pinnedRevision > 0 {
      b, v := PinMoves(Resumed(l), id, others, o);
      OtherMovesDeleteNothing(b, id, others, o, v, PinnedStep(Resumed(l), id, o).l);
    } else {
      b, v := MainMoves(Resumed(l), id, others, o);
    }
  }

  lemma FinalizingSettles(l: Local, id: Key, o: Obs, b: Local)
    requires !l.p.deleting
    requires Settled(Finalized(l), id, o, b) || Settled(Resumed(Finalized(l)), id, o, b)
    ensures Settled(l, id, o, b)
  {
    hide KillActive, ClosedPR;
  }

  lemma LocalMoves(l: Local, id: Key, others: map<Key, Project>, o: Obs) returns (b: Local, v: Move)
    requires Params.AreOrders(o.orders, l.p.spec.inputs.dependencies)
    requires forall j :: j in o.listing <==> j in l.jobs
    requires FreshPR(l, o)
    ensures FirstDrift(o.listing, id).Some? ==> FirstDrift(o.listing, id).value in l.jobs
    ensures Settled(l, id, o, b)
    ensures Makes(b, id, others, o, v, LocalStep(l, id, others, o).l)
  {
    hide FirstDrift, Params.AreOrders, LiveStep, DestroyStep, MainStep, Bounded, InFlow, InPin, MayStart, KillActive,
         ClosedPR, Resumed;
    FirstDriftIsListed(o.listing, id);
    if !l.p.deleting {
      b, v := LiveMoves(Finalized(l), id, others, o);
      FinalizingSettles(l, id, o, b);
    } else if l.p.finalizer {
      b := l;
      v := DestroyMoves(l, id, others, o);
    } else {
      b, v := l, Wait;
    }
  }

  /** Every reconcile of a stored project settles it and makes one move. */
  lemma ReconcileMoves(w: World, id: Key, o: Obs) returns (b: Local, v: Move)
    requires ValidObs(w, id, o) && id in w.projects
    ensures var w' := Reconcile(w, id, o);
            && id in w'.projects && w' == Stored(w, id, Loaded(w', id))
            && Settled(Loaded(w, id), id, o, b)
            && Makes(b, id, w.projects, o, v, Loaded(w', id))
  {
    hide LocalStep, Makes, Settled, Params.AreOrders, FirstDrift;
    b, v := LocalMoves(Loaded(w, id), id, w.projects, o);
  }

  // ----- what a move does to the Jobs -----

  /** Nothing was added, and what is left is as it was. */
  ghost predicate Shrinks(before: Jobs, after: Jobs) {
    forall j :: j in after ==> j in before && after[j] == before[j]
  }

  lemma SettlingShrinks(l: Local, id: Key, o: Obs, b: Local)
    requires Settled(l, id, o, b)
    ensures Shrinks(l.jobs, b.jobs)
  {
    hide Settles, ClosedPR;
  }

  lemma MoveJobs(b: Local, id: Key, others: map<Key, Project>, o: Obs, v: Move, m: Local)
    requires Makes(b, id, others, o, v, m)
    ensures if v.Start? then
              && JobId(id, v.kind) !in b.jobs && m.jobs == b.jobs[JobId(id, v.kind) := Job(Active, "")]
              && MayStart(b, id, others, o, v.kind)
            else Shrinks(b.jobs, m.jobs)
  {
    hide InFlow, InPin, MayApply, MayStart, AppliedTo, DriftRead, Quiet, SelfApproves;
  }

  /** Jobs of other projects are as they were, Jobs that stay are unchanged, and a new one is active. */
  ghost predicate OnlyJobsOf(id: Key, before: Jobs, after: Jobs) {
    && (forall j: JobId :: j.project != id ==> (j in after <==> j in before))
    && (forall j :: j in before && j in after ==> after[j] == before[j])
    && (forall j :: j in after && j !in before ==> after[j] == Job(Active, ""))
  }

  lemma SettlingIsLocal(l: Local, id: Key, o: Obs, b: Local)
    requires Settled(l, id, o, b)
    ensures OnlyJobsOf(id, l.jobs, b.jobs) && forall x :: x != id ==> (x in b.tf <==> x in l.tf)
  {
    hide Settles, ClosedPR;
  }

  lemma MoveIsLocal(b: Local, id: Key, others: map<Key, Project>, o: Obs, v: Move, m: Local)
    requires Makes(b, id, others, o, v, m)
    ensures OnlyJobsOf(id, b.jobs, m.jobs) && m.tf == b.tf
  {
    hide InFlow, InPin, MayApply, MayStart, AppliedTo, DriftRead, Quiet, SelfApproves;
  }

  /** A Job that is started was not among those that the settling deleted. */
  lemma StartedIsNew(l: Local, id: Key, others: map<Key, Project>, o: Obs, b: Local, k: Kind)
    requires Settled(l, id, o, b) && MayStart(b, id, others, o, k) && JobId(id, k) !in b.jobs
    ensures JobId(id, k) !in l.jobs
  {
    hide UpstreamsReady, LockFree, MayApply, ClosedPR;
  }

  /** A reconcile leaves everything alone that is another project's. */
  lemma ReconcileIsLocal(w: World, id: Key, o: Obs)
    requires ValidObs(w, id, o)
    ensures var w' := Reconcile(w, id, o);
            && OnlyJobsOf(id, w.jobs, w'.jobs)
            && (forall x :: x in w'.projects <==> x in w.projects)
            && (forall x :: x != id && x in w.projects ==> w'.projects[x] == w.projects[x])
            && (forall x :: x != id ==> (x in w'.tf <==> x in w.tf))
  {
    hide LocalStep, Makes, ValidObs, MayStart, KillActive, ClosedPR;
    if id in w.projects {
      var b, v := ReconcileMoves(w, id, o);
      SettlingIsLocal(Loaded(w, id), id, o, b);
      SettlingShrinks(Loaded(w, id), id, o, b);
      MoveIsLocal(b, id, w.projects, o, v, Loaded(Reconcile(w, id, o), id));
      MoveJobs(b, id, w.projects, o, v, Loaded(Reconcile(w, id, o), id));
      if v.Start? {
        StartedIsNew(Loaded(w, id), id, w.projects, o, b, v.kind);
      }
    }
  }

  // ----- past lifecycle and preparation -----

  /** The reconcile goes on to one of the two flows. */
  ghost predicate Proceeds(w: World, id: Key, o: Obs)
    requires ValidObs(w, id, o) && id in w.projects
  {
    && LifecycleStep(Loaded(w, id), id, o).None?
    && !ReturnsEarly(Resumed(Finalized(Loaded(w, id))), id, w.projects, o)
  }

  /** Then it does what the main flow does, and answers with the flow's wait, bounded by the TTL. */
  lemma ProceedingIsMain(w: World, id: Key, o: Obs)
    requires ValidObs(w, id, o) && id in w.projects && Proceeds(w, id, o)
    ensures FirstDrift(o.listing, id).Some? ==> FirstDrift(o.listing, id).value in w.jobs
    ensures id in Reconcile(w, id, o).projects
    ensures var l := Resumed(Finalized(Loaded(w, id)));
            var out := MainStep(l, id, w.projects, o);
            && Loaded(Reconcile(w, id, o), id) == out.l && Answer(w, id, o) == Clamp(out.l.p, o.now, out.r)
            && !l.p.deleting && !l.p.forceUnlock && !l.p.spec.suspend && l.p.spec.pinnedRevision <= 0 && l.p.finalizer
  {
    hide MainStep, Clamp, ReturnsEarly, Params.AreOrders, FirstDrift, ForceUnlockStep, PinnedStep, DestroyStep, FreshPR;
    FirstDriftIsListed(o.listing, id);
  }
}
