/** Nothing is applied without a plan that succeeded and was approved. */
module Approval {
  import opened Wrappers
  import opened PlanLog
  import opened ApplyWindow
  import opened Api
  import opened Protocol
  import opened Moves
  import opened Traces
  import opened PullRequests
  import Params

  ghost predicate IsReconcile(r: Run, id: Key, h: string, i: nat) {
    i < |r.events| && r.events[i].Reconciled? && r.events[i].id == id && r.events[i].o.hash == h
  }

  /** Step p reports the succeeded plan Job of this hash as the pending plan. */
  ghost predicate PlannedAt(r: Run, id: Key, h: string, p: nat) {
    && IsReconcile(r, id, h, p) && p + 1 < |r.states|
    && Ended(r.states[p].jobs, JobId(id, Plan(Prefix(r.events[p].o.hash))), Success)
    && id in r.states[p + 1].projects && r.states[p + 1].projects[id].status.pendingPlanHash == h
  }

  /** The pending pull request, opened for exactly this project and hash, is merged. */
  ghost predicate MergedFor(w: World, id: Key, h: string) {
    && id in w.projects && w.projects[id].spec.githubPR
    && w.projects[id].status.pendingPR > 0
    && var pr := PendingPR(w.projects[id]);
    pr in w.prs && w.prs[pr] == PullRequest(Some(PlanRef(id, h)), Merged)
  }

  /** The succeeded plan of the hash in `o` reports changes within the threshold. */
  ghost predicate SmallPlan(w: World, id: Key, o: Obs) {
    && id in w.projects
    && Ended(w.jobs, JobId(id, Plan(Prefix(o.hash))), Success)
    && WithinThreshold(w.projects[id].spec.maxBlastRadius,
                       ReadPlan(LogOf(Loaded(w, id), JobId(id, Plan(Prefix(o.hash))), o)).radius)
  }

  /** Step q approves this hash: the user does, or its merged pull request, or the size of its plan. */
  ghost predicate ApprovedAt(r: Run, id: Key, h: string, q: nat) {
    && q < |r.events| && q < |r.states|
    && (|| (&& r.events[q] == PlanApproved(id) && id in r.states[q].projects
            && r.states[q].projects[id].status.pendingPlanHash == h)
        || (IsReconcile(r, id, h, q) && MergedFor(r.states[q], id, h))
        || (IsReconcile(r, id, h, q) && SmallPlan(r.states[q], id, r.events[q].o)))
  }

  /** The plan of this hash was reported at step p, approved at step q, and stayed approved up to state n. */
  ghost predicate ApprovedFor(r: Run, id: Key, h: string, p: nat, q: nat, n: nat) {
    && p <= q < n && PlannedAt(r, id, h, p) && ApprovedAt(r, id, h, q)
    && Alive(r, id, p, n)
    && forall k :: q < k <= n ==> r.states[k].projects[id].approvedHash == h
  }

  predicate IsClean(w: World, id: Key) {
    id in w.projects ==>
      && w.projects[id].approvedHash == "" && w.projects[id].status.pendingPlanHash == ""
      && w.projects[id].status.pendingPR == 0
  }

  /**
   Automatic approval off, no pin, approvals given by the approve command, mode and repository left alone while a pull
   request is pending, a clean start.
   */
  ghost predicate Reviewed(r: Run, id: Key) {
    && IsRun(r) && IsClean(r.states[0], id) && ReviewsKept(r, id)
    && (forall i :: 0 <= i < |r.events| ==> !(r.events[i].AnnotationSet? && r.events[i].id == id))
    && (forall i :: 0 <= i < |r.states| ==> InReview(r.states[i], id))
  }

  predicate InReview(w: World, id: Key) {
    id in w.projects ==> !w.projects[id].spec.autoApprove && w.projects[id].spec.pinnedRevision <= 0
  }

  // ----- one reconcile -----

  lemma MovePending(b: Local, id: Key, others: map<Key, Project>, o: Obs, v: Move, m: Local)
    requires Makes(b, id, others, o, v, m)
    ensures var h := m.p.status.pendingPlanHash;
            || h == "" || h == b.p.status.pendingPlanHash
            || (h == o.hash && Ended(b.jobs, JobId(id, Plan(Prefix(o.hash))), Success))
    ensures v.Planned? ==> m.p.status.pendingPlanHash == o.hash
  {
    hide InFlow, InPin, MayApply, MayStart, SelfApproves;
  }

  /** The pending plan hash is dropped, kept, or becomes the hash whose plan Job has succeeded. */
  lemma ReconcilePending(w: World, id: Key, o: Obs)
    requires ValidObs(w, id, o) && id in w.projects
    ensures var h := Reconcile(w, id, o).projects[id].status.pendingPlanHash;
            || h == "" || h == w.projects[id].status.pendingPlanHash
            || (h == o.hash && Ended(w.jobs, JobId(id, Plan(Prefix(o.hash))), Success))
  {
    hide LocalStep, ValidObs, Makes, KillActive, ClosedPR;
    var b, v := ReconcileMoves(w, id, o);
    SettlingShrinks(Loaded(w, id), id, o, b);
    MovePending(b, id, w.projects, o, v, Loaded(Reconcile(w, id, o), id));
  }

  lemma MoveApproves(b: Local, id: Key, others: map<Key, Project>, o: Obs, v: Move, m: Local)
    requires Makes(b, id, others, o, v, m)
    ensures || m.p.approvedHash == b.p.approvedHash
            || (m.p.approvedHash == o.hash && v.Planned? && Ended(b.jobs, JobId(id, Plan(Prefix(o.hash))), Success)
                && SelfApproves(b, JobId(id, Plan(Prefix(o.hash))), o))
            || (m.p.approvedHash == o.hash && v.PRMerged? && b.p.spec.githubPR && b.p.status.pendingPlanHash == o.hash
                && b.p.status.pendingPR > 0 && PendingPR(b.p) in b.prs && b.prs[PendingPR(b.p)].state == Merged)
  {
    hide InFlow, InPin, MayApply, MayStart, SelfApproves;
  }

  lemma SettledSpec(l: Local, id: Key, o: Obs, b: Local)
    requires Settled(l, id, o, b)
    ensures b.p.spec == l.p.spec && (b.p.approvedHash == l.p.approvedHash || b.p.approvedHash == "")
  {
    hide KillActive, ClosedPR;
  }

  lemma SmallBeforeSettling(w: World, id: Key, o: Obs, b: Local)
    requires id in w.projects && Settled(Loaded(w, id), id, o, b)
    requires Ended(b.jobs, JobId(id, Plan(Prefix(o.hash))), Success)
    requires SelfApproves(b, JobId(id, Plan(Prefix(o.hash))), o)
    ensures SmallPlan(w, id, o)
  {
    hide KillActive, ClosedPR, ReadPlan, WithinThreshold;
    SettlingShrinks(Loaded(w, id), id, o, b);
  }

  lemma MergedBeforeSettling(w: World, id: Key, o: Obs, b: Local)
    requires id in w.projects && Settled(Loaded(w, id), id, o, b) && Bound(w, id)
    requires b.p.spec.githubPR && b.p.status.pendingPlanHash == o.hash && b.p.status.pendingPR > 0
    requires PendingPR(b.p) in b.prs && b.prs[PendingPR(b.p)].state == Merged
    ensures MergedFor(w, id, o.hash) && w.projects[id].status.pendingPlanHash == o.hash
  {
    hide KillActive;
    var pr := PendingPR(b.p);
    assert pr == PendingPR(w.projects[id]);
    assert w.prs[pr] == b.prs[pr];
  }

  /** The approved hash is dropped, kept, or becomes the current hash by the size of its plan or by its pull request. */
  lemma ReconcileApproves(w: World, id: Key, o: Obs)
    requires ValidObs(w, id, o) && id in w.projects && Bound(w, id)
    ensures var w' := Reconcile(w, id, o);
            var h := w'.projects[id].approvedHash;
            || h == "" || h == w.projects[id].approvedHash
            || (h == o.hash && SmallPlan(w, id, o) && w'.projects[id].status.pendingPlanHash == h)
            || (h == o.hash && MergedFor(w, id, h) && w.projects[id].status.pendingPlanHash == h)
  {
    hide LocalStep, ValidObs, Makes, SelfApproves, SmallPlan, MergedFor, Bound, Settled, Settles;
    var b, v := ReconcileMoves(w, id, o);
    var m := Loaded(Reconcile(w, id, o), id);
    MovePending(b, id, w.projects, o, v, m);
    MoveApproves(b, id, w.projects, o, v, m);
    SettledSpec(Loaded(w, id), id, o, b);
    if m.p.approvedHash != b.p.approvedHash {
      if v.Planned? {
        SmallBeforeSettling(w, id, o, b);
      } else {
        MergedBeforeSettling(w, id, o, b);
      }
    }
  }

  /** An apply Job comes from the plan flow, for the approved hash and inside the apply window. */
  lemma ReconcileAppliesApproved(w: World, id: Key, o: Obs, x: string)
    requires ValidObs(w, id, o) && id in w.projects && IsNew(JobId(id, Apply(x)), w.jobs, Reconcile(w, id, o).jobs)
    requires !w.projects[id].spec.autoApprove && w.projects[id].spec.pinnedRevision <= 0
    ensures x == Prefix(o.hash) && w.projects[id].approvedHash == o.hash && !MustWait(w.projects[id].spec, o.now)
  {
    hide LocalStep, ValidObs, Makes, KillActive, ClosedPR, InFlow, MustWait;
    var b, v := ReconcileMoves(w, id, o);
    SettlingShrinks(Loaded(w, id), id, o, b);
    MoveJobs(b, id, w.projects, o, v, Loaded(Reconcile(w, id, o), id));
  }

  // ----- one step -----

  /** How the approved hash can change in one step. */
  lemma StepApproves(w: World, e: Event, id: Key)
    requires Possible(w, e) && Bound(w, id)
    requires !(e.AnnotationSet? && e.id == id) && id in Then(w, e).projects
    ensures var h := Then(w, e).projects[id].approvedHash;
            || h == ""
            || (id in w.projects && h == w.projects[id].approvedHash)
            || (id in w.projects && e == PlanApproved(id) && h == w.projects[id].status.pendingPlanHash)
            || (id in w.projects && e.Reconciled? && e.id == id && e.o.hash == h && SmallPlan(w, id, e.o)
                && Then(w, e).projects[id].status.pendingPlanHash == h)
            || (id in w.projects && e.Reconciled? && e.id == id && e.o.hash == h && MergedFor(w, id, h)
                && w.projects[id].status.pendingPlanHash == h)
  {
    hide LocalStep, ValidObs, SmallPlan, MergedFor, Bound;
    if e.Reconciled? {
      ReconcileIsLocal(w, e.id, e.o);
      if e.id == id && id in w.projects {
        ReconcileApproves(w, id, e.o);
      }
    }
  }

  /** How the pending plan hash can change in one step. */
  lemma StepPending(w: World, e: Event, id: Key)
    requires Possible(w, e) && id in Then(w, e).projects
    ensures var h := Then(w, e).projects[id].status.pendingPlanHash;
            || h == ""
            || (id in w.projects && h == w.projects[id].status.pendingPlanHash)
            || (id in w.projects && e.Reconciled? && e.id == id && e.o.hash == h
                && Ended(w.jobs, JobId(id, Plan(Prefix(e.o.hash))), Success))
  {
    hide LocalStep, ValidObs;
    if e.Reconciled? {
      ReconcileIsLocal(w, e.id, e.o);
      if e.id == id && id in w.projects {
        ReconcilePending(w, id, e.o);
      }
    }
  }

  /** Apply Jobs are created by reconciles of an approved hash only. */
  lemma StepApplies(w: World, e: Event, id: Key, x: string)
    requires Possible(w, e) && InReview(w, id) && IsNew(JobId(id, Apply(x)), w.jobs, Then(w, e).jobs)
    ensures id in w.projects && e.Reconciled? && e.id == id && x == Prefix(e.o.hash)
    ensures w.projects[id].approvedHash == e.o.hash && !MustWait(w.projects[id].spec, e.o.now)
  {
    hide LocalStep, ValidObs, MustWait;
    if e.Reconciled? {
      ReconcileIsLocal(w, e.id, e.o);
      if e.id == id && id in w.projects {
        ReconcileAppliesApproved(w, id, e.o, x);
      }
    }
  }

  // ----- runs -----

  lemma {:induction false} PendingIsPlanned(r: Run, id: Key, n: nat) returns (p: nat)
    requires Reviewed(r, id) && n < |r.states| && id in r.states[n].projects
    requires r.states[n].projects[id].status.pendingPlanHash != ""
    ensures p < n && PlannedAt(r, id, r.states[n].projects[id].status.pendingPlanHash, p) && Alive(r, id, p, n)
  {
    hide Possible, Then;
    assert IsStep(r, n - 1);
    StepPending(r.states[n - 1], r.events[n - 1], id);
    var h := r.states[n].projects[id].status.pendingPlanHash;
    if h == r.states[n - 1].projects[id].status.pendingPlanHash {
      p := PendingIsPlanned(r, id, n - 1);
    } else {
      p := n - 1;
    }
  }

  lemma ReviewedIsBound(r: Run, id: Key, n: nat)
    requires Reviewed(r, id) && n < |r.states|
    ensures Bound(r.states[n], id)
  {
    hide IsRun, ReviewsKept;
    AlwaysBound(r, id, n);
  }

  /** Every approved hash had its plan reported and was approved since, in this project's present life. */
  lemma {:induction false} ApprovalIsEarned(r: Run, id: Key, n: nat) returns (p: nat, q: nat)
    requires Reviewed(r, id) && n < |r.states| && id in r.states[n].projects
    requires r.states[n].projects[id].approvedHash != ""
    ensures ApprovedFor(r, id, r.states[n].projects[id].approvedHash, p, q, n)
  {
    hide Possible, Then, ReadPlan, WithinThreshold, MergedFor, Bound;
    assert IsStep(r, n - 1);
    ReviewedIsBound(r, id, n - 1);
    StepApproves(r.states[n - 1], r.events[n - 1], id);
    var h := r.states[n].projects[id].approvedHash;
    if h == r.states[n - 1].projects[id].approvedHash {
      p, q := ApprovalIsEarned(r, id, n - 1);
    } else {
      q := n - 1;
      if r.states[q].projects[id].status.pendingPlanHash == h {
        p := PendingIsPlanned(r, id, q);
      } else {
        p := q;
      }
    }
  }

  /**
   Every apply Job is for a hash whose plan Job had succeeded and was reported (step p), and which then the user, the
   merged pull request opened for it, or the size of its plan approved (step q); and it is created in the apply window.
   */
  lemma AppliesOnlyWhatWasApproved(r: Run, id: Key, i: nat, x: string) returns (h: Digest, p: nat, q: nat)
    requires Reviewed(r, id) && CreatesAt(r, i, JobId(id, Apply(x)))
    ensures x == Prefix(h) && IsReconcile(r, id, h, i) && ApprovedFor(r, id, h, p, q, i)
    ensures !MustWait(r.states[i].projects[id].spec, r.events[i].o.now)
  {
    hide Possible, Then, ApprovedFor, MustWait;
    assert IsStep(r, i);
    StepApplies(r.states[i], r.events[i], id, x);
    h := r.events[i].o.hash;
    p, q := ApprovalIsEarned(r, id, i);
  }

  /**
   Mode and repository left alone while a pull request is pending, a reconcile newly approves nothing but its own hash:
   by the size of its plan, or by the merge of the pull request opened for this project and this hash.
   */
  lemma MergeApprovesItsOwnHash(r: Run, id: Key, n: nat)
    requires IsRun(r) && ReviewsKept(r, id) && Tracked(r.states[0], id)
    requires n < |r.events| && r.events[n].Reconciled? && r.events[n].id == id && id in r.states[n].projects
    ensures id in r.states[n + 1].projects
    ensures var h, o := r.states[n + 1].projects[id].approvedHash, r.events[n].o;
            h == "" || h == r.states[n].projects[id].approvedHash
            || (h == o.hash && (SmallPlan(r.states[n], id, o) || MergedFor(r.states[n], id, h)))
  {
    hide SmallPlan, MergedFor, Bound, LocalStep, ValidObs, ReviewsKept;
    AlwaysBound(r, id, n);
    assert IsStep(r, n);
    ReconcileIsLocal(r.states[n], id, r.events[n].o);
    ReconcileApproves(r.states[n], id, r.events[n].o);
  }

  // ----- the plan that was approved -----

  ghost predicate DistinctPrefixes(r: Run, id: Key) {
    forall i, k :: 0 <= i < |r.events| && 0 <= k < |r.events|
                   && r.events[i].Reconciled? && r.events[k].Reconciled? && r.events[i].id == id && r.events[k].id == id
                   && Prefix(r.events[i].o.hash) == Prefix(r.events[k].o.hash)
                   ==> r.events[i].o.hash == r.events[k].o.hash
  }

  lemma StepPlans(w: World, e: Event, id: Key, x: string)
    requires Possible(w, e) && IsNew(JobId(id, Plan(x)), w.jobs, Then(w, e).jobs)
    ensures e.Reconciled? && e.id == id && x == Prefix(e.o.hash)
  {
    hide LocalStep, ValidObs, Makes, KillActive, ClosedPR, InFlow;
    if e.Reconciled? {
      ReconcileIsLocal(w, e.id, e.o);
      if e.id == id && id in w.projects {
        var b, v := ReconcileMoves(w, id, e.o);
        SettlingShrinks(Loaded(w, id), id, e.o, b);
        MoveJobs(b, id, w.projects, e.o, v, Loaded(Reconcile(w, id, e.o), id));
      }
    }
  }

  /** When the hashes in play have distinct prefixes, the plan Job reported had been created for that very hash. */
  lemma PlanJobIsForTheHash(r: Run, id: Key, h: Digest, p: nat) returns (c: nat)
    requires IsRun(r) && DistinctPrefixes(r, id) && PlannedAt(r, id, h, p)
    requires JobId(id, Plan(Prefix(h))) !in r.states[0].jobs
    ensures c < p && IsReconcile(r, id, h, c) && CreatesAt(r, c, JobId(id, Plan(Prefix(h))))
    ensures forall k :: c < k <= p ==> JobId(id, Plan(Prefix(h))) in r.states[k].jobs
  {
    hide Possible, Then;
    c := JobHasOrigin(r, JobId(id, Plan(Prefix(h))), p);
    assert IsStep(r, c);
    StepPlans(r.states[c], r.events[c], id, Prefix(h));
  }

  // ----- approved plans are applied -----

  lemma StartedApplyMayApply(l: Local, id: Key, others: map<Key, Project>, o: Obs, b: Local, x: string)
    requires Settled(l, id, o, b) && MayStart(b, id, others, o, Apply(x)) && l.p.spec.pinnedRevision <= 0
    ensures MayApply(l.p, o) && x == Prefix(o.hash)
  {
    hide KillActive, ClosedPR, MustWait, InFlow;
  }

  lemma MayApplyStarts(l: Local, id: Key, o: Obs)
    requires MayApply(l.p, o) && JobId(id, Apply(Prefix(o.hash))) !in l.jobs
    requires FirstDrift(o.listing, id).Some? ==> FirstDrift(o.listing, id).value in l.jobs
    ensures var m := if l.p.spec.autoApprove then AutoStep(l, id, o).l else PlanStep(l, id, o).l;
            m.jobs == l.jobs[JobId(id, Apply(Prefix(o.hash))) := Job(Active, "")]
  {
    hide MustWait, InSync, FirstDrift, PRStep, PlanResult;
  }

  /** The main flow creates the apply Job of the current hash if and only if it may apply and there is none. */
  lemma AppliesExactlyWhenItMay(l: Local, id: Key, others: map<Key, Project>, o: Obs)
    requires Params.AreOrders(o.orders, l.p.spec.inputs.dependencies) && !ReturnsEarly(l, id, others, o)
    requires !l.p.deleting && !l.p.forceUnlock && !l.p.spec.suspend && l.p.spec.pinnedRevision <= 0 && l.p.finalizer
    requires (forall j :: j in o.listing <==> j in l.jobs) && FreshPR(l, o)
    ensures FirstDrift(o.listing, id).Some? ==> FirstDrift(o.listing, id).value in l.jobs
    ensures var job := JobId(id, Apply(Prefix(o.hash)));
            IsNew(job, l.jobs, MainStep(l, id, others, o).l.jobs) <==> MayApply(l.p, o) && job !in l.jobs
  {
    hide Params.AreOrders, ReturnsEarly, MayApply, MayStart, FirstDrift, AutoStep, PlanStep, Makes, KillActive,
         ClosedPR, InFlow, Settles, FreshPR;
    var b, v := MainMoves(l, id, others, o);
    SettlingShrinks(l, id, o, b);
    MoveJobs(b, id, others, o, v, MainStep(l, id, others, o).l);
    if v.Start? && v.kind.Apply? {
      StartedApplyMayApply(l, id, others, o, b, v.kind.prefix);
    }
    if MayApply(l.p, o) && JobId(id, Apply(Prefix(o.hash))) !in l.jobs {
      MayApplyStarts(l.(tf := l.tf + {id}), id, o);
    }
  }

  /** Nothing but the approval is missing: no deletion, force-unlock, suspension, pin or expiry, and an open window. */
  ghost predicate AwaitsApproval(w: World, id: Key, o: Obs) {
    && id in w.projects
    && var p := w.projects[id];
    && p.status.pendingPlanHash == o.hash && p.status.lastAppliedHash != o.hash
    && !p.deleting && !p.forceUnlock && !Expired(p, o.now)
    && !p.spec.suspend && p.spec.pinnedRevision <= 0 && !p.spec.autoApprove
    && !MustWait(p.spec, o.now)
  }

  /** Once the user approves the pending plan, the next reconcile of its hash past preparation starts the apply. */
  lemma ApprovalLeadsToApply(w: World, id: Key, o: Obs)
    requires AwaitsApproval(w, id, o) && JobId(id, Apply(Prefix(o.hash))) !in w.jobs
    requires var approved := Then(w, PlanApproved(id));
             && ValidObs(approved, id, o)
             && !ReturnsEarly(Resumed(Finalized(Loaded(approved, id))), id, approved.projects, o)
    ensures JobId(id, Apply(Prefix(o.hash))) in Then(Then(w, PlanApproved(id)), Reconciled(id, o)).jobs
  {
    hide Params.AreOrders, FirstDrift, ReturnsEarly, MainStep, Bounded, MustWait;
    var approved := Then(w, PlanApproved(id));
    var l := Resumed(Finalized(Loaded(approved, id)));
    FirstDriftIsListed(o.listing, id);
    AppliesExactlyWhenItMay(l, id, approved.projects, o);
  }

  // ----- the apply window -----

  lemma ApprovedFlowWaits(l: Local, id: Key, others: map<Key, Project>, o: Obs)
    requires Params.AreOrders(o.orders, l.p.spec.inputs.dependencies) && !ReturnsEarly(l, id, others, o)
    requires FirstDrift(o.listing, id).Some? ==> FirstDrift(o.listing, id).value in l.jobs
    requires !l.p.spec.autoApprove && l.p.status.lastAppliedHash != o.hash && l.p.approvedHash == o.hash
    requires MustWait(l.p.spec, o.now)
    ensures MainStep(l, id, others, o).r == WindowWait(l.p.spec.applySchedule.value, o.now)
    ensures MainStep(l, id, others, o).l.p.spec == l.p.spec && MainStep(l, id, others, o).l.p.created == l.p.created
  {
    hide Params.AreOrders, ReturnsEarly, FirstDrift, MustWait, WindowWait, InSync, PRStep, PlanResult, ApplyApproved,
         ClosedPR, AutoStep;
  }

  /**
   An approved plan outside its window is queued for exactly the least fire after now, or for the end of the project's
   life if that comes first. The window stays closed until that fire and is open from then on for its whole length.
   */
  lemma WaitEndsInTheWindow(w: World, id: Key, o: Obs)
    requires ValidObs(w, id, o) && id in w.projects && Proceeds(w, id, o)
    requires !w.projects[id].spec.autoApprove && w.projects[id].status.lastAppliedHash != o.hash
    requires w.projects[id].approvedHash == o.hash && MustWait(w.projects[id].spec, o.now)
    requires w.projects[id].spec.applySchedule.value.cron.Some?
    ensures var p := w.projects[id];
            var s := p.spec.applySchedule.value;
            var n := s.cron.value(o.now);
            var life := p.created + p.spec.ttl - o.now;
            && LeastFireAfter(s.cron.value, o.now, n)
            && Answer(w, id, o) ==
               Result(false, if p.spec.ttl > 0 && 0 < life < n - o.now then life else n - o.now, false)
            && (forall t :: o.now <= t < n ==> MustWait(p.spec, t))
            && (forall t :: n <= t < n + (if s.window.GetOr(0) > 0 then s.window.value else 3_600_000_000_000) ==>
                  !MustWait(p.spec, t))
  {
    hide Reconcile, Answer, MainStep, ReturnsEarly, Params.AreOrders, FirstDrift, LifecycleStep;
    ProceedingIsMain(w, id, o);
    ApprovedFlowWaits(Resumed(Finalized(Loaded(w, id))), id, w.projects, o);
    var s := w.projects[id].spec.applySchedule.value;
    NextIsLeastFire(s.cron.value, o.now);
    NoWindowMissed(s.cron.value, WindowLength(s), o.now, s.cron.value(o.now));
  }
}
