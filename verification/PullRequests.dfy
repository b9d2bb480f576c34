/** A pending pull request and the pending plan stay bound to each other. */
module PullRequests {
  import opened Wrappers
  import opened Api
  import opened Protocol
  import opened Moves
  import opened Traces
  import Params

  /**
   What a pending number means in the repository that the spec names now is the pull request that was opened for this
   project and for the very plan that is pending.
   */
  ghost predicate Binds(p: Project, id: Key, prs: map<PRId, PullRequest>) {
    p.status.pendingPR > 0 ==>
      && p.status.pendingPlanHash != ""
      && PendingPR(p) in prs
      && prs[PendingPR(p)].plan == Some(PlanRef(id, p.status.pendingPlanHash))
  }

  ghost predicate Bound(w: World, id: Key) {
    id in w.projects ==> Binds(w.projects[id], id, w.prs)
  }

  /** A pull request is pending only in pull request mode. */
  predicate InMode(p: Project) {
    p.status.pendingPR > 0 ==> p.spec.githubPR
  }

  ghost predicate Tracked(w: World, id: Key) {
    Bound(w, id) && (id in w.projects ==> InMode(w.projects[id]))
  }

  /** Pull requests only change their state, and a merged one stays merged. */
  ghost predicate Kept(before: map<PRId, PullRequest>, after: map<PRId, PullRequest>) {
    forall n :: n in before ==>
      && n in after && after[n].plan == before[n].plan
      && (after[n].state == Merged <==> before[n].state == Merged)
  }

  // ----- one reconcile -----

  lemma SettlingKeepsBinding(l: Local, id: Key, o: Obs, b: Local)
    requires Settled(l, id, o, b) && Binds(l.p, id, l.prs) && InMode(l.p)
    ensures Binds(b.p, id, b.prs) && InMode(b.p)
  {
    hide KillActive;
  }

  lemma SettlingKeeps(l: Local, id: Key, o: Obs, b: Local)
    requires Settled(l, id, o, b)
    ensures Kept(l.prs, b.prs)
  {
    hide KillActive, Settles;
  }

  lemma SettlingKeepsFresh(l: Local, id: Key, o: Obs, b: Local)
    requires Settled(l, id, o, b) && FreshPR(l, o)
    ensures FreshPR(b, o)
  {
    hide KillActive;
  }

  lemma MoveKeepsPRs(b: Local, id: Key, others: map<Key, Project>, o: Obs, v: Move, m: Local)
    requires Makes(b, id, others, o, v, m) && FreshPR(b, o)
    ensures Kept(b.prs, m.prs)
  {
    hide InFlow, InPin, MayApply, MayStart, AppliedTo, DriftRead, Quiet, SelfApproves;
  }

  /** A plan becomes pending only if no pull request is, or it is pending already with its pull request aside. */
  lemma PlannedKeepsBinding(b: Local, id: Key, others: map<Key, Project>, o: Obs, m: Local)
    requires Makes(b, id, others, o, Planned, m) && FreshPR(b, o)
    requires Binds(b.p, id, b.prs)
    ensures Binds(m.p, id, m.prs) && (InMode(b.p) ==> InMode(m.p))
  {
    hide InFlow, InPin, MayApply, MayStart, SelfApproves;
    assert b.p.status.pendingPR == 0 || (b.p.status.pendingPlanHash == o.hash && !b.p.spec.githubPR && m.prs == b.prs);
  }

  lemma MoveKeepsBinding(b: Local, id: Key, others: map<Key, Project>, o: Obs, v: Move, m: Local)
    requires Makes(b, id, others, o, v, m) && FreshPR(b, o)
    requires Binds(b.p, id, b.prs)
    ensures Binds(m.p, id, m.prs) && (InMode(b.p) ==> InMode(m.p))
  {
    hide InFlow, InPin, MayApply, MayStart, SelfApproves, PlannedTo;
    if v.Planned? {
      PlannedKeepsBinding(b, id, others, o, m);
    } else {
      assert m.prs == b.prs && m.p.spec == b.p.spec;
      var s, t := b.p.status, m.p.status;
      assert t.pendingPR == 0 || (t.pendingPR == s.pendingPR && t.pendingPlanHash == s.pendingPlanHash);
    }
  }

  lemma ReconcileKeepsPRs(w: World, id: Key, o: Obs)
    requires ValidObs(w, id, o)
    ensures Kept(w.prs, Reconcile(w, id, o).prs)
  {
    hide LocalStep, Makes, MayStart, KillActive, Settles, Params.AreOrders, FreshPR;
    if id in w.projects {
      var b, v := ReconcileMoves(w, id, o);
      SettlingKeeps(Loaded(w, id), id, o, b);
      SettlingKeepsFresh(Loaded(w, id), id, o, b);
      MoveKeepsPRs(b, id, w.projects, o, v, Loaded(Reconcile(w, id, o), id));
    }
  }

  lemma ReconcileKeepsBinding(w: World, id: Key, o: Obs)
    requires ValidObs(w, id, o) && id in w.projects && Tracked(w, id)
    ensures Tracked(Reconcile(w, id, o), id)
  {
    hide LocalStep, Makes, MayStart, KillActive, Params.AreOrders, FreshPR;
    var b, v := ReconcileMoves(w, id, o);
    SettlingKeepsBinding(Loaded(w, id), id, o, b);
    SettlingKeepsFresh(Loaded(w, id), id, o, b);
    MoveKeepsBinding(b, id, w.projects, o, v, Loaded(Reconcile(w, id, o), id));
  }

  // ----- runs -----

  /** The edit leaves mode and repository alone while a pull request is pending. */
  predicate KeepsReview(p: Project, spec: Spec) {
    p.status.pendingPR > 0 ==> spec.githubPR && spec.repo == p.spec.repo
  }

  lemma StepKeepsBinding(w: World, e: Event, id: Key)
    requires Possible(w, e) && Tracked(w, id)
    requires e.SpecEdited? && e.id == id ==> KeepsReview(w.projects[id], e.spec)
    ensures Tracked(Then(w, e), id)
  {
    hide LocalStep, ValidObs;
    if e.Reconciled? {
      ReconcileIsLocal(w, e.id, e.o);
      ReconcileKeepsPRs(w, e.id, e.o);
      if e.id == id && id in w.projects {
        ReconcileKeepsBinding(w, id, e.o);
      }
    }
  }

  /** No spec edit of this run changes mode or repository while a pull request of the project is pending. */
  ghost predicate ReviewsKept(r: Run, id: Key)
    requires IsRun(r)
  {
    forall i :: 0 <= i < |r.events| && r.events[i].SpecEdited? && r.events[i].id == id && id in r.states[i].projects ==>
      KeepsReview(r.states[i].projects[id], r.events[i].spec)
  }

  /** Under that premise number and plan stay bound in every state. */
  lemma {:induction false} AlwaysBound(r: Run, id: Key, n: nat)
    requires IsRun(r) && ReviewsKept(r, id) && n < |r.states| && Tracked(r.states[0], id)
    ensures Tracked(r.states[n], id)
  {
    hide Then, Tracked, Reconcile, ValidObs;
    if n > 0 {
      AlwaysBound(r, id, n - 1);
      assert IsStep(r, n - 1);
      StepKeepsBinding(r.states[n - 1], r.events[n - 1], id);
    }
  }

  /**
   Exactly which edits of a spec keep the binding: no pull request is pending, the repository is the same, or the number
   is bound in the new one as well.
   */
  lemma EditKeepsBindingIff(w: World, id: Key, spec: Spec)
    requires id in w.projects && Bound(w, id)
    ensures var s := w.projects[id].status;
            var pr := PRId(spec.repo, s.pendingPR);
            Bound(Then(w, SpecEdited(id, spec)), id) <==>
            || s.pendingPR == 0
            || spec.repo == w.projects[id].spec.repo
            || (pr in w.prs && w.prs[pr].plan == Some(PlanRef(id, s.pendingPlanHash)))
  {
    assert Then(w, SpecEdited(id, spec)).projects[id] == w.projects[id].(spec := spec);
  }

  // ----- exactly which reconciles keep the binding -----

  lemma StartingKeepsBinding(l: Local, id: Key)
    requires Binds(l.p, id, l.prs)
    ensures Binds(Resumed(Finalized(l)).p, id, l.prs) && Binds(Finalized(l).p, id, l.prs)
  {
  }

  /** Deletion, expiry, force-unlock, suspension and pins keep the binding. */
  lemma LifecycleKeepsBinding(l: Local, id: Key, others: map<Key, Project>, o: Obs)
    requires LifecycleStep(l, id, o).Some? && Binds(l.p, id, l.prs) && FreshPR(l, o)
    ensures var m := LifecycleStep(l, id, o).value.l; Binds(m.p, id, m.prs)
  {
    hide Makes, KillActive, DestroyStep, ForceUnlockStep, PinnedStep;
    if !l.p.deleting {
      LiveKeepsBinding(l, id, others, o);
    } else if l.p.finalizer {
      var v := DestroyMoves(l, id, others, o);
      MoveKeepsBinding(l, id, others, o, v, DestroyStep(l, id, o).l);
    }
  }

  lemma LiveKeepsBinding(l: Local, id: Key, others: map<Key, Project>, o: Obs)
    requires !l.p.deleting && LiveStep(Finalized(l), id, o).Some? && Binds(l.p, id, l.prs) && FreshPR(l, o)
    ensures var m := LiveStep(Finalized(l), id, o).value.l; Binds(m.p, id, m.prs)
  {
    hide Makes, KillActive, ForceUnlockStep, PinnedStep, Settled;
    StartingKeepsBinding(l, id);
    var live := Finalized(l);
    if Expired(live.p, o.now) {
    } else if live.p.forceUnlock {
      var b, v := UnlockFlowMoves(live, id, others, o);
      MoveKeepsBinding(b, id, others, o, v, ForceUnlockStep(live, id).l);
    } else if !live.p.spec.suspend {
      var b, v := PinMoves(Resumed(live), id, others, o);
      MoveKeepsBinding(b, id, others, o, v, PinnedStep(Resumed(live), id, o).l);
    }
  }

  /** The hash is approved, its window open, its apply Job succeeded: the plan flow records it and drops the review. */
  ghost predicate RecordsApply(w: World, id: Key, o: Obs)
    requires id in w.projects
  {
    && w.projects[id].approvedHash == o.hash && !MustWait(w.projects[id].spec, o.now)
    && Ended(w.jobs, JobId(id, Apply(Prefix(o.hash))), Success)
  }

  /** The plan flow drops a stale plan outside pull request mode, and its pull request stays pending. */
  ghost predicate LeavesNumber(w: World, id: Key, o: Obs)
    requires ValidObs(w, id, o) && id in w.projects
  {
    var p := w.projects[id];
    && Proceeds(w, id, o) && !p.spec.autoApprove && !p.spec.githubPR
    && p.status.pendingPR > 0 && Stale(p, o) && p.status.lastAppliedHash != o.hash
    && !RecordsApply(w, id, o)
  }

  lemma OutsideFlowsKeepBinding(w: World, id: Key, o: Obs)
    requires ValidObs(w, id, o) && id in w.projects && Bound(w, id) && !Proceeds(w, id, o)
    ensures Bound(Reconcile(w, id, o), id)
  {
    hide LifecycleStep, ReturnsEarly, PreparedOut, Bounded, Params.AreOrders, FirstDrift, Makes;
    var l := Loaded(w, id);
    FirstDriftIsListed(o.listing, id);
    if LifecycleStep(l, id, o).Some? {
      LifecycleKeepsBinding(l, id, w.projects, o);
    } else {
      var m := Resumed(Finalized(l));
      StartingKeepsBinding(l, id);
      var b, v := EarlyMoves(m, id, w.projects, o);
      MoveKeepsBinding(b, id, w.projects, o, v, PreparedOut(m, id, w.projects, o).l);
    }
  }

  /** A number left without its plan is bound to no plan afterwards, unless an apply is recorded. */
  lemma LeftNumberIsUnbound(b: Local, id: Key, others: map<Key, Project>, o: Obs, v: Move, m: Local)
    requires Makes(b, id, others, o, v, m) && !b.p.spec.githubPR && b.p.spec.pinnedRevision <= 0
    requires b.p.status.pendingPR > 0 && b.p.status.pendingPlanHash == "" && !v.Applied?
    requires PendingPR(b.p) in b.prs ==> b.prs[PendingPR(b.p)].plan != Some(PlanRef(id, o.hash))
    ensures !Binds(m.p, id, m.prs)
  {
    hide UpstreamsReady, LockFree, MayApply, MayStart, SelfApproves, PinnedHash;
  }

  lemma AppliedForgetsReview(b: Local, id: Key, o: Obs)
    requires b.p.approvedHash == o.hash && !MustWait(b.p.spec, o.now)
    requires Ended(b.jobs, JobId(id, Apply(Prefix(o.hash))), Success)
    ensures PendingStep(b, id, o).l.p.status.pendingPR == 0
  {
    hide MustWait, AppliedStatus, PRStep, PlanResult;
  }

  lemma InvalidatedReview(l: Local, o: Obs)
    ensures var b := Invalidated(l, o);
            && b.jobs == l.jobs && b.p.spec == l.p.spec && (b.p.approvedHash == o.hash <==> l.p.approvedHash == o.hash)
            && (if !Stale(l.p, o) then b == l
                else
                  && b.p.status.pendingPlanHash == ""
                  && b.p.status.pendingPR == (if l.p.spec.githubPR then 0 else l.p.status.pendingPR)
                  && (!l.p.spec.githubPR ==> b.prs == l.prs))
  {
  }

  /** The plan flow of a hash that is not applied. */
  lemma PlanFlowKeepsBindingIff(l: Local, id: Key, others: map<Key, Project>, o: Obs)
    requires InFlow(l, id, others) && l.p.finalizer && !l.p.spec.autoApprove && l.p.status.lastAppliedHash != o.hash
    requires FreshPR(l, o) && Binds(l.p, id, l.prs)
    ensures var m := PendingStep(Invalidated(l, o), id, o).l;
            Binds(m.p, id, m.prs) <==>
            !(!l.p.spec.githubPR && l.p.status.pendingPR > 0 && Stale(l.p, o))
            || (&& l.p.approvedHash == o.hash && !MustWait(l.p.spec, o.now)
                && Ended(l.jobs, JobId(id, Apply(Prefix(o.hash))), Success))
  {
    hide InFlow, MustWait, Makes, PendingStep, Invalidated, Ended;
    var b := Invalidated(l, o);
    InvalidatedSettles(l, id, others, o);
    InvalidatedReview(l, o);
    InvalidatedKeeps(l, o);
    var v := PendingMoves(b, id, others, o);
    var m := PendingStep(b, id, o).l;
    if !l.p.spec.githubPR && l.p.status.pendingPR > 0 && Stale(l.p, o) {
      if && l.p.approvedHash == o.hash && !MustWait(l.p.spec, o.now)
         && Ended(l.jobs, JobId(id, Apply(Prefix(o.hash))), Success) {
        AppliedForgetsReview(b, id, o);
      } else {
        AppliedNeedsApproval(b, id, others, o, v, m);
        LeftNumberIsUnbound(b, id, others, o, v, m);
      }
    } else {
      MoveKeepsBinding(b, id, others, o, v, m);
    }
  }

  lemma AppliedNeedsApproval(b: Local, id: Key, others: map<Key, Project>, o: Obs, v: Move, m: Local)
    requires Makes(b, id, others, o, v, m) && !b.p.spec.autoApprove
    ensures v.Applied? ==>
              && b.p.approvedHash == o.hash && !MustWait(b.p.spec, o.now)
              && Ended(b.jobs, JobId(id, Apply(Prefix(o.hash))), Success)
    ensures b.p.spec.pinnedRevision > 0 ==> !InFlow(b, id, others)
  {
    hide UpstreamsReady, LockFree, MayStart, MustWait, SelfApproves, PinnedHash, PlannedTo, AppliedTo;
  }

  lemma FlowKeepsBindingIff(l: Local, id: Key, others: map<Key, Project>, o: Obs)
    requires Params.AreOrders(o.orders, l.p.spec.inputs.dependencies) && !ReturnsEarly(l, id, others, o)
    requires !l.p.deleting && !l.p.forceUnlock && !l.p.spec.suspend && l.p.spec.pinnedRevision <= 0 && l.p.finalizer
    requires (forall j :: j in o.listing <==> j in l.jobs) && FreshPR(l, o) && Binds(l.p, id, l.prs)
    ensures FirstDrift(o.listing, id).Some? ==> FirstDrift(o.listing, id).value in l.jobs
    ensures var m := MainStep(l, id, others, o).l;
            Binds(m.p, id, m.prs) <==>
            !(!l.p.spec.autoApprove && !l.p.spec.githubPR && l.p.status.pendingPR > 0 && Stale(l.p, o)
              && l.p.status.lastAppliedHash != o.hash)
            || (&& l.p.approvedHash == o.hash && !MustWait(l.p.spec, o.now)
                && Ended(l.jobs, JobId(id, Apply(Prefix(o.hash))), Success))
  {
    hide Params.AreOrders, ReturnsEarly, InFlow, FirstDrift, AutoStep, InSync, PendingStep, Invalidated, MustWait,
         Makes, Ended;
    FirstDriftIsListed(o.listing, id);
    NotEarlyMeansInFlow(l, id, others, o);
    var b := l.(tf := l.tf + {id});
    var m := MainStep(l, id, others, o).l;
    if l.p.spec.autoApprove {
      var v := AutoMoves(b, id, others, o);
      MoveKeepsBinding(b, id, others, o, v, m);
    } else if l.p.status.lastAppliedHash == o.hash {
      var v := SyncMoves(b, id, others, o);
      MoveKeepsBinding(b, id, others, o, v, m);
    } else {
      PlanFlowKeepsBindingIff(b, id, others, o);
    }
  }

  /**
   A reconcile keeps the binding of any bound project, in whatever mode, if and only if it does not leave a number
   without its plan.
   */
  lemma ReconcileKeepsBindingIff(w: World, id: Key, o: Obs)
    requires ValidObs(w, id, o) && id in w.projects && Bound(w, id)
    ensures Bound(Reconcile(w, id, o), id) <==> !LeavesNumber(w, id, o)
  {
    hide Reconcile, LifecycleStep, ReturnsEarly, MainStep, Params.AreOrders, FirstDrift, MustWait, Ended, Answer;
    if Proceeds(w, id, o) {
      ProceedingIsMain(w, id, o);
      FlowKeepsBindingIff(Resumed(Finalized(Loaded(w, id))), id, w.projects, o);
    } else {
      OutsideFlowsKeepBinding(w, id, o);
    }
  }

  /** The two ways to lose the binding: a reconcile leaves a number without its plan, or the repository is edited. */
  ghost predicate Loses(w: World, e: Event, id: Key)
    requires Possible(w, e)
  {
    && id in w.projects
    && var s := w.projects[id].status;
    || (e.Reconciled? && e.id == id && LeavesNumber(w, id, e.o))
    || (e.SpecEdited? && e.id == id && s.pendingPR > 0 && e.spec.repo != w.projects[id].spec.repo
        && var pr := PRId(e.spec.repo, s.pendingPR);
        !(pr in w.prs && w.prs[pr].plan == Some(PlanRef(id, s.pendingPlanHash))))
  }

  lemma StepKeepsBindingIff(w: World, e: Event, id: Key)
    requires Possible(w, e) && Bound(w, id)
    ensures Bound(Then(w, e), id) <==> !Loses(w, e, id)
  {
    hide Reconcile, ValidObs, LeavesNumber;
    if e.Reconciled? {
      ReconcileIsLocal(w, e.id, e.o);
      ReconcileKeepsPRs(w, e.id, e.o);
      if e.id == id && id in w.projects {
        ReconcileKeepsBindingIff(w, id, e.o);
      }
    } else if e.SpecEdited? && e.id == id {
      EditKeepsBindingIff(w, id, e.spec);
    }
  }

  /** No step before state n loses the binding. */
  ghost predicate NeverLost(r: Run, id: Key, n: nat)
    requires IsRun(r) && n < |r.states|
  {
    forall i :: 0 <= i < n && IsStep(r, i) ==> !Loses(r.states[i], r.events[i], id)
  }

  /** The project is bound throughout if and only if no step loses it; the theorem above gives a premise for that. */
  lemma {:induction false} AlwaysBoundIff(r: Run, id: Key, n: nat)
    requires IsRun(r) && n < |r.states| && Bound(r.states[0], id)
    ensures (forall i :: 0 <= i <= n ==> Bound(r.states[i], id)) <==> NeverLost(r, id, n)
  {
    hide Possible, Then, Bound, Loses;
    if n > 0 {
      AlwaysBoundIff(r, id, n - 1);
      assert IsStep(r, n - 1);
      if Bound(r.states[n - 1], id) {
        StepKeepsBindingIff(r.states[n - 1], r.events[n - 1], id);
      }
    }
  }
}
