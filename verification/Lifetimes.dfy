/** When a project comes to be deleted, and what a force-unlock does. */
module Lifetimes {
  import opened Wrappers
  import opened Api
  import opened Protocol
  import opened Traces
  import opened Rules
  import opened RulesHold
  import opened PlainProjects
  import Moves
  import Params

  // ----- the end of a project's life -----

  /** A reconcile deletes a live project if and only if it has outlived its TTL. */
  lemma DeletesExactlyWhenOutlived(w: World, id: Key, o: Obs)
    requires ValidObs(w, id, o) && id in w.projects && !w.projects[id].deleting
    ensures id in Reconcile(w, id, o).projects
    ensures var p := w.projects[id];
            Reconcile(w, id, o).projects[id].deleting <==> p.spec.ttl > 0 && o.now > p.created + p.spec.ttl
  {
    hide Reconcile, ValidObs, PhaseAfter, ApprovedAfter, StatusAfter, FinalizedAfter, AnnotatedAfter, JobsFollow,
         Writes, PullsAfter;
    ReconcileFollowsRules(w, id, o);
  }

  ghost predicate BecomesDeleting(r: Run, id: Key, n: nat) {
    && n + 1 < |r.states| && id in r.states[n].projects && id in r.states[n + 1].projects
    && !r.states[n].projects[id].deleting && r.states[n + 1].projects[id].deleting
  }

  /** In every run a project becomes deleted exactly when somebody asks for it or a reconcile finds it outlived. */
  lemma DeletionHasACause(r: Run, id: Key, n: nat)
    requires IsRun(r) && n + 1 < |r.states| && id in r.states[n].projects && !r.states[n].projects[id].deleting
    ensures BecomesDeleting(r, id, n) <==>
            || r.events[n] == DeleteRequested(id)
            || (&& r.events[n].Reconciled? && r.events[n].id == id
                && var p := r.states[n].projects[id];
                p.spec.ttl > 0 && r.events[n].o.now > p.created + p.spec.ttl)
  {
    hide Reconcile, ValidObs;
    assert IsStep(r, n);
    var w, e := r.states[n], r.events[n];
    if e.Reconciled? {
      Moves.ReconcileIsLocal(w, e.id, e.o);
      if e.id == id {
        DeletesExactlyWhenOutlived(w, id, e.o);
      }
    }
  }

  // ----- force-unlock -----

  /** A reconcile of a live project that asks for a force-unlock: its Job, its annotation and its lock mark. */
  lemma UnlocksExactly(w: World, id: Key, o: Obs)
    requires ValidObs(w, id, o) && id in w.projects
    requires var p := w.projects[id];
             !p.deleting && !(p.spec.ttl > 0 && o.now > p.created + p.spec.ttl) && p.forceUnlock
    ensures id in Reconcile(w, id, o).projects
    ensures var w', j := Reconcile(w, id, o), JobId(id, ForceUnlock);
            && (IsNew(j, w.jobs, w'.jobs) <==> id in w.tf && j !in w.jobs)
            && (!w'.projects[id].forceUnlock <==> id !in w.tf || (j in w.jobs && w.jobs[j].outcome != Active))
            && (!w'.projects[id].status.stateLocked <==>
                !w.projects[id].status.stateLocked || id !in w.tf || (j in w.jobs && w.jobs[j].outcome == Success))
  {
    hide Reconcile, ValidObs, PhaseAfter, ApprovedAfter, FinalizedAfter, DeletedAfter, Writes, PullsAfter, HashAfter,
         PendingAfter, NumberAfter, RetriesAfter, OutputsAfter, CheckedAfter, DriftAfter, Steered, MayRun, ChecksDrift,
         Plans, Repins;
    ReconcileFollowsRules(w, id, o);
    UnlockedNotSteered(w, id, o);
    NothingHappens(w, id, o);
    JobsBesides(w, id, o);
  }

  lemma UnlockedNotSteered(w: World, id: Key, o: Obs)
    requires ValidObs(w, id, o) && id in w.projects && w.projects[id].forceUnlock
    ensures !Steered(w, id, o) && !Repins(w.projects[id], o)
  {
  }

  /** Jobs come from reconciles of their own project, active, and only their end changes them. */
  lemma StepJobs(w: World, e: Event, j: JobId)
    requires Possible(w, e)
    ensures IsNew(j, w.jobs, Then(w, e).jobs) ==>
              e.Reconciled? && e.id == j.project && Then(w, e).jobs[j] == Job(Active, "")
    ensures j in w.jobs && j in Then(w, e).jobs && Then(w, e).jobs[j] != w.jobs[j] ==> e.Finished? && e.job == j
  {
    hide Reconcile, ValidObs;
    if e.Reconciled? {
      Moves.ReconcileIsLocal(w, e.id, e.o);
    }
  }

  /** A Job that was created and is active no more was ended in between. */
  lemma {:induction false} JobWasEnded(r: Run, j: JobId, c: nat, n: nat) returns (e: nat)
    requires IsRun(r) && CreatesAt(r, c, j) && c < n < |r.states|
    requires (forall k :: c < k <= n ==> j in r.states[k].jobs) && r.states[n].jobs[j].outcome != Active
    ensures c < e < n && r.events[e].Finished? && r.events[e].job == j
  {
    hide Possible, Then;
    assert IsStep(r, n - 1);
    StepJobs(r.states[n - 1], r.events[n - 1], j);
    if n - 1 > c && r.states[n - 1].jobs[j].outcome != Active {
      e := JobWasEnded(r, j, c, n - 1);
    } else {
      e := n - 1;
    }
  }

  ghost predicate ClearsAnnotation(r: Run, id: Key, n: nat) {
    && n + 1 < |r.states| && n < |r.events| && r.events[n].Reconciled? && r.events[n].id == id
    && id in r.states[n].projects && id in r.states[n + 1].projects
    && r.states[n].projects[id].forceUnlock && !r.states[n + 1].projects[id].forceUnlock
  }

  lemma ClearingNeedsTheJob(w: World, id: Key, o: Obs)
    requires ValidObs(w, id, o) && id in w.projects && w.projects[id].forceUnlock && id in w.tf
    ensures id in Reconcile(w, id, o).projects
    ensures !Reconcile(w, id, o).projects[id].forceUnlock ==>
              JobId(id, ForceUnlock) in w.jobs && w.jobs[JobId(id, ForceUnlock)].outcome != Active
  {
    hide Reconcile, ValidObs, PhaseAfter, ApprovedAfter, StatusAfter, FinalizedAfter, DeletedAfter, JobsFollow, Writes,
         PullsAfter;
    ReconcileFollowsRules(w, id, o);
  }

  lemma UnlockJobOrigin(w: World, id: Key, o: Obs)
    requires ValidObs(w, id, o) && id in w.projects && IsNew(JobId(id, ForceUnlock), w.jobs, Reconcile(w, id, o).jobs)
    ensures w.projects[id].forceUnlock && id in w.tf
  {
    hide Reconcile, ValidObs, ProjectAfter, Writes, PullsAfter, Steered, MayRun, Repins, Plans, ChecksDrift, Clears;
    ReconcileFollowsRules(w, id, o);
  }

  /** With the ConfigMap there, the annotation is cleared only after a force-unlock Job it asked for has ended. */
  lemma UnlockEndsFirst(r: Run, id: Key, n: nat) returns (c: nat, e: nat)
    requires IsRun(r) && ClearsAnnotation(r, id, n) && id in r.states[n].tf
    requires JobId(id, ForceUnlock) !in r.states[0].jobs
    ensures c < e < n && CreatesAt(r, c, JobId(id, ForceUnlock))
    ensures id in r.states[c].projects && r.states[c].projects[id].forceUnlock
    ensures r.events[e].Finished? && r.events[e].job == JobId(id, ForceUnlock)
    ensures forall k :: c < k <= n ==> JobId(id, ForceUnlock) in r.states[k].jobs
  {
    hide Reconcile, ValidObs;
    var j := JobId(id, ForceUnlock);
    assert IsStep(r, n);
    ClearingNeedsTheJob(r.states[n], id, r.events[n].o);
    c := JobHasOrigin(r, j, n);
    assert IsStep(r, c);
    StepJobs(r.states[c], r.events[c], j);
    UnlockOriginAt(r.states[c], r.events[c], id);
    e := JobWasEnded(r, j, c, n);
  }

  lemma UnlockOriginAt(w: World, e: Event, id: Key)
    requires Possible(w, e) && e.Reconciled? && e.id == id && IsNew(JobId(id, ForceUnlock), w.jobs, Then(w, e).jobs)
    ensures id in w.projects && w.projects[id].forceUnlock
  {
    hide LocalStep, ValidObs;
    if id in w.projects {
      UnlockJobOrigin(w, id, e.o);
    }
  }

  // ----- Jobs that start and Jobs that are deleted -----

  /** A Job is created if and only if the rules want one of its kind and there is none of its name. */
  lemma StartsExactly(w: World, id: Key, o: Obs, j: JobId)
    requires ValidObs(w, id, o) && id in w.projects
    ensures IsNew(j, w.jobs, Reconcile(w, id, o).jobs) <==> j.project == id && j !in w.jobs && Wants(w, id, o, j.kind)
  {
    hide Reconcile, ValidObs, ProjectAfter, Writes, PullsAfter, Wants, Clears;
    ReconcileFollowsRules(w, id, o);
  }

  /**
   An active Job is deleted if and only if it is the project's and either a force-unlock sweeps it away or it is a
   destroy Job stuck on a resource for longer than the spec allows.
   */
  lemma EndsActiveJobExactly(w: World, id: Key, o: Obs, j: JobId)
    requires ValidObs(w, id, o) && id in w.projects && IsActive(w.jobs, j)
    ensures var p := w.projects[id];
            j !in Reconcile(w, id, o).jobs <==>
            && j.project == id
            && (|| (&& !p.deleting && !(p.spec.ttl > 0 && o.now > p.created + p.spec.ttl) && p.forceUnlock
                    && !j.kind.ForceUnlock?)
                || (&& j.kind.Destroy? && p.deleting && p.finalizer && (p.spec.deleteProtection ==> p.approvedDelete)
                    && id in w.tf && p.spec.resourceTimeout > 0 && o.stuck))
  {
    hide Reconcile, ValidObs, ProjectAfter, Writes, PullsAfter, Wants, ChecksDrift, MayRun;
    ReconcileFollowsRules(w, id, o);
  }

  const HASH: Digest := "0123456789abcdef"
  const APPLY_JOB := JobId(DEMO, Apply(HASH[..8]))

  /** A project whose apply Job is active, with a resource timeout. */
  const STUCK := World(
    map[DEMO := PlainProject(PlainSpec(true, false, "", None, false).(resourceTimeout := 1), CLEAN.(phase := Running))],
    map[APPLY_JOB := Job(Active, "")], {DEMO}, map[])

  /** An apply Job that is stuck on a resource for longer than the spec allows stays active. */
  lemma StuckApplyStays()
    ensures var o := PlainObs(HASH, [APPLY_JOB]).(stuck := true);
            && ValidObs(STUCK, DEMO, o) && STUCK.projects[DEMO].spec.resourceTimeout > 0
            && IsActive(Reconcile(STUCK, DEMO, o).jobs, APPLY_JOB)
  {
    hide Reconcile;
    var o := PlainObs(HASH, [APPLY_JOB]).(stuck := true);
    assert Params.AreOrders([], NO_INPUTS.dependencies);
    assert ValidObs(STUCK, DEMO, o);
    EndsActiveJobExactly(STUCK, DEMO, o, APPLY_JOB);
    Moves.ReconcileIsLocal(STUCK, DEMO, o);
  }
}
