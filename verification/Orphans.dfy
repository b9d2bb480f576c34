/**
 How a deleted project goes: if it ever had an apply Job, not before a destroy Job of this deletion has succeeded.
 From the deletion on nothing but destroy Jobs is started, but what already runs is not waited for.
 */
module Orphans {
  import opened Wrappers
  import opened Api
  import opened Protocol
  import opened Moves
  import opened Traces
  import opened PlainProjects

  /** No leftover destroy Job when the project comes into being, and nobody else deletes its `-tf` ConfigMap. */
  ghost predicate Undisturbed(r: Run, id: Key) {
    && IsRun(r)
    && JobId(id, Destroy) !in r.states[0].jobs
    && forall i :: 0 <= i < |r.events| ==>
         && (r.events[i].Registered? && r.events[i].id == id ==> JobId(id, Destroy) !in r.states[i].jobs)
         && (r.events[i] == ConfigMapDropped(id) ==> id !in r.states[i].projects)
  }

  ghost predicate LosesFinalizer(r: Run, id: Key, n: nat) {
    && n + 1 < |r.states| && id in r.states[n].projects && id in r.states[n + 1].projects
    && r.states[n].projects[id].finalizer && !r.states[n + 1].projects[id].finalizer
  }

  /** Deletion is under way, and approved where the spec protects against it. */
  ghost predicate MayDestroy(w: World, id: Key) {
    && id in w.projects && w.projects[id].deleting
    && (w.projects[id].spec.deleteProtection ==> w.projects[id].approvedDelete)
  }

  /** The destroy Job that exists in state n was created at step i, in a deletion that may destroy. */
  ghost predicate DestroyedFor(r: Run, id: Key, i: nat, n: nat) {
    && i < n && Alive(r, id, i, n)
    && CreatesAt(r, i, JobId(id, Destroy)) && MayDestroy(r.states[i], id)
    && (forall k :: i < k <= n ==> JobId(id, Destroy) in r.states[k].jobs)
  }

  // ----- what a move can do here -----

  lemma MoveKeepsConfigMaps(b: Local, id: Key, others: map<Key, Project>, o: Obs, v: Move, m: Local)
    requires Makes(b, id, others, o, v, m)
    ensures m.tf == b.tf
    ensures v.Start? && v.kind.Apply? ==> id in m.tf
    ensures v.Start? && v.kind.Destroy? ==> b.p.deleting && (b.p.spec.deleteProtection ==> b.p.approvedDelete)
    ensures b.p.finalizer && !m.p.finalizer ==>
              && b.p.deleting && (b.p.spec.deleteProtection ==> b.p.approvedDelete)
              && (id !in b.tf || Ended(b.jobs, JobId(id, Destroy), Success))
  {
    hide UpstreamsReady, LockFree, MustWait, NoDriftJob, SelfApproves;
  }

  lemma ReconcileEffect(w: World, id: Key, o: Obs)
    requires ValidObs(w, id, o) && id in w.projects
    ensures var w' := Reconcile(w, id, o);
            && w.tf <= w'.tf
            && id in w'.projects
            && (forall x :: IsNew(JobId(id, Apply(x)), w.jobs, w'.jobs) ==> id in w'.tf)
            && (IsNew(JobId(id, Destroy), w.jobs, w'.jobs) ==> MayDestroy(w, id))
            && (w.projects[id].finalizer && !w'.projects[id].finalizer ==>
                  MayDestroy(w, id) && (id !in w.tf || Ended(w.jobs, JobId(id, Destroy), Success)))
  {
    hide LocalStep, Makes, ValidObs, MayStart, KillActive, ClosedPR;
    var b, v := ReconcileMoves(w, id, o);
    var m := Loaded(Reconcile(w, id, o), id);
    SettlingShrinks(Loaded(w, id), id, o, b);
    MoveJobs(b, id, w.projects, o, v, m);
    MoveKeepsConfigMaps(b, id, w.projects, o, v, m);
  }

  /** A reconcile removes the finalizer iff deletion may destroy and there is nothing to destroy or it has been. */
  lemma ReleasesExactlyWhenDestroyed(w: World, id: Key, o: Obs)
    requires ValidObs(w, id, o) && id in w.projects && w.projects[id].finalizer
    ensures id in Reconcile(w, id, o).projects
    ensures !Reconcile(w, id, o).projects[id].finalizer <==>
            MayDestroy(w, id) && (id !in w.tf || Ended(w.jobs, JobId(id, Destroy), Success))
  {
    hide ValidObs, LiveStep, MainStep, Bounded;
    ReconcileEffect(w, id, o);
    if MayDestroy(w, id) && (id !in w.tf || Ended(w.jobs, JobId(id, Destroy), Success)) {
      ReleasingStep(Loaded(w, id), id, o);
    }
  }

  lemma ReleasingStep(l: Local, id: Key, o: Obs)
    requires l.p.deleting && l.p.finalizer && (l.p.spec.deleteProtection ==> l.p.approvedDelete)
    requires id !in l.tf || Ended(l.jobs, JobId(id, Destroy), Success)
    ensures LifecycleStep(l, id, o).Some? && !LifecycleStep(l, id, o).value.l.p.finalizer
  {
    hide LiveStep;
  }

  lemma StepEffect(w: World, e: Event, id: Key)
    requires Possible(w, e)
    ensures var w' := Then(w, e);
            && (id in w.tf && e != ConfigMapDropped(id) ==> id in w'.tf)
            && (forall x :: IsNew(JobId(id, Apply(x)), w.jobs, w'.jobs) ==> id in w'.tf)
            && (IsNew(JobId(id, Destroy), w.jobs, w'.jobs) ==> MayDestroy(w, id))
            && (id in w.projects && id in w'.projects && w.projects[id].finalizer && !w'.projects[id].finalizer ==>
                  MayDestroy(w, id) && (id !in w.tf || Ended(w.jobs, JobId(id, Destroy), Success)))
            && (id !in w.projects && id in w'.projects ==> e.Registered? && e.id == id && w'.jobs == w.jobs)
  {
    hide LocalStep, ValidObs;
    if e.Reconciled? {
      ReconcileIsLocal(w, e.id, e.o);
      if e.id == id && id in w.projects {
        ReconcileEffect(w, id, e.o);
      }
    }
  }

  // ----- over runs -----

  /** From the first apply Job of a project on, its `-tf` ConfigMap exists. */
  lemma {:induction false} ConfigMapStays(r: Run, id: Key, a: nat, x: string, n: nat)
    requires Undisturbed(r, id) && CreatesAt(r, a, JobId(id, Apply(x)))
    requires a < n && Alive(r, id, a, n)
    ensures id in r.states[n].tf
  {
    hide Possible, Then, MayDestroy;
    assert IsStep(r, n - 1);
    StepEffect(r.states[n - 1], r.events[n - 1], id);
    if n > a + 1 {
      ConfigMapStays(r, id, a, x, n - 1);
    }
  }

  /** Whenever a project has a destroy Job, it was created in that project's own deletion. */
  lemma {:induction false} DestroyJobsAreOwn(r: Run, id: Key, n: nat) returns (i: nat)
    requires Undisturbed(r, id) && n < |r.states|
    requires id in r.states[n].projects && JobId(id, Destroy) in r.states[n].jobs
    ensures DestroyedFor(r, id, i, n)
  {
    hide Possible, Then, MayDestroy;
    assert IsStep(r, n - 1);
    StepEffect(r.states[n - 1], r.events[n - 1], id);
    if JobId(id, Destroy) in r.states[n - 1].jobs {
      i := DestroyJobsAreOwn(r, id, n - 1);
    } else {
      i := n - 1;
    }
  }

  /**
   A project that ever had an apply Job loses its finalizer only after a destroy Job that was created in this very
   deletion, approved where the spec protects against it, has succeeded.
   */
  lemma NoOrphans(r: Run, id: Key, a: nat, x: string, n: nat) returns (i: nat)
    requires Undisturbed(r, id) && CreatesAt(r, a, JobId(id, Apply(x)))
    requires a < n && Alive(r, id, a, n) && LosesFinalizer(r, id, n)
    ensures DestroyedFor(r, id, i, n) && Ended(r.states[n].jobs, JobId(id, Destroy), Success)
  {
    hide Possible, Then, MayDestroy;
    ConfigMapStays(r, id, a, x, n);
    assert IsStep(r, n);
    StepEffect(r.states[n], r.events[n], id);
    i := DestroyJobsAreOwn(r, id, n);
  }

  // ----- the Jobs of a deletion -----

  lemma DeletingStep(l: Local, id: Key, o: Obs)
    requires l.p.deleting
    ensures LifecycleStep(l, id, o).Some?
    ensures var m := LifecycleStep(l, id, o).value.l;
            m.p.deleting && m.jobs - {JobId(id, Destroy)} == l.jobs - {JobId(id, Destroy)}
  {
    hide LiveStep;
  }

  /** The reconcile of a deleted project touches no Job but its destroy Job. */
  lemma DeletionTouchesDestroyOnly(w: World, id: Key, o: Obs)
    requires ValidObs(w, id, o) && id in w.projects && w.projects[id].deleting
    ensures Reconcile(w, id, o).jobs - {JobId(id, Destroy)} == w.jobs - {JobId(id, Destroy)}
    ensures id in Reconcile(w, id, o).projects && Reconcile(w, id, o).projects[id].deleting
  {
    hide ValidObs, LifecycleStep, MainStep, Bounded;
    DeletingStep(Loaded(w, id), id, o);
  }

  /** The Job finishes, or somebody other than the controller deletes it. */
  predicate EndsJob(e: Event, j: JobId) {
    (e.Finished? || e.Removed?) && e.job == j
  }

  lemma DeletionStep(w: World, e: Event, j: JobId)
    requires Possible(w, e) && j.project in w.projects && w.projects[j.project].deleting && !j.kind.Destroy?
    ensures var w' := Then(w, e);
            && (j.project in w'.projects ==> w'.projects[j.project].deleting)
            && !IsNew(j, w.jobs, w'.jobs)
            && (IsActive(w'.jobs, j) <==> IsActive(w.jobs, j) && !EndsJob(e, j))
  {
    hide LocalStep, ValidObs;
    if e.Reconciled? {
      ReconcileIsLocal(w, e.id, e.o);
      if e.id == j.project {
        var w' := Reconcile(w, e.id, e.o);
        DeletionTouchesDestroyOnly(w, e.id, e.o);
        assert j in w'.jobs <==> j in w'.jobs - {JobId(e.id, Destroy)};
        assert j in w.jobs <==> j in w.jobs - {JobId(e.id, Destroy)};
      }
    }
  }

  lemma {:induction false} StaysDeleting(r: Run, id: Key, d: nat, n: nat)
    requires IsRun(r) && d <= n && Alive(r, id, d, n) && r.states[d].projects[id].deleting
    ensures r.states[n].projects[id].deleting
  {
    hide Possible, Then;
    if d < n {
      StaysDeleting(r, id, d, n - 1);
      assert IsStep(r, n - 1);
      DeletionStep(r.states[n - 1], r.events[n - 1], JobId(id, ForceUnlock));
    }
  }

  /** From the deletion on, every Job created for the project is a destroy Job. */
  lemma OnlyDestroyStarts(r: Run, d: nat, n: nat, j: JobId)
    requires IsRun(r) && d <= n && Alive(r, j.project, d, n) && r.states[d].projects[j.project].deleting
    requires CreatesAt(r, n, j)
    ensures j.kind.Destroy?
  {
    hide Possible, Then;
    StaysDeleting(r, j.project, d, n);
    assert IsStep(r, n);
    if !j.kind.Destroy? {
      DeletionStep(r.states[n], r.events[n], j);
    }
  }

  /** Any other Job of the project is active exactly if it already was and nothing outside has ended it since. */
  lemma {:induction false} DeletionWaitsForNoJob(r: Run, d: nat, n: nat, j: JobId)
    requires IsRun(r) && d <= n && Alive(r, j.project, d, n) && r.states[d].projects[j.project].deleting
    requires !j.kind.Destroy?
    ensures IsActive(r.states[n].jobs, j) <==>
            IsActive(r.states[d].jobs, j) && forall i :: d <= i < n ==> !EndsJob(r.events[i], j)
  {
    hide Possible, Then, IsActive, EndsJob;
    if d < n {
      DeletionWaitsForNoJob(r, d, n - 1, j);
      StaysDeleting(r, j.project, d, n - 1);
      assert IsStep(r, n - 1);
      DeletionStep(r.states[n - 1], r.events[n - 1], j);
    }
  }

  /** No plan, apply, drift or force-unlock Job of the project is active. */
  ghost predicate NothingElseActive(w: World, id: Key) {
    forall j :: j in w.jobs && j.project == id && !j.kind.Destroy? ==> !IsActive(w.jobs, j)
  }

  /** A project deleted while nothing else of it is active is released with nothing else active. */
  lemma QuietDeletionStaysQuiet(r: Run, id: Key, d: nat, n: nat)
    requires IsRun(r) && d <= n && Alive(r, id, d, n) && r.states[d].projects[id].deleting
    requires NothingElseActive(r.states[d], id)
    ensures NothingElseActive(r.states[n], id)
  {
    hide Possible, Then;
    forall j | j in r.states[n].jobs && j.project == id && !j.kind.Destroy? ensures !IsActive(r.states[n].jobs, j) {
      DeletionWaitsForNoJob(r, d, n, j);
    }
  }

  // ----- a release beside an active apply Job -----

  const HASH: Digest := "0123456789abcdef"
  const APPLY_JOB := JobId(DEMO, Apply(HASH[..8]))
  const DESTROY_JOB := JobId(DEMO, Destroy)
  const BUSY: Jobs := map[APPLY_JOB := Job(Active, "")]

  function Demo(phase: Phase, finalizer: bool, deleting: bool, tf: set<Key>, jobs: Jobs): World {
    var p := PlainProject(PlainSpec(true, false, "", None, false), CLEAN.(phase := phase));
    World(map[DEMO := p.(finalizer := finalizer, deleting := deleting)], jobs, tf, map[])
  }

  const REGISTERED := Demo(NoPhase, true, false, {}, map[])
  const APPLYING := Demo(Running, true, false, {DEMO}, BUSY)
  const DELETED := Demo(Running, true, true, {DEMO}, BUSY)
  const DESTROYING := Demo(Destroying, true, true, {DEMO}, BUSY[DESTROY_JOB := Job(Active, "")])
  const DESTROYED := Demo(Destroying, true, true, {DEMO}, BUSY[DESTROY_JOB := Job(Success, "")])
  const RELEASED := Demo(Destroying, false, true, {DEMO}, BUSY[DESTROY_JOB := Job(Success, "")])

  lemma ApplyStarts()
    ensures Steps(REGISTERED, Reconciled(DEMO, PlainObs(HASH, [])), APPLYING)
  {
    hide Reconcile, ValidObs, FirstDrift, InSync;
    PlainReconcile(REGISTERED, HASH, []);
  }

  lemma DeletionIsRequested()
    ensures Steps(APPLYING, DeleteRequested(DEMO), DELETED)
  {
  }

  lemma DestroyStarts()
    ensures Steps(DELETED, Reconciled(DEMO, PlainObs(HASH, [APPLY_JOB])), DESTROYING)
  {
    hide LiveStep, MainStep, Bounded;
  }

  lemma DestroyEnds()
    ensures Steps(DESTROYING, Finished(DESTROY_JOB, Success, ""), DESTROYED)
  {
  }

  lemma FinalizerGoes()
    ensures Steps(DESTROYED, Reconciled(DEMO, PlainObs(HASH, [APPLY_JOB, DESTROY_JOB])), RELEASED)
  {
    hide LiveStep, MainStep, Bounded;
  }

  /** Deleted while its apply Job runs, the project is destroyed and released, with that Job still running. */
  lemma ReleasedWhileApplying()
    ensures var r := Run([REGISTERED, APPLYING, DELETED, DESTROYING, DESTROYED, RELEASED],
                         [Reconciled(DEMO, PlainObs(HASH, [])),
                          DeleteRequested(DEMO),
                          Reconciled(DEMO, PlainObs(HASH, [APPLY_JOB])),
                          Finished(DESTROY_JOB, Success, ""),
                          Reconciled(DEMO, PlainObs(HASH, [APPLY_JOB, DESTROY_JOB]))]);
            && Undisturbed(r, DEMO) && CreatesAt(r, 0, APPLY_JOB) && LosesFinalizer(r, DEMO, 4)
            && IsActive(r.states[4].jobs, APPLY_JOB) && IsActive(r.states[5].jobs, APPLY_JOB)
  {
    hide Possible, Then;
    ApplyStarts();
    DeletionIsRequested();
    DestroyStarts();
    DestroyEnds();
    FinalizerGoes();
  }
}
