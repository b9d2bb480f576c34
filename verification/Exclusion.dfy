/** Job exclusion in every reachable state. */
module Exclusion {
  import opened Api
  import opened Protocol
  import opened Moves
  import opened Traces

  /** Jobs that read or write a project's state under its lock; destroy Jobs are created without looking at it. */
  predicate IsLocking(k: Kind) {
    k.Plan? || k.Apply? || k.ForceUnlock?
  }

  /** No project has two active locking Jobs, and none has two drift Jobs. */
  ghost predicate Exclusive(jobs: Jobs) {
    && (forall j, k :: IsActive(jobs, j) && IsActive(jobs, k) && j.project == k.project
                       && IsLocking(j.kind) && IsLocking(k.kind)
                       ==> j == k)
    && (forall j, k :: j in jobs && k in jobs && j.project == k.project && j.kind.Drift? && k.kind.Drift? ==> j == k)
  }

  /** At most one active plan, apply or drift Job in the namespace. */
  ghost predicate NamespaceExclusive(jobs: Jobs, ns: string) {
    forall j, k :: IsActive(jobs, j) && IsActive(jobs, k) && j.project.ns == ns && k.project.ns == ns
                   && (j.kind.Plan? || j.kind.Apply? || j.kind.Drift?)
                   && (k.kind.Plan? || k.kind.Apply? || k.kind.Drift?)
                   ==> j == k
  }

  lemma ShrinkingKeeps(before: Jobs, after: Jobs)
    requires Shrinks(before, after) && Exclusive(before)
    ensures Exclusive(after)
  {
  }

  /** The guard of a locking Job leaves no other one, except that a force-unlock Job may find itself. */
  lemma NothingToRunBeside(b: Local, id: Key, others: map<Key, Project>, o: Obs, k: Kind)
    requires MayStart(b, id, others, o, k) && IsLocking(k)
    ensures forall j :: IsActive(b.jobs, j) && j.project == id && IsLocking(j.kind) ==> j.kind == k
  {
    hide UpstreamsReady, MayApply;
  }

  lemma StartKeeps(b: Local, id: Key, others: map<Key, Project>, o: Obs, k: Kind)
    requires MayStart(b, id, others, o, k) && Exclusive(b.jobs)
    ensures Exclusive(b.jobs[JobId(id, k) := Job(Active, "")])
  {
    if IsLocking(k) {
      NothingToRunBeside(b, id, others, o, k);
      hide MayStart;
    } else {
      hide UpstreamsReady, MayApply, LockFree;
    }
  }

  lemma ReconcileKeeps(w: World, id: Key, o: Obs)
    requires ValidObs(w, id, o) && Exclusive(w.jobs)
    ensures Exclusive(Reconcile(w, id, o).jobs)
  {
    hide Settled, Makes, ValidObs, Shrinks, Exclusive, LocalStep, MayStart;
    if id in w.projects {
      var b, v := ReconcileMoves(w, id, o);
      var m := Loaded(Reconcile(w, id, o), id);
      SettlingShrinks(Loaded(w, id), id, o, b);
      ShrinkingKeeps(w.jobs, b.jobs);
      MoveJobs(b, id, w.projects, o, v, m);
      if v.Start? {
        StartKeeps(b, id, w.projects, o, v.kind);
      } else {
        ShrinkingKeeps(b.jobs, m.jobs);
      }
    }
  }

  lemma StepKeepsExclusive(w: World, e: Event)
    requires Possible(w, e) && Exclusive(w.jobs)
    ensures Exclusive(Then(w, e).jobs)
  {
    hide Reconcile, ValidObs;
    if e.Reconciled? {
      ReconcileKeeps(w, e.id, e.o);
    }
  }

  /** From any state in which it holds, such as one without Jobs, exclusion holds in every state of every run. */
  lemma {:induction false} ExclusiveAlways(r: Run, n: nat)
    requires IsRun(r) && n < |r.states| && Exclusive(r.states[0].jobs)
    ensures Exclusive(r.states[n].jobs)
  {
    hide Exclusive, Possible, Then;
    if n > 0 {
      ExclusiveAlways(r, n - 1);
      assert IsStep(r, n - 1);
      StepKeepsExclusive(r.states[n - 1], r.events[n - 1]);
    }
  }

  // ----- the shared cache -----

  ghost predicate AllShared(w: World, ns: string) {
    forall id :: id in w.projects && id.ns == ns ==> w.projects[id].spec.sharedCache
  }

  lemma NothingActiveInNamespace(b: Local, id: Key, others: map<Key, Project>, o: Obs, k: Kind)
    requires MayStart(b, id, others, o, k) && b.p.spec.sharedCache && (k.Plan? || k.Apply? || k.Drift?)
    ensures forall j :: IsActive(b.jobs, j) ==> j.project.ns != id.ns
  {
    hide UpstreamsReady, MayApply, NoDriftJob;
  }

  lemma SharedStartKeeps(b: Local, id: Key, others: map<Key, Project>, o: Obs, k: Kind, ns: string)
    requires MayStart(b, id, others, o, k) && NamespaceExclusive(b.jobs, ns)
    requires id.ns == ns ==> b.p.spec.sharedCache
    ensures NamespaceExclusive(b.jobs[JobId(id, k) := Job(Active, "")], ns)
  {
    if id.ns == ns && (k.Plan? || k.Apply? || k.Drift?) {
      NothingActiveInNamespace(b, id, others, o, k);
    }
    hide MayStart;
  }

  lemma ReconcileKeepsNamespace(w: World, id: Key, o: Obs, ns: string)
    requires ValidObs(w, id, o) && AllShared(w, ns) && NamespaceExclusive(w.jobs, ns)
    ensures NamespaceExclusive(Reconcile(w, id, o).jobs, ns)
  {
    hide Makes, ValidObs, LocalStep, MayStart, KillActive, ClosedPR;
    if id in w.projects {
      var b, v := ReconcileMoves(w, id, o);
      SettlingShrinks(Loaded(w, id), id, o, b);
      MoveJobs(b, id, w.projects, o, v, Loaded(Reconcile(w, id, o), id));
      if v.Start? {
        SharedStartKeeps(b, id, w.projects, o, v.kind, ns);
      }
    }
  }

  lemma StepKeepsNamespaceExclusive(w: World, e: Event, ns: string)
    requires Possible(w, e) && AllShared(w, ns) && NamespaceExclusive(w.jobs, ns)
    ensures NamespaceExclusive(Then(w, e).jobs, ns)
  {
    hide Reconcile, ValidObs;
    if e.Reconciled? {
      ReconcileKeepsNamespace(w, e.id, e.o, ns);
    }
  }

  /** In a namespace where every project uses the shared cache, at most one plan, apply or drift Job is ever active. */
  lemma {:induction false} SharedCacheSerializes(r: Run, n: nat, ns: string)
    requires IsRun(r) && n < |r.states| && NamespaceExclusive(r.states[0].jobs, ns)
    requires forall i :: 0 <= i < n ==> AllShared(r.states[i], ns)
    ensures NamespaceExclusive(r.states[n].jobs, ns)
  {
    hide NamespaceExclusive, AllShared, Possible, Then;
    if n > 0 {
      SharedCacheSerializes(r, n - 1, ns);
      assert IsStep(r, n - 1);
      StepKeepsNamespaceExclusive(r.states[n - 1], r.events[n - 1], ns);
    }
  }
}
