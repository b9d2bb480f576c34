/** Projects run only after their upstream projects have succeeded. */
module DependencyOrder {
  import opened Api
  import opened Protocol
  import opened Moves
  import opened Traces
  import opened ParamLaws

  /** Upstream projects that each project names in every state, under whatever else it may add from time to time. */
  type Graph = map<Key, set<Key>>

  ghost predicate Declares(w: World, g: Graph) {
    forall id, k :: id in w.projects && id in g && k in g[id] ==> DependsOn(w.projects[id].spec.inputs, id.ns, k)
  }

  ghost predicate Unpinned(w: World, g: Graph) {
    forall id :: id in w.projects && id in g ==> w.projects[id].spec.pinnedRevision <= 0
  }

  ghost predicate Succeeds(w: World, id: Key) {
    id in w.projects && w.projects[id].status.phase == Succeeded
  }

  ghost predicate Follows(r: Run, g: Graph) {
    IsRun(r) && forall i :: 0 <= i < |r.states| ==> Declares(r.states[i], g) && Unpinned(r.states[i], g)
  }

  predicate IsRunning(k: Kind) {
    k.Plan? || k.Apply? || k.Drift?
  }

  lemma ReadyMeansSucceeded(p: Project, q: Project, o: Obs, id: Key, others: map<Key, Project>, k: Key)
    requires id in others && others[id] == p && Settles(p, q, o) && UpstreamsReady(q, id, others)
    requires DependsOn(p.spec.inputs, id.ns, k)
    ensures k in others && others[k].status.phase == Succeeded
  {
    var i :| 0 <= i < |p.spec.inputs.dependencies| && p.spec.inputs.dependencies[i].project.In(id.ns) == k;
    var d := p.spec.inputs.dependencies[i];
    assert d in q.spec.inputs.dependencies;
  }

  /** A move that creates a plan, apply or drift Job or reaches Succeeded has the flow's guard, unless it is pinned. */
  lemma SuccessNeedsFlow(b: Local, id: Key, others: map<Key, Project>, o: Obs, v: Move, m: Local)
    requires Makes(b, id, others, o, v, m) && b.p.spec.pinnedRevision <= 0
    ensures v.Start? && IsRunning(v.kind) ==> InFlow(b, id, others)
    ensures m.p.status.phase == Succeeded && b.p.status.phase != Succeeded ==> InFlow(b, id, others)
  {
    hide UpstreamsReady, LockFree, MustWait, NoDriftJob, SelfApproves;
  }

  lemma ReconcileNeedsUpstreams(w: World, id: Key, o: Obs, k: Key)
    requires ValidObs(w, id, o) && id in w.projects && w.projects[id].spec.pinnedRevision <= 0
    requires DependsOn(w.projects[id].spec.inputs, id.ns, k)
    ensures var w' := Reconcile(w, id, o);
            && (Succeeds(w', id) && !Succeeds(w, id) ==> Succeeds(w, k))
            && (forall j :: IsNew(j, w.jobs, w'.jobs) && IsRunning(j.kind) ==> j.project == id && Succeeds(w, k))
            && (forall x :: x != id ==> (Succeeds(w', x) <==> Succeeds(w, x)))
  {
    hide LocalStep, Makes, ValidObs, DependsOn, UpstreamsReady, MayStart, KillActive, ClosedPR;
    var b, v := ReconcileMoves(w, id, o);
    var m := Loaded(Reconcile(w, id, o), id);
    SettlingShrinks(Loaded(w, id), id, o, b);
    MoveJobs(b, id, w.projects, o, v, m);
    SuccessNeedsFlow(b, id, w.projects, o, v, m);
    if InFlow(b, id, w.projects) {
      ReadyMeansSucceeded(w.projects[id], b.p, o, id, w.projects, k);
    }
  }

  lemma StepNeedsUpstreams(w: World, e: Event, g: Graph, id: Key, k: Key)
    requires Possible(w, e) && Declares(w, g) && Unpinned(w, g) && id in g && k in g[id]
    ensures Succeeds(Then(w, e), id) && !Succeeds(w, id) ==> Succeeds(w, k)
    ensures forall j :: IsNew(j, w.jobs, Then(w, e).jobs) && IsRunning(j.kind) && j.project == id ==> Succeeds(w, k)
  {
    hide LocalStep, ValidObs, DependsOn;
    if e.Reconciled? && e.id in w.projects {
      if e.id == id {
        ReconcileNeedsUpstreams(w, id, e.o, k);
      } else {
        ReconcileIsLocal(w, e.id, e.o);
      }
    }
  }

  /** A plan, apply or drift Job is created only while every upstream project is Succeeded. */
  lemma JobsWaitForUpstreams(r: Run, g: Graph, i: nat, j: JobId, k: Key)
    requires Follows(r, g) && CreatesAt(r, i, j) && IsRunning(j.kind)
    requires j.project in g && k in g[j.project]
    ensures Succeeds(r.states[i], k)
  {
    hide Possible, Then, Declares, Unpinned;
    assert IsStep(r, i);
    StepNeedsUpstreams(r.states[i], r.events[i], g, j.project, k);
  }

  /** The first state of the run in which the project has succeeded. */
  ghost predicate FirstSuccess(r: Run, id: Key, n: nat) {
    && n < |r.states| && Succeeds(r.states[n], id)
    && forall m :: 0 <= m < n ==> !Succeeds(r.states[m], id)
  }

  lemma {:induction false} SomeFirstSuccess(r: Run, id: Key, n: nat) returns (m: nat)
    requires n < |r.states| && Succeeds(r.states[n], id)
    ensures m <= n && FirstSuccess(r, id, m)
  {
    m := n;
    if i :| 0 <= i < n && Succeeds(r.states[i], id) {
      m := SomeFirstSuccess(r, id, i);
    }
  }

  /** First successes form a topological order: each upstream project succeeds for the first time strictly earlier. */
  lemma UpstreamSucceedsFirst(r: Run, g: Graph, id: Key, n: nat, k: Key) returns (m: nat)
    requires Follows(r, g) && id in g && k in g[id]
    requires FirstSuccess(r, id, n) && !Succeeds(r.states[0], id)
    ensures m < n && FirstSuccess(r, k, m)
  {
    hide Possible, Then, Declares, Unpinned;
    assert IsStep(r, n - 1);
    StepNeedsUpstreams(r.states[n - 1], r.events[n - 1], g, id, k);
    m := SomeFirstSuccess(r, k, n - 1);
  }

  /** Each of these projects waits for another of them: a dependency cycle, and whatever depends on one. */
  ghost predicate Deadlocked(g: Graph, ids: set<Key>) {
    forall id :: id in ids ==> id in g && exists k :: k in g[id] && k in ids
  }

  lemma {:induction false} NobodyDeadlockedSucceeds(r: Run, g: Graph, ids: set<Key>, n: nat, id: Key)
    requires Follows(r, g) && Deadlocked(g, ids) && n < |r.states| && id in ids
    requires forall x :: x in ids ==> !Succeeds(r.states[0], x)
    ensures !Succeeds(r.states[n], id)
    decreases n
  {
    hide Possible, Then, Declares, Unpinned, Succeeds;
    if n > 0 {
      var k :| k in g[id] && k in ids;
      NobodyDeadlockedSucceeds(r, g, ids, n - 1, id);
      NobodyDeadlockedSucceeds(r, g, ids, n - 1, k);
      assert IsStep(r, n - 1);
      StepNeedsUpstreams(r.states[n - 1], r.events[n - 1], g, id, k);
    }
  }

  lemma CreationIsInRange(r: Run, i: nat, j: JobId)
    requires CreatesAt(r, i, j)
    ensures i + 1 < |r.states|
  {
  }

  /** No project on a dependency cycle, or behind one, ever gets a plan, apply or drift Job. */
  lemma NobodyDeadlockedRuns(r: Run, g: Graph, ids: set<Key>, i: nat, j: JobId)
    requires Follows(r, g) && Deadlocked(g, ids) && j.project in ids && IsRunning(j.kind)
    requires forall x :: x in ids ==> !Succeeds(r.states[0], x)
    ensures !CreatesAt(r, i, j)
  {
    hide Follows, Succeeds, CreatesAt;
    if CreatesAt(r, i, j) {
      CreationIsInRange(r, i, j);
      var k :| k in g[j.project] && k in ids;
      JobsWaitForUpstreams(r, g, i, j, k);
      NobodyDeadlockedSucceeds(r, g, ids, i, k);
    }
  }

  /** Each project of the sequence depends on the next one, and the last on the first. */
  ghost predicate IsCycle(g: Graph, c: seq<Key>) {
    && |c| > 0
    && (forall i :: 0 <= i < |c| ==> c[i] in g)
    && (forall i :: 0 <= i < |c| - 1 ==> c[i + 1] in g[c[i]])
    && c[0] in g[c[|c| - 1]]
  }

  lemma CycleIsDeadlocked(g: Graph, c: seq<Key>)
    requires IsCycle(g, c)
    ensures Deadlocked(g, set x | x in c)
  {
    forall id | id in c
      ensures exists k :: k in g[id] && k in c
    {
      var n :| 0 <= n < |c| && c[n] == id;
      var k := if n == |c| - 1 then c[0] else c[n + 1];
      assert k in g[id] && k in c;
    }
  }

  lemma CycleNeverRuns(r: Run, g: Graph, c: seq<Key>, i: nat, j: JobId)
    requires Follows(r, g) && IsCycle(g, c) && j.project in c && IsRunning(j.kind)
    requires forall x :: x in c ==> !Succeeds(r.states[0], x)
    ensures !CreatesAt(r, i, j)
  {
    hide Follows, Succeeds, CreatesAt, IsCycle, Deadlocked;
    CycleIsDeadlocked(g, c);
    NobodyDeadlockedRuns(r, g, (set x | x in c), i, j);
  }
}
