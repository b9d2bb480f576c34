/** For a fixed desired state the controller creates a bounded number of Jobs, however the Jobs end. */
module BoundedWork {
  import opened Api
  import opened Protocol
  import opened Moves
  import opened Traces
  import opened ParamLaws
  import Params

  function ApplyJob(id: Key, h: Digest): JobId {
    JobId(id, Apply(Prefix(h)))
  }

  function PlanJob(id: Key, h: Digest): JobId {
    JobId(id, Plan(Prefix(h)))
  }

  function RetriesLeft(p: Project): nat {
    if p.spec.retry.Some? && p.status.retryCount < p.spec.retry.value.maxRetries
    then p.spec.retry.value.maxRetries - p.status.retryCount else 0
  }

  /** The apply Jobs that may still be created for this hash. */
  function ApplyBudget(p: Project, jobs: Jobs, id: Key, h: Digest): nat {
    if p.status.lastAppliedHash == h then 0
    else RetriesLeft(p) + if ApplyJob(id, h) in jobs then 0 else 1
  }

  /** The plan Jobs that may still be created for this hash. */
  function PlanBudget(p: Project, jobs: Jobs, id: Key, h: Digest): nat {
    if p.spec.autoApprove || p.status.lastAppliedHash == h || PlanJob(id, h) in jobs then 0 else 1
  }

  /**
   The project's spec, without pin and drift checks, and its hash are fixed, and nobody else deletes its Jobs: no other
   client, and no force-unlock.
   */
  ghost predicate Steady(r: Run, id: Key, spec: Spec, h: Digest) {
    && IsRun(r)
    && spec.pinnedRevision <= 0 && spec.driftInterval.None?
    && (forall i :: 0 <= i < |r.states| ==> IsSteady(r.states[i], id, spec))
    && (forall i :: 0 <= i < |r.events| ==>
          && (r.events[i].Reconciled? && r.events[i].id == id ==> r.events[i].o.hash == h)
          && (r.events[i].Removed? ==> r.events[i].job.project != id))
  }

  ghost predicate IsSteady(w: World, id: Key, spec: Spec) {
    id in w.projects && w.projects[id].spec == spec && !w.projects[id].forceUnlock
  }

  // ----- one reconcile -----

  lemma SettlingSpendsNothing(l: Local, id: Key, o: Obs, b: Local)
    requires Settled(l, id, o, b) && !l.p.forceUnlock
    ensures b.jobs == l.jobs && b.p.spec == l.p.spec && !b.p.forceUnlock
    ensures ApplyBudget(b.p, b.jobs, id, o.hash) == ApplyBudget(l.p, l.jobs, id, o.hash)
    ensures PlanBudget(b.p, b.jobs, id, o.hash) == PlanBudget(l.p, l.jobs, id, o.hash)
  {
    hide KillActive, ClosedPR;
  }

  lemma MoveSpends(b: Local, id: Key, others: map<Key, Project>, o: Obs, v: Move, m: Local)
    requires Makes(b, id, others, o, v, m)
    requires b.p.spec.pinnedRevision <= 0 && b.p.spec.driftInterval.None?
    ensures ApplyBudget(m.p, m.jobs, id, o.hash) + (if v == Start(Apply(Prefix(o.hash))) then 1 else 0)
         <= ApplyBudget(b.p, b.jobs, id, o.hash)
    ensures PlanBudget(m.p, m.jobs, id, o.hash) + (if v == Start(Plan(Prefix(o.hash))) then 1 else 0)
         <= PlanBudget(b.p, b.jobs, id, o.hash)
    ensures v.Start? ==>
              || v.kind == Apply(Prefix(o.hash)) || v.kind == Plan(Prefix(o.hash))
              || (v.kind.ForceUnlock? && b.p.forceUnlock)
                          || (v.kind.Destroy? && b.p.deleting)
  {
    hide UpstreamsReady, LockFree, NoDriftJob, SelfApproves, MustWait, PinnedHash;
  }

  function One(b: bool): nat {
    if b then 1 else 0
  }

  lemma ReconcileSpends(w: World, id: Key, o: Obs, spec: Spec)
    requires ValidObs(w, id, o) && IsSteady(w, id, spec)
    requires spec.pinnedRevision <= 0 && spec.driftInterval.None?
    ensures var w' := Reconcile(w, id, o);
            && id in w'.projects
            && ApplyBudget(w'.projects[id], w'.jobs, id, o.hash) + One(IsNew(ApplyJob(id, o.hash), w.jobs, w'.jobs))
               <= ApplyBudget(w.projects[id], w.jobs, id, o.hash)
            && PlanBudget(w'.projects[id], w'.jobs, id, o.hash) + One(IsNew(PlanJob(id, o.hash), w.jobs, w'.jobs))
               <= PlanBudget(w.projects[id], w.jobs, id, o.hash)
            && (forall j :: IsNew(j, w.jobs, w'.jobs) ==>
                  || j == ApplyJob(id, o.hash) || j == PlanJob(id, o.hash)
                  || (j == JobId(id, Destroy) && w.projects[id].deleting))
  {
    hide LocalStep, ValidObs, Makes, Settled, ApplyBudget, PlanBudget, MayStart;
    var b, v := ReconcileMoves(w, id, o);
    var m := Loaded(Reconcile(w, id, o), id);
    SettlingSpendsNothing(Loaded(w, id), id, o, b);
    SettlingKeepsDeletion(Loaded(w, id), id, o, b);
    MoveSpends(b, id, w.projects, o, v, m);
    MoveJobs(b, id, w.projects, o, v, m);
  }

  lemma SettlingKeepsDeletion(l: Local, id: Key, o: Obs, b: Local)
    requires Settled(l, id, o, b)
    ensures b.p.deleting == l.p.deleting
  {
    hide KillActive, ClosedPR;
  }

  lemma StepSpends(w: World, e: Event, id: Key, spec: Spec, h: Digest)
    requires Possible(w, e) && IsSteady(w, id, spec) && IsSteady(Then(w, e), id, spec)
    requires spec.pinnedRevision <= 0 && spec.driftInterval.None?
    requires e.Reconciled? && e.id == id ==> e.o.hash == h
    requires e.Removed? ==> e.job.project != id
    ensures var w' := Then(w, e);
            && ApplyBudget(w'.projects[id], w'.jobs, id, h) + One(IsNew(ApplyJob(id, h), w.jobs, w'.jobs))
               <= ApplyBudget(w.projects[id], w.jobs, id, h)
            && PlanBudget(w'.projects[id], w'.jobs, id, h) + One(IsNew(PlanJob(id, h), w.jobs, w'.jobs))
               <= PlanBudget(w.projects[id], w.jobs, id, h)
            && (forall j :: IsNew(j, w.jobs, w'.jobs) && j.project == id ==>
                  j == ApplyJob(id, h) || j == PlanJob(id, h) || (j == JobId(id, Destroy) && w.projects[id].deleting))
  {
    hide LocalStep, ValidObs;
    if e.Reconciled? {
      ReconcileIsLocal(w, e.id, e.o);
      if e.id == id {
        ReconcileSpends(w, id, e.o, spec);
      }
    }
  }

  // ----- runs -----

  /** How often the Job is created from state m to state n. */
  ghost function Creations(r: Run, j: JobId, m: nat, n: nat): nat
    requires m <= n < |r.states|
  {
    if n == m then 0 else Creations(r, j, m, n - 1) + One(CreatesAt(r, n - 1, j))
  }

  lemma {:induction false} CreationsSpendBudget(r: Run, id: Key, spec: Spec, h: Digest, m: nat, n: nat)
    requires Steady(r, id, spec, h) && m <= n < |r.states|
    ensures Creations(r, ApplyJob(id, h), m, n) + ApplyBudget(r.states[n].projects[id], r.states[n].jobs, id, h)
         <= ApplyBudget(r.states[m].projects[id], r.states[m].jobs, id, h)
    ensures Creations(r, PlanJob(id, h), m, n) + PlanBudget(r.states[n].projects[id], r.states[n].jobs, id, h)
         <= PlanBudget(r.states[m].projects[id], r.states[m].jobs, id, h)
  {
    hide Possible, Then, ApplyBudget, PlanBudget;
    if n > m {
      CreationsSpendBudget(r, id, spec, h, m, n - 1);
      assert IsStep(r, n - 1);
      StepSpends(r.states[n - 1], r.events[n - 1], id, spec, h);
    }
  }

  /** From any state on: at most one apply Job more than there are retries left, and at most one plan Job. */
  lemma WorkIsBounded(r: Run, id: Key, spec: Spec, h: Digest, m: nat, n: nat)
    requires Steady(r, id, spec, h) && m <= n < |r.states|
    ensures Creations(r, ApplyJob(id, h), m, n) <= RetriesLeft(r.states[m].projects[id]) + 1
    ensures Creations(r, PlanJob(id, h), m, n) <= 1
  {
    CreationsSpendBudget(r, id, spec, h, m, n);
  }

  /** Once that budget is spent, and short of deletion, no Job of the project is created any more. */
  lemma SpentMeansQuiet(r: Run, id: Key, spec: Spec, h: Digest, n: nat, i: nat, j: JobId)
    requires Steady(r, id, spec, h) && n <= i && i + 1 < |r.states| && j.project == id
    requires ApplyBudget(r.states[n].projects[id], r.states[n].jobs, id, h) == 0
    requires PlanBudget(r.states[n].projects[id], r.states[n].jobs, id, h) == 0
    requires !r.states[i].projects[id].deleting
    ensures !CreatesAt(r, i, j)
  {
    hide Possible, Then, ApplyBudget, PlanBudget;
    CreationsSpendBudget(r, id, spec, h, n, i);
    assert IsStep(r, i);
    StepSpends(r.states[i], r.events[i], id, spec, h);
  }

  // ----- when the hash is fixed -----

  /** The observed hash is the digest of the desired state that resolution yields. */
  ghost predicate IsDigest(o: Obs, id: Key, ups: map<Key, Params.Upstream>, inputs: ParamSpec,
                           desired: DesiredState, json: Params.Data -> string, digest: string -> Digest)
    requires Params.AreOrders(o.orders, inputs.dependencies)
  {
    match Params.Resolve(o.sources, id.ns, ups, inputs, o.orders)
    case Resolved(params, hash) => o.hash == digest(HashInput(desired, params, hash, json))
    case _ => false
  }

  /**
   Two reconciles see the same hash when program, backend and spec are the same and nothing has changed that a watch
   would report, in whatever order maps are walked.
   */
  lemma UnwatchedChangesKeepTheHash(o: Obs, o': Obs, id: Key, ups: map<Key, Params.Upstream>,
                                    ups': map<Key, Params.Upstream>, inputs: ParamSpec, desired: DesiredState,
                                    json: Params.Data -> string, digest: string -> Digest)
    requires Params.AreOrders(o.orders, inputs.dependencies) && Params.AreOrders(o'.orders, inputs.dependencies)
    requires Unwatched(inputs, id.ns, o.sources, ups, o'.sources, ups') && NoConflicts(id.ns, ups, inputs.dependencies)
    requires IsDigest(o, id, ups, inputs, desired, json, digest)
    requires IsDigest(o', id, ups', inputs, desired, json, digest)
    ensures o.hash == o'.hash
  {
    hide Params.Resolve, Params.AreOrders, Unwatched, NoConflicts, HashInput;
    IterationOrderNeverMatters(o.sources, id.ns, ups, inputs, o.orders, o'.orders);
    WatchesCoverResolution(inputs, id.ns, o.sources, ups, o'.sources, ups', o'.orders);
  }
}
