/** What a finished apply leaves behind, and how its outputs reach the projects that depend on it. */
module Recording {
  import opened Wrappers
  import opened Api
  import opened Protocol
  import opened Traces
  import opened Rules
  import opened RulesHold
  import opened ParamLaws
  import opened References
  import Moves
  import Params

  // ----- one reconcile -----

  /** In either flow, a succeeded apply of a hash that may be applied is recorded: this is the whole status then. */
  lemma RecordsApply(w: World, id: Key, o: Obs)
    requires ValidObs(w, id, o) && id in w.projects && MayRun(w, id, o)
    requires JobId(id, Apply(o.hash[..8])) in w.jobs && w.jobs[JobId(id, Apply(o.hash[..8]))].outcome == Success
    ensures id in Reconcile(w, id, o).projects && Reconcile(w, id, o).jobs == w.jobs
    ensures var p, s := w.projects[id], Reconcile(w, id, o).projects[id].status;
            && s.phase == Succeeded && s.lastAppliedHash == o.hash && s.retryCount == 0
            && !s.stateLocked && !s.driftDetected
            && s.outputs == (if o.readable && o.outputs.Some? then o.outputs.value else p.status.outputs)
            && s.lastDriftCheck == (if p.spec.driftInterval.Some? then Some(o.now) else p.status.lastDriftCheck)
            && s.pendingPlanHash == (if p.spec.autoApprove then p.status.pendingPlanHash else "")
            && s.pendingPR == (if p.spec.autoApprove then p.status.pendingPR else 0)
  {
    hide Reconcile, ValidObs, MayRun, Steered, PhaseOfSteered, StatusAfter, ApprovedAfter, PullsAfter, Writes, Drops,
         Fits, Wants, Clears, Plans, ChecksDrift, Drifted;
    ReconcileFollowsRules(w, id, o);
    RunFlags(w, id, o);
    OnlySteered(w, id, o);
    RunPhase(w, id, o);
    RecordedStatus(w, id, o, Succeeded);
    assert Reconcile(w, id, o).jobs == w.jobs;
  }

  /** A succeeded apply of the pinned revision is recorded under the pinned hash; the state lock mark stays. */
  lemma RecordsPinnedApply(w: World, id: Key, o: Obs)
    requires ValidObs(w, id, o) && id in w.projects && Repins(w.projects[id], o) && Unblocked(w, id)
    requires JobId(id, Apply(o.pinHash[..8])) in w.jobs && w.jobs[JobId(id, Apply(o.pinHash[..8]))].outcome == Success
    ensures id in Reconcile(w, id, o).projects && Reconcile(w, id, o).jobs == w.jobs
    ensures var p, s := w.projects[id], Reconcile(w, id, o).projects[id].status;
            s == p.status.(phase := Succeeded, lastAppliedHash := o.pinHash, retryCount := 0, driftDetected := false,
                           outputs := if o.readable && o.outputs.Some? then o.outputs.value else p.status.outputs)
  {
    hide Reconcile, ValidObs, MayRun, StatusAfter, ApprovedAfter, PullsAfter, Writes, Drops, Fits, Wants, Clears, Plans,
         ChecksDrift, Drifted, Reviews, LockedAfter, Unblocked, HasSnapshot;
    ReconcileFollowsRules(w, id, o);
    PinnedNotSteered(w, id, o);
    NothingHappens(w, id, o);
    JobsBesides(w, id, o);
    StatusBesides(w, id, o, Succeeded);
    assert Reconcile(w, id, o).jobs == w.jobs;
  }

  lemma PinnedNotSteered(w: World, id: Key, o: Obs)
    requires ValidObs(w, id, o) && id in w.projects && Repins(w.projects[id], o)
    ensures !Steered(w, id, o) && !Unlocks(w.projects[id], o) && !Destroys(w.projects[id])
  {
    hide Resolution, Unblocked, HasSnapshot, ValidObs;
  }

  /** A failed apply is deleted to be created again if and only if fewer retries than allowed were made. */
  lemma RetriesExactly(w: World, id: Key, o: Obs)
    requires ValidObs(w, id, o) && id in w.projects && MayRun(w, id, o)
    requires JobId(id, Apply(o.hash[..8])) in w.jobs && w.jobs[JobId(id, Apply(o.hash[..8]))].outcome == Failure
    ensures id in Reconcile(w, id, o).projects
    ensures var p, w' := w.projects[id], Reconcile(w, id, o);
            var retries := p.spec.retry.Some? && p.status.retryCount < p.spec.retry.value.maxRetries;
            && w'.jobs == (if retries then w.jobs - {JobId(id, Apply(o.hash[..8]))} else w.jobs)
            && w'.projects[id].status.retryCount == p.status.retryCount + (if retries then 1 else 0)
            && w'.projects[id].status.lastAppliedHash == p.status.lastAppliedHash
            && w'.projects[id].status.phase ==
               (if retries then Retrying
                else if o.readable && SaysLocked(w.jobs[JobId(id, Apply(o.hash[..8]))].logs) then Locked else Error)
  {
    hide Reconcile, ValidObs, MayRun, Steered, PhaseOfSteered, StatusAfter, ApprovedAfter, PullsAfter, Writes, Drops,
         Fits, Wants, Clears, Plans, ChecksDrift, Drifted, SaysLocked, MeetsLock, IsStateLockError;
    ReconcileFollowsRules(w, id, o);
    RunFlags(w, id, o);
    OnlySteered(w, id, o);
    RunPhase(w, id, o);
    RunMeetsLock(w, id, o);
    LockErrorIsSaid(w.jobs[JobId(id, Apply(o.hash[..8]))].logs);
    RunningStatus(w, id, o, PhaseOfSteered(w, id, o));
    if RetriesLeft(w.projects[id]) {
      assert Reconcile(w, id, o).jobs == w.jobs - {JobId(id, Apply(o.hash[..8]))};
    } else {
      assert Reconcile(w, id, o).jobs == w.jobs;
    }
  }

  // ----- where outputs come from -----

  /** A reconcile of the project records an apply that printed these outputs. */
  ghost predicate RecordsOutputs(w: World, e: Event, id: Key, outputs: map<string, string>) {
    && e.Reconciled? && e.id == id && id in w.projects && ValidObs(w, id, e.o)
    && e.o.readable && e.o.outputs == Some(outputs)
    && (|| (MayRun(w, id, e.o) && JobIs(w, JobId(id, Apply(e.o.hash[..8])), Success))
        || (&& Repins(w.projects[id], e.o) && Unblocked(w, id)
            && JobIs(w, JobId(id, Apply(e.o.pinHash[..8])), Success)))
  }

  /** In one step outputs stay unless such a reconcile sets them, or the project is new and has none. */
  lemma StepOutputs(w: World, e: Event, id: Key)
    requires Possible(w, e) && id in Then(w, e).projects
    ensures var outputs := Then(w, e).projects[id].status.outputs;
            if id in w.projects then outputs == w.projects[id].status.outputs || RecordsOutputs(w, e, id, outputs)
            else outputs == map[]
  {
    hide Reconcile, ValidObs, MayRun, Repins, Unblocked, PhaseAfter, ApprovedAfter, PullsAfter, Writes, JobsFollow,
         HashAfter, PendingAfter, NumberAfter, RetriesAfter, CheckedAfter, DriftAfter, LockedAfter, DeletedAfter,
         FinalizedAfter, AnnotatedAfter;
    if e.Reconciled? {
      Moves.ReconcileIsLocal(w, e.id, e.o);
      if e.id == id && id in w.projects {
        ReconcileFollowsRules(w, id, e.o);
      }
    }
  }

  /** In every run, outputs a project did not start with were printed by an apply that it recorded, and kept since. */
  lemma {:induction false} OutputsHaveOrigin(r: Run, id: Key, n: nat) returns (i: nat)
    requires IsRun(r) && n < |r.states| && id in r.states[n].projects
    requires id in r.states[0].projects ==> r.states[0].projects[id].status.outputs == map[]
    requires r.states[n].projects[id].status.outputs != map[]
    ensures i < n && Alive(r, id, i, n)
    ensures RecordsOutputs(r.states[i], r.events[i], id, r.states[n].projects[id].status.outputs)
    ensures forall k :: i < k <= n ==>
              r.states[k].projects[id].status.outputs == r.states[n].projects[id].status.outputs
  {
    hide Possible, Then, RecordsOutputs;
    assert IsStep(r, n - 1);
    var outputs := r.states[n].projects[id].status.outputs;
    StepOutputs(r.states[n - 1], r.events[n - 1], id);
    if RecordsOutputs(r.states[n - 1], r.events[n - 1], id, outputs) {
      i := n - 1;
      RecordingExists(r.states[i], r.events[i], id, outputs);
    } else {
      i := OutputsHaveOrigin(r, id, n - 1);
    }
  }

  lemma RecordingExists(w: World, e: Event, id: Key, outputs: map<string, string>)
    requires RecordsOutputs(w, e, id, outputs)
    ensures id in w.projects
  {
    hide ValidObs, MayRun, Repins, Unblocked;
  }

  // ----- where they go -----

  lemma {:induction false} TakeOutputsSets(order: seq<string>, outputs: map<string, string>, values: Params.Data,
                                           p: Params.Progress, x: string)
    requires p.Going? && x in outputs && forall y :: y in order ==> y in outputs
    requires forall y :: y in outputs && outputs[y] == outputs[x] ==> y == x
    ensures var q := Params.TakeOutputs(order, outputs, values, p);
            q.Going? ==>
              if x in order then x in values && outputs[x] in q.params && q.params[outputs[x]] == values[x]
              else (outputs[x] in q.params <==> outputs[x] in p.params)
                   && (outputs[x] in p.params ==> q.params[outputs[x]] == p.params[outputs[x]])
  {
    if order != [] && order[0] in values {
      var param, val := outputs[order[0]], values[order[0]];
      TakeOutputsSets(order[1..], outputs, values,
                      Params.Going(p.params[param := val], p.parts + [param + "=" + val]), x);
    }
  }

  lemma {:induction false} TakeOutputsKeeps(order: seq<string>, outputs: map<string, string>, values: Params.Data,
                                            p: Params.Progress, k: string)
    requires p.Going? && (forall y :: y in order ==> y in outputs) && forall y :: y in outputs ==> outputs[y] != k
    ensures var q := Params.TakeOutputs(order, outputs, values, p);
            q.Going? && k in p.params ==> k in q.params && q.params[k] == p.params[k]
  {
    if order != [] && order[0] in values {
      var param, val := outputs[order[0]], values[order[0]];
      TakeOutputsKeeps(order[1..], outputs, values,
                       Params.Going(p.params[param := val], p.parts + [param + "=" + val]), k);
    }
  }

  /** Output x of dependency i is the only one sent to its parameter there, and no later dependency sets that one. */
  predicate SetsAlone(deps: seq<Dependency>, i: nat, x: string) {
    && i < |deps| && x in deps[i].outputs
    && (forall y :: y in deps[i].outputs && deps[i].outputs[y] == deps[i].outputs[x] ==> y == x)
    && (forall j, y :: i < j < |deps| && y in deps[j].outputs ==> deps[j].outputs[y] != deps[i].outputs[x])
  }

  lemma {:induction false} TakeDependenciesSets(ns: string, ups: map<Key, Params.Upstream>, deps: seq<Dependency>,
                                                orders: seq<seq<string>>, p: Params.Progress, i: nat, x: string)
    requires Params.AreOrders(orders, deps) && SetsAlone(deps, i, x) && p.Going?
    ensures var q := Params.TakeDependencies(ns, ups, deps, orders, p);
            var u := deps[i].project.In(ns);
            q.Going? ==> && u in ups && x in ups[u].outputs && deps[i].outputs[x] in q.params
                         && q.params[deps[i].outputs[x]] == ups[u].outputs[x]
  {
    var n := |deps| - 1;
    var q := Params.TakeDependencies(ns, ups, deps[..n], orders[..n], p);
    var k := deps[n].project.In(ns);
    if q.Going? && k in ups && ups[k].succeeded {
      if i == n {
        TakeOutputsSets(orders[n], deps[n].outputs, ups[k].outputs, q, x);
      } else {
        TakeDependenciesSets(ns, ups, deps[..n], orders[..n], p, i, x);
        TakeOutputsKeeps(orders[n], deps[n].outputs, ups[k].outputs, q, deps[i].outputs[x]);
      }
    }
  }

  /**
   In every run from a state without outputs: a parameter that a project resolves from a dependency has the value that
   an apply of the upstream project printed, recorded after that apply had succeeded, and not replaced since.
   */
  lemma ParamsComeFromApplies(r: Run, id: Key, n: nat, o: Obs, i: nat, x: string) returns (c: nat)
    requires IsRun(r) && n < |r.states| && id in r.states[n].projects && ValidObs(r.states[n], id, o)
    requires forall k :: k in r.states[0].projects ==> r.states[0].projects[k].status.outputs == map[]
    requires SetsAlone(r.states[n].projects[id].spec.inputs.dependencies, i, x)
    requires Resolution(r.states[n], id, o).Resolved?
    ensures var d := r.states[n].projects[id].spec.inputs.dependencies[i];
            && c < n && r.events[c].Reconciled? && r.events[c].o.outputs.Some?
            && RecordsOutputs(r.states[c], r.events[c], d.project.In(id.ns), r.events[c].o.outputs.value)
            && Alive(r, d.project.In(id.ns), c, n)
            && d.outputs[x] in Resolution(r.states[n], id, o).params
            && x in r.events[c].o.outputs.value
            && Resolution(r.states[n], id, o).params[d.outputs[x]] == r.events[c].o.outputs.value[x]
  {
    hide Possible, Then, RecordsOutputs, Params.AreOrders, Params.ExternalHash, Params.CombinedHash;
    var spec := r.states[n].projects[id].spec.inputs;
    var u := spec.dependencies[i].project.In(id.ns);
    var layers := Params.ExternalLayers(o.sources, id.ns, spec).value;
    TakeDependenciesSets(id.ns, Upstreams(r.states[n].projects), spec.dependencies, o.orders,
                         Params.Going(Params.Overlay(layers) + spec.params, []), i, x);
    c := OutputsHaveOrigin(r, u, n);
    RecordedThese(r.states[c], r.events[c], u, r.states[n].projects[u].status.outputs);
  }

  lemma RecordedThese(w: World, e: Event, id: Key, outputs: map<string, string>)
    requires RecordsOutputs(w, e, id, outputs)
    ensures e.Reconciled? && e.o.outputs == Some(outputs)
  {
    hide ValidObs, MayRun, Repins, Unblocked;
  }

  /** The upstream project is there, has succeeded and has every output that the dependency takes. */
  predicate IsReady(w: World, own: string, d: Dependency) {
    && d.project.In(own) in w.projects
    && w.projects[d.project.In(own)].status.phase == Succeeded
    && forall x :: x in d.outputs ==> x in w.projects[d.project.In(own)].status.outputs
  }

  lemma {:induction false} LayersWhenReady(ns: string, ups: map<Key, Params.Upstream>, deps: seq<Dependency>,
                                           orders: seq<seq<string>>)
    requires Params.AreOrders(orders, deps)
    ensures DependencyLayers(ns, ups, deps, orders).Some? <==> forall d :: d in deps ==> Ready(ns, ups, d)
  {
    hide Ready, OutputLayers;
    if deps != [] {
      var n := |deps| - 1;
      LayersWhenReady(ns, ups, deps[..n], orders[..n]);
      assert deps == deps[..n] + [deps[n]];
    }
  }

  lemma ReadyIsReady(w: World, ns: string, d: Dependency)
    ensures Ready(ns, Upstreams(w.projects), d) <==> IsReady(w, ns, d)
  {
  }

  /** Parameters resolve if and only if all references exist and every upstream project is ready. */
  lemma ResolvesExactly(w: World, id: Key, o: Obs)
    requires ValidObs(w, id, o) && id in w.projects
    ensures var spec := w.projects[id].spec.inputs;
            Resolution(w, id, o).Resolved? <==>
            && AllThere(o.sources, id.ns, spec)
            && forall d :: d in spec.dependencies ==> IsReady(w, id.ns, d)
    ensures Resolution(w, id, o).Unresolvable? <==> !AllThere(o.sources, id.ns, w.projects[id].spec.inputs)
  {
    hide Params.AreOrders, Params.ExternalLayers, Params.TakeDependencies, Params.ExternalHash, Params.CombinedHash,
         AllThere, IsReady, Ready, Params.Overlay, Upstreams, FreshPR;
    var spec := w.projects[id].spec.inputs;
    var ups := Upstreams(w.projects);
    ExternalParamsAreTheReferences(o.sources, id.ns, spec);
    LayersWhenReady(id.ns, ups, spec.dependencies, o.orders);
    forall d | d in spec.dependencies
      ensures Ready(id.ns, ups, d) <==> IsReady(w, id.ns, d)
    {
      ReadyIsReady(w, id.ns, d);
    }
    if AllThere(o.sources, id.ns, spec) {
      var external := Params.Overlay(Params.ExternalLayers(o.sources, id.ns, spec).value);
      TakeDependenciesOverlays(id.ns, ups, spec.dependencies, o.orders, Params.Going(external + spec.params, []));
    }
  }
}
