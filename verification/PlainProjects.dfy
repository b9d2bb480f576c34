/** Reconciles of a project that nothing holds back, for runs that show where a promise ends. */
module PlainProjects {
  import opened Wrappers
  import opened Api
  import opened Protocol
  import opened Traces
  import Params

  const DEMO := Key("default", "demo")
  const NO_INPUTS := ParamSpec([], [], [], map[], [])

  /** No schedule, retries, limits, pin or protection; retries may be added. */
  function PlainSpec(autoApprove: bool, githubPR: bool, repo: string, driftInterval: Option<int>,
                     keepInSync: bool): Spec {
    Spec(NO_INPUTS, autoApprove, false, 0, false, false, githubPR, repo, None, None, None,
         driftInterval, keepInSync, 0, 0, 0)
  }

  function PlainProject(spec: Spec, status: Status): Project {
    Project(spec, 0, false, true, "", false, false, status)
  }

  /** At time 0, with a valid program, readable logs and GitHub answering. */
  function PlainObs(hash: Digest, listing: seq<JobId>): Obs {
    Obs(0, true, Params.Sources(map[], map[]), [], hash, listing, true, None, false, map[], hash, true, None)
  }

  ghost predicate Steps(w: World, e: Event, w': World) {
    Possible(w, e) && Then(w, e) == w'
  }

  ghost predicate IsPlain(w: World, hash: Digest, listing: seq<JobId>) {
    && DEMO in w.projects
    && var p := w.projects[DEMO];
    && p.finalizer && !p.deleting && !p.forceUnlock && p.status.phase != Suspended
    && p.spec == PlainSpec(p.spec.autoApprove, p.spec.githubPR, p.spec.repo, p.spec.driftInterval, p.spec.keepInSync)
                 .(retry := p.spec.retry)
    && (forall j :: j in listing <==> j in w.jobs)
    && !ProjectBusy(w.jobs, DEMO)
  }

  function InStore(w: World): Local
    requires DEMO in w.projects
  {
    Local(w.projects[DEMO], w.jobs, w.tf + {DEMO}, w.prs)
  }

  lemma PlainResolves(w: World, hash: Digest, listing: seq<JobId>)
    requires IsPlain(w, hash, listing)
    ensures Params.AreOrders([], NO_INPUTS.dependencies)
    ensures ValidObs(w, DEMO, PlainObs(hash, listing))
    ensures !ReturnsEarly(Loaded(w, DEMO), DEMO, w.projects, PlainObs(hash, listing))
  {
    hide NamespaceBusy, ProjectBusy, Upstreams, Params.Overlay, Params.ExternalHash;
  }

  /** Such a reconcile goes straight to one of the two flows. */
  lemma PlainReconcile(w: World, hash: Digest, listing: seq<JobId>)
    requires IsPlain(w, hash, listing)
    ensures ValidObs(w, DEMO, PlainObs(hash, listing))
    ensures FirstDrift(listing, DEMO).Some? ==> FirstDrift(listing, DEMO).value in w.jobs
    ensures var o := PlainObs(hash, listing);
            Reconcile(w, DEMO, o) ==
            Stored(w, DEMO, if w.projects[DEMO].spec.autoApprove then AutoStep(InStore(w), DEMO, o).l
                            else PlanStep(InStore(w), DEMO, o).l)
  {
    hide AutoStep, PlanStep, ReturnsEarly, FirstDrift, ValidObs, ProjectBusy;
    PlainResolves(w, hash, listing);
    FirstDriftIsListed(listing, DEMO);
    assert Resumed(Finalized(Loaded(w, DEMO))) == Loaded(w, DEMO);
  }
}
