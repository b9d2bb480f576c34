/** What automatic drift repair (keepInSync) does, and when it does run an apply. */
module DriftRepair {
  import opened Wrappers
  import opened Text
  import opened PlanLog
  import opened Api
  import opened Protocol
  import opened Moves
  import opened Traces
  import opened Approval
  import opened PlainProjects
  import Params

  /** A drift Job whose log shows a line of counts is reported as drift. */
  lemma ShownChangesAreDrift(l: Local, j: JobId, o: Obs, add: nat, change: nat, destroy: nat)
    requires j in l.jobs && o.readable && ShowsCounts(l.jobs[j].logs, add, change, destroy)
    ensures DriftChecked(l, j, o).p.status.driftDetected
  {
    hide SummaryLine, TrimSpace, Lines, Decimal;
    var lines := Lines(l.jobs[j].logs);
    var i :| 0 <= i < |lines| && CountsLineAt(lines, i, add, change, destroy);
    FirstSummaryIsCountsLine(lines, i, add, change, destroy);
    assert PlanLine(add, change, destroy)[0] == 'P' && "No changes."[0] == 'N';
  }

  lemma PlanLineIsOneLine(add: nat, change: nat, destroy: nat)
    ensures '\n' !in PlanLine(add, change, destroy)
    ensures TrimSpace(PlanLine(add, change, destroy)) == PlanLine(add, change, destroy)
  {
    var line := PlanLine(add, change, destroy);
    assert line[0] == 'P' && line[|line| - 1] == '.';
  }

  lemma PlanLineShows(add: nat, change: nat, destroy: nat)
    ensures ShowsCounts(Unlines([PlanLine(add, change, destroy)]), add, change, destroy)
  {
    hide SummaryLine, TrimSpace, Decimal;
    var line := PlanLine(add, change, destroy);
    PlanLineIsOneLine(add, change, destroy);
    LinesOfUnlines([line]);
    assert CountsLineAt(Lines(Unlines([line])), 0, add, change, destroy);
  }

  // ----- when a repair runs -----

  /** The reconcile clears the applied hash, for the next one to apply again. */
  ghost predicate RepairTriggered(w: World, id: Key, o: Obs) {
    && ValidObs(w, id, o) && id in w.projects && w.projects[id].spec.pinnedRevision <= 0
    && w.projects[id].status.lastAppliedHash == o.hash
    && id in Reconcile(w, id, o).projects && Reconcile(w, id, o).projects[id].status.lastAppliedHash == ""
  }

  /** Only a drift check that has found drift, under keepInSync, does that, and it deletes no Job but its own. */
  lemma OnlyDriftTriggers(w: World, id: Key, o: Obs)
    requires RepairTriggered(w, id, o)
    ensures var w' := Reconcile(w, id, o);
            && w'.projects[id].status.driftDetected
            && w'.projects[id].spec == w.projects[id].spec && w.projects[id].spec.keepInSync
            && (forall j: JobId :: !j.kind.Drift? ==> (j in w'.jobs <==> j in w.jobs))
            && (forall j :: j in w'.jobs ==> j in w.jobs && w'.jobs[j] == w.jobs[j])
  {
    hide LocalStep, ValidObs, Makes, KillActive, ClosedPR;
    var b, v := ReconcileMoves(w, id, o);
    var m := Loaded(Reconcile(w, id, o), id);
    OnlyDriftClears(b, id, w.projects, o, v, m);
  }

  lemma OnlyDriftClears(b: Local, id: Key, others: map<Key, Project>, o: Obs, v: Move, m: Local)
    requires Makes(b, id, others, o, v, m) && b.p.spec.pinnedRevision <= 0
    requires b.p.status.lastAppliedHash == o.hash && m.p.status.lastAppliedHash == ""
    ensures v.DriftDone? && v.job.kind.Drift? && m.jobs == b.jobs - {v.job} && !b.p.forceUnlock
    ensures m.p.spec == b.p.spec && m.p.status.driftDetected && b.p.spec.keepInSync
  {
    hide UpstreamsReady, LockFree, MustWait, NoDriftJob, SelfApproves, PinnedHash;
  }

  lemma FinishedJobIsRecordedAuto(l: Local, id: Key, o: Obs)
    requires FirstDrift(o.listing, id).Some? ==> FirstDrift(o.listing, id).value in l.jobs
    requires l.p.status.lastAppliedHash != o.hash && Ended(l.jobs, JobId(id, Apply(Prefix(o.hash))), Success)
    ensures var m := AutoStep(l, id, o).l;
            m.jobs == l.jobs && m.p.status.lastAppliedHash == o.hash && !m.p.status.driftDetected
  {
    hide FirstDrift, InSync;
  }

  lemma FinishedJobIsRecordedApproved(l: Local, id: Key, o: Obs)
    requires FirstDrift(o.listing, id).Some? ==> FirstDrift(o.listing, id).value in l.jobs
    requires l.p.status.lastAppliedHash != o.hash && Ended(l.jobs, JobId(id, Apply(Prefix(o.hash))), Success)
    requires l.p.approvedHash == o.hash && !MustWait(l.p.spec, o.now)
    ensures var m := PlanStep(l, id, o).l;
            m.jobs == l.jobs && m.p.status.lastAppliedHash == o.hash && !m.p.status.driftDetected
  {
    hide FirstDrift, InSync, MustWait, PRStep, PlanResult, ApplyUnfinished, ClosedPR;
    var b := Invalidated(l, o);
    assert b.jobs == l.jobs && b.p.approvedHash == o.hash && b.p.spec == l.p.spec;
    assert PendingStep(b, id, o) == ApprovedApplyResult(b, JobId(id, Apply(Prefix(o.hash))), o);
  }

  /** A hash that may be applied and whose Job has succeeded is recorded as applied, and no Job is created. */
  lemma FinishedJobIsRecorded(l: Local, id: Key, others: map<Key, Project>, o: Obs)
    requires Params.AreOrders(o.orders, l.p.spec.inputs.dependencies) && !ReturnsEarly(l, id, others, o)
    requires FirstDrift(o.listing, id).Some? ==> FirstDrift(o.listing, id).value in l.jobs
    requires MayApply(l.p, o) && Ended(l.jobs, JobId(id, Apply(Prefix(o.hash))), Success)
    ensures var m := MainStep(l, id, others, o).l;
            m.jobs == l.jobs && m.p.status.lastAppliedHash == o.hash && !m.p.status.driftDetected
  {
    hide Params.AreOrders, ReturnsEarly, FirstDrift, MustWait, AutoStep, PlanStep;
    var m := l.(tf := l.tf + {id});
    if l.p.spec.autoApprove {
      FinishedJobIsRecordedAuto(m, id, o);
    } else {
      FinishedJobIsRecordedApproved(m, id, o);
    }
  }

  /**
   In both flows, the reconcile after a repair was triggered runs an apply if and only if the Job of the last apply is
   gone and the hash may still be applied: approval is automatic, or the hash is the approved one and its window is
   open. A finished Job is taken for the new apply: success is recorded again and the drift mark cleared, though nothing
   has run.
   */
  lemma RepairRunsIff(w: World, id: Key, o: Obs, next: Obs)
    requires RepairTriggered(w, id, o) && next.hash == o.hash
    requires var w' := Reconcile(w, id, o); ValidObs(w', id, next) && Proceeds(w', id, next)
    ensures var job := JobId(id, Apply(Prefix(o.hash)));
            var w' := Reconcile(w, id, o);
            var w'' := Reconcile(w', id, next);
            var may := w.projects[id].spec.autoApprove
                       || (w'.projects[id].approvedHash == o.hash && !MustWait(w.projects[id].spec, next.now));
            && (IsNew(job, w'.jobs, w''.jobs) <==> job !in w.jobs && may)
            && (may && Ended(w.jobs, job, Success) ==>
                  && w''.jobs == w'.jobs && id in w''.projects
                  && w''.projects[id].status.lastAppliedHash == o.hash && !w''.projects[id].status.driftDetected)
  {
    hide Reconcile, MainStep, LifecycleStep, ReturnsEarly, Params.AreOrders, FirstDrift, MustWait;
    var w' := Reconcile(w, id, o);
    OnlyDriftTriggers(w, id, o);
    ProceedingIsMain(w', id, next);
    var l := Resumed(Finalized(Loaded(w', id)));
    AppliesExactlyWhenItMay(l, id, w'.projects, next);
    if MayApply(l.p, next) && Ended(w.jobs, JobId(id, Apply(Prefix(o.hash))), Success) {
      FinishedJobIsRecorded(l, id, w'.projects, next);
    }
  }

  // ----- a repair that does not run -----

  const HASH: Digest := "0123456789abcdef"
  const APPLY_JOB := JobId(DEMO, Apply(HASH[..8]))
  const DRIFT_JOB := JobId(DEMO, Drift(0))

  /** Drift checks and keepInSync; the apply Job has finished, and the drift Job has found one change. */
  function Drifted(autoApprove: bool): World {
    var status := Status(DriftChecking, HASH, "", 0, 0, map[], None, false, false);
    World(map[DEMO := PlainProject(PlainSpec(autoApprove, false, "", Some(1), true), status).(approvedHash := HASH)],
          map[APPLY_JOB := Job(Success, ""), DRIFT_JOB := Job(Success, Unlines([PlanLine(0, 1, 0)]))],
          {DEMO}, map[])
  }

  /** The state after the drift check. */
  function Triggered(autoApprove: bool): World {
    var status := Status(DriftChecking, "", "", 0, 0, map[], Some(0), true, false);
    World(map[DEMO := PlainProject(PlainSpec(autoApprove, false, "", Some(1), true), status).(approvedHash := HASH)],
          map[APPLY_JOB := Job(Success, "")],
          {DEMO}, map[])
  }

  lemma DriftIsRead(autoApprove: bool)
    ensures var l := InStore(Drifted(autoApprove));
            DriftChecked(l, DRIFT_JOB, PlainObs(HASH, [DRIFT_JOB, APPLY_JOB])) ==
            WithStatus(l, l.p.status.(lastDriftCheck := Some(0), driftDetected := true))
  {
    hide ExtractPlanSummary, Unlines, PlanLine;
    PlanLineShows(0, 1, 0);
    ShownChangesAreDrift(InStore(Drifted(autoApprove)), DRIFT_JOB, PlainObs(HASH, [DRIFT_JOB, APPLY_JOB]), 0, 1, 0);
  }

  lemma DriftResyncs(autoApprove: bool)
    ensures FirstDrift([DRIFT_JOB, APPLY_JOB], DEMO) == Some(DRIFT_JOB)
    ensures InSync(InStore(Drifted(autoApprove)), DEMO, PlainObs(HASH, [DRIFT_JOB, APPLY_JOB])).l ==
            InStore(Triggered(autoApprove))
  {
    hide DriftChecked, Unlines, PlanLine;
    DriftIsRead(autoApprove);
  }

  lemma DriftTriggers(autoApprove: bool)
    ensures var w, o := Drifted(autoApprove), PlainObs(HASH, [DRIFT_JOB, APPLY_JOB]);
            ValidObs(w, DEMO, o) && Reconcile(w, DEMO, o) == Triggered(autoApprove)
  {
    hide Reconcile, ValidObs, InSync, Unlines, PlanLine, PendingStep, Invalidated, AutoApplyResult, FirstDrift;
    DriftResyncs(autoApprove);
    PlainReconcile(Drifted(autoApprove), HASH, [DRIFT_JOB, APPLY_JOB]);
  }

  /**
   The documentation promises a re-apply on the next reconcile. Here, in either flow, drift is found and the next
   reconcile runs nothing, yet all reads as repaired.
   */
  lemma RepairMayNotRun(autoApprove: bool)
    ensures var w, o, next := Drifted(autoApprove), PlainObs(HASH, [DRIFT_JOB, APPLY_JOB]), PlainObs(HASH, [APPLY_JOB]);
            && RepairTriggered(w, DEMO, o) && Reconcile(w, DEMO, o).projects[DEMO].status.driftDetected
            && var w' := Reconcile(w, DEMO, o);
            && ValidObs(w', DEMO, next)
            && var w'' := Reconcile(w', DEMO, next);
            && w''.jobs == w'.jobs == map[APPLY_JOB := Job(Success, "")]
            && DEMO in w''.projects && w''.projects[DEMO].status.lastAppliedHash == HASH
            && !w''.projects[DEMO].status.driftDetected
  {
    hide Reconcile, ValidObs, AutoStep, PlanStep, FirstDrift;
    DriftTriggers(autoApprove);
    var w' := Triggered(autoApprove);
    PlainReconcile(w', HASH, [APPLY_JOB]);
    if autoApprove {
      FinishedJobIsRecordedAuto(InStore(w'), DEMO, PlainObs(HASH, [APPLY_JOB]));
    } else {
      FinishedJobIsRecordedApproved(InStore(w'), DEMO, PlainObs(HASH, [APPLY_JOB]));
    }
  }
}
