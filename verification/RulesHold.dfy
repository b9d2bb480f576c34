/** Every reconcile follows the rules: path by path, and then over the whole controller. */
module RulesHold {
  import opened Wrappers
  import Text
  import opened PlanLog
  import opened Api
  import opened Protocol
  import opened Rules
  import Moves
  import Params
  import Revisions

  /** All but the Jobs. */
  ghost predicate Fits(w: World, id: Key, o: Obs, m: Local)
    requires ValidObs(w, id, o) && id in w.projects
  {
    && m.p == ProjectAfter(w, id, o, PhaseAfter(w, id, o))
    && m.tf == (if Writes(w, id, o) then w.tf + {id} else w.tf)
    && m.prs == PullsAfter(w, id, o)
  }

  // ----- nothing is applied, planned or checked -----

  lemma NothingHappens(w: World, id: Key, o: Obs)
    requires ValidObs(w, id, o) && id in w.projects && !Steered(w, id, o)
    ensures !MayRun(w, id, o) && !Reviews(w, id, o) && !Plans(w, id, o) && !ChecksDrift(w, id, o)
    ensures LockedAfter(w, id, o) == (w.projects[id].status.stateLocked && !UnlockSucceeds(w, id, o))
    ensures ApprovedAfter(w, id, o) == w.projects[id].approvedHash && PullsAfter(w, id, o) == w.prs
    ensures PendingAfter(w, id, o) == w.projects[id].status.pendingPlanHash
    ensures NumberAfter(w, id, o) == w.projects[id].status.pendingPR
    ensures CheckedAfter(w, id, o) == w.projects[id].status.lastDriftCheck
  {
    hide Steered, Repins, Unblocked, UnlockSucceeds, WindowOpen, ShowsDrift, SaysLocked, ValidObs;
  }

  /** Then the status changes by a recorded pin at most. */
  lemma StatusBesides(w: World, id: Key, o: Obs, phase: Phase)
    requires ValidObs(w, id, o) && id in w.projects && !Steered(w, id, o)
    ensures !RecordsPin(w, id, o) ==>
              StatusAfter(w, id, o, phase) ==
              w.projects[id].status.(phase := phase, stateLocked := LockedAfter(w, id, o))
    ensures RecordsPin(w, id, o) ==>
              var s := w.projects[id].status;
              StatusAfter(w, id, o, phase) ==
              s.(phase := phase, stateLocked := LockedAfter(w, id, o), lastAppliedHash := o.pinHash, retryCount := 0,
                 driftDetected := false,
                 outputs := if o.readable && o.outputs.Some? then o.outputs.value else s.outputs)
  {
    hide Steered, Repins, Unblocked, UnlockSucceeds, ShowsDrift, LockedAfter, ValidObs, MayRun, Reviews, Plans,
         ChecksDrift, PendingAfter, NumberAfter, CheckedAfter;
    NothingHappens(w, id, o);
  }

  lemma JobsBesides(w: World, id: Key, o: Obs)
    requires ValidObs(w, id, o) && id in w.projects && !Steered(w, id, o)
    ensures forall k :: Wants(w, id, o, k) <==>
              || (k == Apply(o.pinHash[..8]) && Repins(w.projects[id], o) && Unblocked(w, id))
              || (k == ForceUnlock && Unlocks(w.projects[id], o) && id in w.tf)
              || (k == Destroy && Destroys(w.projects[id]) && id in w.tf)
    ensures forall j :: Clears(w, id, o, j) <==>
              && j.project == id
              && (|| (Unlocks(w.projects[id], o) && !j.kind.ForceUnlock? && JobIs(w, j, Active))
                  || (j.kind.ForceUnlock? && id in w.tf && UnlockSucceeds(w, id, o))
                  || (&& j.kind.Destroy? && Destroys(w.projects[id]) && id in w.tf && JobIs(w, j, Active)
                      && w.projects[id].spec.resourceTimeout > 0 && o.stuck))
  {
    hide Steered, Repins, Unblocked, UnlockSucceeds, ValidObs, MayRun, Reviews, Plans, ChecksDrift;
    NothingHappens(w, id, o);
  }

  lemma DeletedRules(w: World, id: Key, o: Obs)
    requires ValidObs(w, id, o) && id in w.projects && w.projects[id].deleting
    ensures !Steered(w, id, o) && !Writes(w, id, o) && !RecordsPin(w, id, o) && !UnlockSucceeds(w, id, o)
    ensures DeletedAfter(w.projects[id], o) && AnnotatedAfter(w, id, o) == w.projects[id].forceUnlock
    ensures PhaseAfter(w, id, o) == PhaseOfDeleted(w, id, o)
  {
    hide Resolution, Unblocked, HasSnapshot, ValidObs, PhaseOfDeleted;
  }

  lemma DeletedSteps(w: World, id: Key, o: Obs)
    requires id in w.projects && w.projects[id].deleting
    ensures LifecycleStep(Loaded(w, id), id, o).Some?
    ensures var m, p := LifecycleStep(Loaded(w, id), id, o).value.l, w.projects[id];
            && m.tf == w.tf && m.prs == w.prs
            && m.p == p.(finalizer := FinalizedAfter(w, id), status := p.status.(phase := PhaseOfDeleted(w, id, o)))
  {
    hide LiveStep;
  }

  lemma DeletedFits(w: World, id: Key, o: Obs)
    requires ValidObs(w, id, o) && id in w.projects && w.projects[id].deleting
    ensures LifecycleStep(Loaded(w, id), id, o).Some?
    ensures Fits(w, id, o, LifecycleStep(Loaded(w, id), id, o).value.l)
  {
    hide LifecycleStep, StatusAfter, ValidObs, LockedAfter, PullsAfter, ApprovedAfter, Steered, Writes, RecordsPin,
         DeletedAfter, FinalizedAfter, AnnotatedAfter, PhaseAfter, PhaseOfDeleted, UnlockSucceeds;
    DeletedSteps(w, id, o);
    DeletedRules(w, id, o);
    NothingHappens(w, id, o);
    StatusBesides(w, id, o, PhaseAfter(w, id, o));
  }

  lemma DeletedJobs(w: World, id: Key, o: Obs)
    requires ValidObs(w, id, o) && id in w.projects && w.projects[id].deleting
    ensures LifecycleStep(Loaded(w, id), id, o).Some?
    ensures JobsFollow(w, id, o, LifecycleStep(Loaded(w, id), id, o).value.l.jobs)
  {
    hide LiveStep, ValidObs, Resolution, Unblocked, HasSnapshot, Wants, Clears;
    JobsBesides(w, id, o);
  }

  lemma UnlockFits(w: World, id: Key, o: Obs)
    requires ValidObs(w, id, o) && id in w.projects && Unlocks(w.projects[id], o)
    ensures Fits(w, id, o, ForceUnlockStep(Finalized(Loaded(w, id)), id).l)
  {
    hide StatusAfter, ValidObs, LockedAfter, PullsAfter, ApprovedAfter, Resolution, Unblocked, HasSnapshot;
    NothingHappens(w, id, o);
    StatusBesides(w, id, o, PhaseAfter(w, id, o));
  }

  lemma UnlockJobs(w: World, id: Key, o: Obs)
    requires ValidObs(w, id, o) && id in w.projects && Unlocks(w.projects[id], o)
    ensures JobsFollow(w, id, o, ForceUnlockStep(Finalized(Loaded(w, id)), id).l.jobs)
  {
    hide ValidObs, Resolution, Unblocked, HasSnapshot, Wants, Clears;
    JobsBesides(w, id, o);
  }

  /** The reconcile only sets the phase, or marks the project deleted. */
  lemma IdleFits(w: World, id: Key, o: Obs, deleting: bool, phase: Phase)
    requires ValidObs(w, id, o) && id in w.projects && !Steered(w, id, o) && !RecordsPin(w, id, o)
    requires !(Repins(w.projects[id], o) && Unblocked(w, id))
    requires !w.projects[id].deleting && !Unlocks(w.projects[id], o)
    requires deleting == DeletedAfter(w.projects[id], o) && phase == PhaseAfter(w, id, o)
    ensures var l := Finalized(Loaded(w, id));
            var tf := if Writes(w, id, o) then l.tf + {id} else l.tf;
            var m := WithPhase(l.(p := l.p.(deleting := deleting), tf := tf), phase);
            Fits(w, id, o, m) && JobsFollow(w, id, o, m.jobs)
  {
    hide StatusAfter, ValidObs, LockedAfter, PullsAfter, ApprovedAfter, Resolution, Unblocked, HasSnapshot, PhaseAfter,
         DeletedAfter, Wants, Clears, Steered;
    NothingHappens(w, id, o);
    StatusBesides(w, id, o, PhaseAfter(w, id, o));
    JobsBesides(w, id, o);
  }

  // ----- the lock -----

  lemma LockIsUnblocked(w: World, id: Key, l: Local)
    requires id in w.projects && l.p.spec == w.projects[id].spec && l.jobs == w.jobs
    ensures LockStep(l, id).None? <==> Unblocked(w, id)
    ensures LockStep(l, id).Some? ==> LockStep(l, id).value.l == WithPhase(l, PhaseOfBlocked(w.projects[id]))
  {
  }

  /** While the lock is free, no plan, apply, force-unlock or destroy Job of the project is active. */
  lemma UnblockedJobs(w: World, id: Key, j: JobId)
    requires id in w.projects && Unblocked(w, id) && j.project == id && !j.kind.Drift?
    ensures !JobIs(w, j, Active)
  {
  }

  // ----- pinned -----

  function Entered(w: World, id: Key): Local
    requires id in w.projects
  {
    Resumed(Finalized(Loaded(w, id)))
  }

  lemma PinSteps(w: World, id: Key, o: Obs)
    requires id in w.projects && Pinned(w.projects[id], o)
    ensures var p, l := w.projects[id], Entered(w, id);
            var m := l.(tf := l.tf + {id});
            PinnedStep(l, id, o).l ==
            if !HasSnapshot(p, o) then WithPhase(l, Error)
            else if !Repins(p, o) then l
            else if !Unblocked(w, id) then WithPhase(m, PhaseOfBlocked(p))
            else if PinJob(id, o) !in w.jobs then WithPhase(Created(m, PinJob(id, o)), Running)
            else if w.jobs[PinJob(id, o)].outcome == Failure then WithPhase(m, Error)
            else WithStatus(m, m.p.status.(
              phase := Succeeded, lastAppliedHash := o.pinHash, retryCount := 0, driftDetected := false,
              outputs := if o.readable && o.outputs.Some? then o.outputs.value else m.p.status.outputs))
    ensures Unblocked(w, id) ==> !JobIs(w, PinJob(id, o), Active)
  {
    hide Unblocked, LockStep, Revisions.LoadSnapshot;
    var l := Entered(w, id);
    LockIsUnblocked(w, id, l.(tf := l.tf + {id}));
    if Unblocked(w, id) {
      UnblockedJobs(w, id, PinJob(id, o));
    }
  }

  lemma PinRules(w: World, id: Key, o: Obs)
    requires ValidObs(w, id, o) && id in w.projects && Pinned(w.projects[id], o)
    ensures !Steered(w, id, o) && !UnlockSucceeds(w, id, o) && (Writes(w, id, o) <==> Repins(w.projects[id], o))
    ensures !DeletedAfter(w.projects[id], o) && FinalizedAfter(w, id) && !AnnotatedAfter(w, id, o)
    ensures PhaseAfter(w, id, o) == PhaseOfPinned(w, id, o)
  {
    hide Resolution, Unblocked, HasSnapshot, ValidObs, PhaseOfPinned;
  }

  lemma PinFits(w: World, id: Key, o: Obs)
    requires ValidObs(w, id, o) && id in w.projects && Pinned(w.projects[id], o)
    ensures Fits(w, id, o, PinnedStep(Entered(w, id), id, o).l)
  {
    hide StatusAfter, ValidObs, LockedAfter, PullsAfter, ApprovedAfter, Unblocked, PinnedStep, HasSnapshot, Steered,
         Writes, DeletedAfter, FinalizedAfter, AnnotatedAfter, PhaseAfter, UnlockSucceeds;
    PinRules(w, id, o);
    PinSteps(w, id, o);
    NothingHappens(w, id, o);
    StatusBesides(w, id, o, PhaseAfter(w, id, o));
  }

  lemma PinJobs(w: World, id: Key, o: Obs)
    requires ValidObs(w, id, o) && id in w.projects && Pinned(w.projects[id], o)
    ensures JobsFollow(w, id, o, PinnedStep(Entered(w, id), id, o).l.jobs)
  {
    hide ValidObs, Resolution, Unblocked, PinnedStep, Revisions.LoadSnapshot, Wants, Clears;
    PinSteps(w, id, o);
    JobsBesides(w, id, o);
  }

  // ----- preparation -----

  lemma OwnPhaseDoesNotMatter(w: World, id: Key)
    requires id in w.projects
    ensures Upstreams(w.projects[id := Entered(w, id).p]) == Upstreams(w.projects)
  {
  }

  lemma EarlyUnlessSteered(w: World, id: Key, o: Obs)
    requires ValidObs(w, id, o) && id in w.projects && Follows(w.projects[id], o)
    ensures Params.AreOrders(o.orders, Entered(w, id).p.spec.inputs.dependencies)
    ensures ReturnsEarly(Entered(w, id), id, w.projects, o) <==> !Steered(w, id, o)
  {
    hide Params.Resolve, Params.AreOrders, LockStep, Unblocked, Upstreams;
    OwnPhaseDoesNotMatter(w, id);
    LockIsUnblocked(w, id, Entered(w, id));
  }

  lemma EarlyMatches(w: World, id: Key, o: Obs)
    requires ValidObs(w, id, o) && id in w.projects && Follows(w.projects[id], o) && !Steered(w, id, o)
    ensures Params.AreOrders(o.orders, Entered(w, id).p.spec.inputs.dependencies)
    ensures ReturnsEarly(Entered(w, id), id, w.projects, o)
    ensures var m := PreparedOut(Entered(w, id), id, w.projects, o).l;
            Fits(w, id, o, m) && JobsFollow(w, id, o, m.jobs)
  {
    hide Params.Resolve, Params.AreOrders, LockStep, Unblocked, Upstreams, Fits, JobsFollow, PhaseOfSteered;
    EarlyUnlessSteered(w, id, o);
    OwnPhaseDoesNotMatter(w, id);
    var l := Entered(w, id);
    LockIsUnblocked(w, id, l.(tf := l.tf + {id}));
    IdleFits(w, id, o, false, PhaseAfter(w, id, o));
  }

  // ----- past preparation -----

  function Prepared(w: World, id: Key): Local
    requires id in w.projects
  {
    var l := Entered(w, id);
    l.(tf := l.tf + {id})
  }

  /** What the other paths could change stays. */
  lemma OnlySteered(w: World, id: Key, o: Obs)
    requires ValidObs(w, id, o) && id in w.projects && Steered(w, id, o)
    ensures !RecordsPin(w, id, o) && !UnlockSucceeds(w, id, o) && Writes(w, id, o)
    ensures !DeletedAfter(w.projects[id], o) && FinalizedAfter(w, id) && !AnnotatedAfter(w, id, o)
    ensures PhaseAfter(w, id, o) == PhaseOfSteered(w, id, o)
    ensures forall k :: Wants(w, id, o, k) <==>
              || (k == Apply(o.hash[..8]) && MayRun(w, id, o))
              || (k == Plan(o.hash[..8]) && Plans(w, id, o))
              || (k == Drift(o.now / 1_000_000_000) && ChecksDrift(w, id, o) && FirstDrift(o.listing, id).None?)
    ensures forall j :: Clears(w, id, o, j) <==>
              && j.project == id
              && (|| (j == ApplyJob(id, o) && Retries(w, id, o))
                  || (&& Some(j) == FirstDrift(o.listing, id)
                      && (DriftEnds(w, id, o, Success) || DriftEnds(w, id, o, Failure))))
  {
    hide Unblocked, Resolution, PhaseOfSteered, MayRun, Plans, ChecksDrift, FirstDrift, ValidObs;
  }

  lemma WindowIsOpen(spec: Spec, now: int)
    ensures MustWait(spec, now) <==> !WindowOpen(spec, now)
  {
  }

  lemma ContainsIsSaid(logs: string, text: string)
    ensures Text.Contains(logs, text) <==> Says(logs, text)
  {
    if Says(logs, text) {
      var i :| 0 <= i <= |logs| && text <= logs[i..];
      assert Text.OccursAt(logs, text, i);
    }
    if Text.Contains(logs, text) {
      var i := Text.LastIndex(logs, text);
      assert text <= logs[i..];
    }
  }

  lemma LockErrorIsSaid(logs: string)
    ensures IsStateLockError(logs) <==> SaysLocked(logs)
  {
    ContainsIsSaid(logs, "Error acquiring the state lock");
    ContainsIsSaid(logs, "Error locking state");
  }

  /** The status, the approved hash and the pull requests are what is left to look at. */
  lemma SteeredFits(w: World, id: Key, o: Obs, m: Local)
    requires ValidObs(w, id, o) && id in w.projects && Steered(w, id, o)
    requires var l := Prepared(w, id);
             m.tf == l.tf && m.p == l.p.(approvedHash := ApprovedAfter(w, id, o), status := m.p.status)
    requires m.p.status == StatusAfter(w, id, o, PhaseOfSteered(w, id, o)) && m.prs == PullsAfter(w, id, o)
    ensures Fits(w, id, o, m)
  {
    hide Resolution, Unblocked, ValidObs, StatusAfter, PullsAfter, ApprovedAfter, PhaseOfSteered, Writes, PhaseAfter;
    OnlySteered(w, id, o);
  }

  lemma JobsStay(w: World, id: Key, o: Obs)
    requires ValidObs(w, id, o) && id in w.projects
    requires forall j :: !Clears(w, id, o, j)
    requires forall k :: Wants(w, id, o, k) ==> JobId(id, k) in w.jobs
    ensures JobsFollow(w, id, o, w.jobs)
  {
    hide Wants, Clears, ValidObs;
    forall j: JobId ensures j == JobId(j.project, j.kind) {}
  }

  lemma OneJobGoes(w: World, id: Key, o: Obs, gone: JobId)
    requires ValidObs(w, id, o) && id in w.projects
    requires forall j :: Clears(w, id, o, j) <==> j == gone
    requires forall k :: Wants(w, id, o, k) ==> JobId(id, k) in w.jobs
    ensures JobsFollow(w, id, o, w.jobs - {gone})
  {
    hide Wants, Clears, ValidObs;
    forall j: JobId ensures j == JobId(j.project, j.kind) {}
  }

  lemma OneJobComes(w: World, id: Key, o: Obs, kind: Kind)
    requires ValidObs(w, id, o) && id in w.projects && JobId(id, kind) !in w.jobs
    requires forall j :: !Clears(w, id, o, j)
    requires forall k :: Wants(w, id, o, k) <==> k == kind
    ensures JobsFollow(w, id, o, w.jobs[JobId(id, kind) := Job(Active, "")])
  {
    hide Wants, Clears, ValidObs;
    forall j: JobId ensures j == JobId(j.project, j.kind) {}
  }

  // ----- the hash is applied -----

  lemma AllListed(w: World, id: Key, o: Obs)
    requires ValidObs(w, id, o)
    ensures FirstDrift(o.listing, id).Some? ==> FirstDrift(o.listing, id).value in w.jobs
  {
    FirstDriftIsListed(o.listing, id);
  }

  lemma AppliedFlags(w: World, id: Key, o: Obs)
    requires ValidObs(w, id, o) && id in w.projects && Steered(w, id, o)
    requires w.projects[id].status.lastAppliedHash == o.hash
    ensures !MayRun(w, id, o) && !Reviews(w, id, o) && !Plans(w, id, o)
    ensures ApprovedAfter(w, id, o) == w.projects[id].approvedHash && PullsAfter(w, id, o) == w.prs
  {
    hide Steered, WindowOpen, ValidObs;
  }

  lemma AppliedStatusRule(w: World, id: Key, o: Obs, phase: Phase)
    requires ValidObs(w, id, o) && id in w.projects && Steered(w, id, o)
    requires w.projects[id].status.lastAppliedHash == o.hash
    ensures StatusAfter(w, id, o, phase) ==
            w.projects[id].status.(
              phase := phase, lastAppliedHash := if Repairs(w, id, o) then "" else o.hash,
              lastDriftCheck := if ReadsDrift(w, id, o) || DriftEnds(w, id, o, Failure) then Some(o.now)
                                else w.projects[id].status.lastDriftCheck,
              driftDetected := Drifted(w, id, o))
  {
    hide Steered, WindowOpen, SaysLocked, ValidObs, Drifted, Repairs, RecordsPin, UnlockSucceeds, ReadsDrift, DriftEnds;
    OnlySteered(w, id, o);
  }

  lemma DriftJobSteps(l: Local, j: JobId, interval: int, o: Obs)
    requires j in l.jobs && j.kind.Drift?
    ensures var s := l.p.status;
            var drifted := if o.readable then ShowsDrift(l.jobs[j].logs) else s.driftDetected;
            DriftJobStep(l, j, interval, o).l ==
            match l.jobs[j].outcome
            case Active => l
            case Failure => WithStatus(Deleted(l, j), s.(lastDriftCheck := Some(o.now)))
            case Success =>
              WithStatus(Deleted(l, j), s.(
                phase := if o.readable && !drifted then Succeeded else s.phase,
                lastDriftCheck := if o.readable then Some(o.now) else s.lastDriftCheck,
                driftDetected := drifted,
                lastAppliedHash := if drifted && l.p.spec.keepInSync then "" else s.lastAppliedHash))
  {
    hide ExtractPlanSummary;
  }

  lemma InSyncSteps(w: World, id: Key, o: Obs)
    requires ValidObs(w, id, o) && id in w.projects && Steered(w, id, o)
    requires w.projects[id].status.lastAppliedHash == o.hash
    ensures FirstDrift(o.listing, id).Some? ==> FirstDrift(o.listing, id).value in w.jobs
    ensures var m, d := Prepared(w, id), FirstDrift(o.listing, id);
            InSync(m, id, o).l ==
            if !ChecksDrift(w, id, o) then m
            else if d.None? then WithPhase(Created(m, JobId(id, Drift(o.now / 1_000_000_000))), DriftChecking)
            else if w.projects[id].spec.driftInterval.None? then m
            else DriftJobStep(m, d.value, m.p.spec.driftInterval.value, o).l
    ensures ChecksDrift(w, id, o) ==> w.projects[id].spec.driftInterval.Some?
  {
    hide Steered, ValidObs, FirstDrift, DriftJobStep;
    AllListed(w, id, o);
  }

  lemma InSyncPhase(w: World, id: Key, o: Obs)
    requires ValidObs(w, id, o) && id in w.projects && Steered(w, id, o)
    requires w.projects[id].status.lastAppliedHash == o.hash
    ensures PhaseOfSteered(w, id, o) ==
            if ChecksDrift(w, id, o) && FirstDrift(o.listing, id).None? then DriftChecking
            else if ReadsDrift(w, id, o) && !Drifted(w, id, o) then Succeeded
            else Unsuspended(w.projects[id])
  {
    hide Steered, ValidObs, StatusAfter, PullsAfter, ApprovedAfter, MayRun, Reviews, ChecksDrift, ReadsDrift, Drifted,
         Unsuspended;
    AppliedFlags(w, id, o);
  }

  /** What a found drift Job leads to. */
  lemma DriftFlags(w: World, id: Key, o: Obs)
    requires ValidObs(w, id, o) && id in w.projects && ChecksDrift(w, id, o)
    requires FirstDrift(o.listing, id).Some? && FirstDrift(o.listing, id).value in w.jobs
    ensures var j := w.jobs[FirstDrift(o.listing, id).value];
            && (forall x :: DriftEnds(w, id, o, x) <==> j.outcome == x)
            && (ReadsDrift(w, id, o) <==> j.outcome == Success && o.readable)
            && (Drifted(w, id, o) <==> if j.outcome == Success && o.readable then ShowsDrift(j.logs)
                                       else w.projects[id].status.driftDetected)
            && (Repairs(w, id, o) <==>
                j.outcome == Success && w.projects[id].spec.keepInSync && Drifted(w, id, o))
  {
    hide ChecksDrift, ValidObs, FirstDrift, ShowsDrift;
  }

  lemma NoDriftFlags(w: World, id: Key, o: Obs)
    requires ValidObs(w, id, o) && id in w.projects
    requires !ChecksDrift(w, id, o) || FirstDrift(o.listing, id).None?
    ensures !ReadsDrift(w, id, o) && !Repairs(w, id, o) && !DriftEnds(w, id, o, Failure)
    ensures Drifted(w, id, o) == w.projects[id].status.driftDetected
  {
    hide ChecksDrift, ValidObs, FirstDrift, ShowsDrift;
  }

  ghost predicate OnlyStatus(w: World, id: Key, m: Local, status: Status)
    requires id in w.projects
  {
    m.tf == Prepared(w, id).tf && m.prs == w.prs && m.p == Prepared(w, id).p.(status := status)
  }

  ghost function DriftStatus(w: World, id: Key, o: Obs): Status
    requires ValidObs(w, id, o) && id in w.projects
  {
    var p := w.projects[id];
    p.status.(
      phase := if ReadsDrift(w, id, o) && !Drifted(w, id, o) then Succeeded else Unsuspended(p),
      lastAppliedHash := if Repairs(w, id, o) then "" else p.status.lastAppliedHash,
      lastDriftCheck := if ReadsDrift(w, id, o) || DriftEnds(w, id, o, Failure) then Some(o.now)
                        else p.status.lastDriftCheck,
      driftDetected := Drifted(w, id, o))
  }

  lemma UnreadDriftStatus(w: World, id: Key, o: Obs)
    requires ValidObs(w, id, o) && id in w.projects && ChecksDrift(w, id, o)
    requires FirstDrift(o.listing, id).Some? && FirstDrift(o.listing, id).value in w.jobs
    requires FirstDrift(o.listing, id).value.kind.Drift? && w.projects[id].spec.driftInterval.Some?
    requires w.jobs[FirstDrift(o.listing, id).value].outcome != Success
    ensures var d := FirstDrift(o.listing, id).value;
            OnlyStatus(w, id, DriftJobStep(Prepared(w, id), d, w.projects[id].spec.driftInterval.value, o).l,
                       DriftStatus(w, id, o))
  {
    hide ChecksDrift, ValidObs, FirstDrift, ShowsDrift, ReadsDrift, Repairs, DriftEnds, Drifted;
    DriftFlags(w, id, o);
  }

  lemma FoundDriftStatus(w: World, id: Key, o: Obs)
    requires ValidObs(w, id, o) && id in w.projects && ChecksDrift(w, id, o)
    requires FirstDrift(o.listing, id).Some? && FirstDrift(o.listing, id).value in w.jobs
    requires FirstDrift(o.listing, id).value.kind.Drift? && w.projects[id].spec.driftInterval.Some?
    ensures var d := FirstDrift(o.listing, id).value;
            OnlyStatus(w, id, DriftJobStep(Prepared(w, id), d, w.projects[id].spec.driftInterval.value, o).l,
                       DriftStatus(w, id, o))
  {
    var d := FirstDrift(o.listing, id).value;
    if w.jobs[d].outcome == Success {
      hide ChecksDrift, ValidObs, FirstDrift, ShowsDrift, DriftJobStep, ReadsDrift, Repairs, DriftEnds, Drifted;
      DriftFlags(w, id, o);
      DriftJobSteps(Prepared(w, id), d, w.projects[id].spec.driftInterval.value, o);
    } else {
      hide *;
      UnreadDriftStatus(w, id, o);
    }
  }

  lemma DriftStatusIsAfter(w: World, id: Key, o: Obs)
    requires ValidObs(w, id, o) && id in w.projects && Steered(w, id, o)
    requires w.projects[id].status.lastAppliedHash == o.hash && ChecksDrift(w, id, o)
    requires FirstDrift(o.listing, id).Some?
    ensures StatusAfter(w, id, o, PhaseOfSteered(w, id, o)) == DriftStatus(w, id, o)
  {
    hide Steered, ValidObs, FirstDrift, StatusAfter, ChecksDrift, PhaseOfSteered, ReadsDrift, Repairs, DriftEnds,
         Drifted;
    InSyncPhase(w, id, o);
    AppliedStatusRule(w, id, o, PhaseOfSteered(w, id, o));
  }

  lemma NoDriftStatus(w: World, id: Key, o: Obs)
    requires ValidObs(w, id, o) && id in w.projects && Steered(w, id, o)
    requires w.projects[id].status.lastAppliedHash == o.hash
    requires !ChecksDrift(w, id, o) || FirstDrift(o.listing, id).None?
    ensures StatusAfter(w, id, o, PhaseOfSteered(w, id, o)) ==
            w.projects[id].status.(phase := if ChecksDrift(w, id, o) then DriftChecking
                                            else Unsuspended(w.projects[id]))
  {
    hide Steered, ValidObs, FirstDrift, StatusAfter, ChecksDrift, PhaseOfSteered, ReadsDrift, Repairs, DriftEnds,
         Drifted;
    InSyncPhase(w, id, o);
    AppliedStatusRule(w, id, o, PhaseOfSteered(w, id, o));
    NoDriftFlags(w, id, o);
  }

  lemma InSyncStatus(w: World, id: Key, o: Obs)
    requires ValidObs(w, id, o) && id in w.projects && Steered(w, id, o)
    requires w.projects[id].status.lastAppliedHash == o.hash
    ensures FirstDrift(o.listing, id).Some? ==> FirstDrift(o.listing, id).value in w.jobs
    ensures OnlyStatus(w, id, InSync(Prepared(w, id), id, o).l, StatusAfter(w, id, o, PhaseOfSteered(w, id, o)))
  {
    hide Steered, ValidObs, FirstDrift, StatusAfter, InSync, DriftJobStep, ChecksDrift, PhaseOfSteered, DriftStatus;
    DriftIsOurs(w, id, o);
    InSyncSteps(w, id, o);
    if ChecksDrift(w, id, o) && FirstDrift(o.listing, id).Some? {
      FoundDriftStatus(w, id, o);
      DriftStatusIsAfter(w, id, o);
    } else {
      NoDriftStatus(w, id, o);
    }
  }

  lemma InSyncFits(w: World, id: Key, o: Obs)
    requires ValidObs(w, id, o) && id in w.projects && Steered(w, id, o)
    requires w.projects[id].status.lastAppliedHash == o.hash
    ensures FirstDrift(o.listing, id).Some? ==> FirstDrift(o.listing, id).value in w.jobs
    ensures Fits(w, id, o, InSync(Prepared(w, id), id, o).l)
  {
    hide Steered, ValidObs, FirstDrift, MayRun, Reviews, Plans, ApprovedAfter, PullsAfter, StatusAfter, InSync,
         PhaseOfSteered, Fits, ChecksDrift;
    AppliedFlags(w, id, o);
    InSyncStatus(w, id, o);
    SteeredFits(w, id, o, InSync(Prepared(w, id), id, o).l);
  }

  lemma DriftIsOurs(w: World, id: Key, o: Obs)
    requires ValidObs(w, id, o)
    ensures var d := FirstDrift(o.listing, id);
            if d.Some? then d.value in w.jobs && d.value.project == id && d.value.kind.Drift?
            else forall t :: JobId(id, Drift(t)) !in w.jobs
  {
    hide FirstDrift;
    FirstDriftIsListed(o.listing, id);
  }

  lemma DriftJobJobs(l: Local, j: JobId, interval: int, o: Obs)
    requires j in l.jobs
    ensures DriftJobStep(l, j, interval, o).l.jobs == if l.jobs[j].outcome == Active then l.jobs else l.jobs - {j}
  {
    hide ExtractPlanSummary;
  }

  lemma InSyncJobs(w: World, id: Key, o: Obs)
    requires ValidObs(w, id, o) && id in w.projects && Steered(w, id, o)
    requires w.projects[id].status.lastAppliedHash == o.hash
    ensures FirstDrift(o.listing, id).Some? ==> FirstDrift(o.listing, id).value in w.jobs
    ensures JobsFollow(w, id, o, InSync(Prepared(w, id), id, o).l.jobs)
  {
    hide Steered, ValidObs, FirstDrift, MayRun, Reviews, Plans, InSync, DriftJobStep, Wants, Clears, ChecksDrift,
         StatusAfter, ApprovedAfter, PullsAfter, JobsFollow;
    DriftIsOurs(w, id, o);
    OnlySteered(w, id, o);
    AppliedFlags(w, id, o);
    InSyncSteps(w, id, o);
    var d := FirstDrift(o.listing, id);
    if !ChecksDrift(w, id, o) {
      JobsStay(w, id, o);
    } else if d.None? {
      OneJobComes(w, id, o, Drift(o.now / 1_000_000_000));
    } else {
      DriftJobJobs(Prepared(w, id), d.value, w.projects[id].spec.driftInterval.value, o);
      if w.jobs[d.value].outcome == Active {
        JobsStay(w, id, o);
      } else {
        OneJobGoes(w, id, o, d.value);
      }
    }
  }

  // ----- the hash may be applied -----

  /** What applying takes along in the review flow: a stale plan is dropped first. */
  function Dropped(w: World, id: Key, o: Obs): Local
    requires id in w.projects
  {
    Invalidated(Prepared(w, id), o)
  }

  lemma DropSteps(w: World, id: Key, o: Obs)
    requires ValidObs(w, id, o) && id in w.projects && Reviews(w, id, o)
    ensures var m, p, b := Prepared(w, id), w.projects[id], Dropped(w, id, o);
            && b.jobs == w.jobs && b.tf == m.tf && b.prs == PullsDropped(w, id, o)
            && b.p == m.p.(approvedHash := b.p.approvedHash, status := b.p.status)
            && b.p.approvedHash == (if Drops(w, id, o) && p.approvedHash != o.hash then "" else p.approvedHash)
            && b.p.status == m.p.status.(pendingPlanHash := b.p.status.pendingPlanHash,
                                         pendingPR := b.p.status.pendingPR)
            && b.p.status.pendingPlanHash == (if Drops(w, id, o) then "" else p.status.pendingPlanHash)
            && b.p.status.pendingPR == (if Drops(w, id, o) && p.spec.githubPR then 0 else p.status.pendingPR)
  {
    hide Reviews, ValidObs, PullsDropped, Invalidated;
    DroppedPulls(w, id, o);
    InvalidatedParts(Prepared(w, id), o);
  }

  lemma InvalidatedParts(l: Local, o: Obs)
    ensures var b := Invalidated(l, o);
            var stale := l.p.status.pendingPlanHash != "" && l.p.status.pendingPlanHash != o.hash;
            && b.jobs == l.jobs && b.tf == l.tf
            && b.p == l.p.(approvedHash := b.p.approvedHash, status := b.p.status)
            && b.p.approvedHash == (if stale && l.p.approvedHash != o.hash then "" else l.p.approvedHash)
            && b.p.status == l.p.status.(pendingPlanHash := b.p.status.pendingPlanHash,
                                         pendingPR := b.p.status.pendingPR)
            && b.p.status.pendingPlanHash == (if stale then "" else l.p.status.pendingPlanHash)
            && b.p.status.pendingPR == (if stale && l.p.spec.githubPR then 0 else l.p.status.pendingPR)
  {
    hide ClosedPR;
  }

  lemma DroppedPulls(w: World, id: Key, o: Obs)
    requires ValidObs(w, id, o) && id in w.projects && Reviews(w, id, o)
    ensures Dropped(w, id, o).prs == PullsDropped(w, id, o)
  {
    hide Reviews, ValidObs;
  }

  /** Where a hash that is not applied is worked on. */
  function Base(w: World, id: Key, o: Obs): Local
    requires id in w.projects
  {
    if w.projects[id].spec.autoApprove then Prepared(w, id) else Dropped(w, id, o)
  }

  lemma BaseParts(w: World, id: Key, o: Obs)
    requires ValidObs(w, id, o) && id in w.projects && Steered(w, id, o)
    requires w.projects[id].status.lastAppliedHash != o.hash
    ensures var m, p, b := Prepared(w, id), w.projects[id], Base(w, id, o);
            && b.jobs == w.jobs && b.tf == m.tf && b.prs == PullsDropped(w, id, o)
            && b.p == m.p.(approvedHash := b.p.approvedHash, status := b.p.status)
            && b.p.approvedHash == (if Drops(w, id, o) && p.approvedHash != o.hash then "" else p.approvedHash)
            && b.p.status == m.p.status.(pendingPlanHash := b.p.status.pendingPlanHash,
                                         pendingPR := b.p.status.pendingPR)
            && b.p.status.pendingPlanHash == (if Drops(w, id, o) then "" else p.status.pendingPlanHash)
            && b.p.status.pendingPR == (if Drops(w, id, o) && p.spec.githubPR then 0 else p.status.pendingPR)
  {
    hide Steered, ValidObs, Dropped;
    if !w.projects[id].spec.autoApprove {
      DropSteps(w, id, o);
    }
  }

  ghost function Flow(w: World, id: Key, o: Obs): Local
    requires id in w.projects
    requires FirstDrift(o.listing, id).Some? ==> FirstDrift(o.listing, id).value in w.jobs
  {
    if w.projects[id].spec.autoApprove then AutoStep(Prepared(w, id), id, o).l else PlanStep(Prepared(w, id), id, o).l
  }

  /** The apply Job of the hash, created, recorded, retried or given up. */
  function Applied(b: Local, j: JobId, o: Obs): Local {
    Local(b.p.(status := AppliedStatusOf(b, j, o)),
          if j !in b.jobs then b.jobs[j := Job(Active, "")]
          else if b.jobs[j].outcome != Success && RetriesLeft(b.p) then b.jobs - {j} else b.jobs,
          b.tf, b.prs)
  }

  function AppliedStatusOf(b: Local, j: JobId, o: Obs): Status {
    var s := b.p.status;
    if j !in b.jobs then s.(phase := Running)
    else if b.jobs[j].outcome == Success then
      Status(
        Succeeded, o.hash, if b.p.spec.autoApprove then s.pendingPlanHash else "",
        if b.p.spec.autoApprove then s.pendingPR else 0, 0,
        if o.readable && o.outputs.Some? then o.outputs.value else s.outputs,
        if b.p.spec.driftInterval.Some? then Some(o.now) else s.lastDriftCheck, false, false)
    else if RetriesLeft(b.p) then s.(retryCount := s.retryCount + 1, phase := Retrying)
    else if o.readable && IsStateLockError(b.jobs[j].logs) then s.(stateLocked := true, phase := Locked)
    else s.(phase := Error)
  }

  lemma EmptyIsNoLock()
    ensures !IsStateLockError("")
  {
  }

  lemma AutoApplies(b: Local, id: Key, o: Obs)
    requires b.p.spec.autoApprove && b.p.status.lastAppliedHash != o.hash
    requires FirstDrift(o.listing, id).Some? ==> FirstDrift(o.listing, id).value in b.jobs
    requires var j := JobId(id, Apply(o.hash[..8])); j in b.jobs ==> b.jobs[j].outcome != Active
    ensures AutoStep(b, id, o).l == Applied(b, JobId(id, Apply(o.hash[..8])), o)
  {
    hide IsStateLockError, FirstDrift, InSync;
    EmptyIsNoLock();
  }

  lemma ApprovedApplies(b: Local, id: Key, o: Obs)
    requires !b.p.spec.autoApprove && b.p.approvedHash == o.hash && !MustWait(b.p.spec, o.now)
    requires var j := JobId(id, Apply(o.hash[..8])); j in b.jobs ==> b.jobs[j].outcome != Active
    ensures PendingStep(b, id, o).l == Applied(b, JobId(id, Apply(o.hash[..8])), o)
  {
    hide IsStateLockError, MustWait, PRStep, PlanResult;
    EmptyIsNoLock();
  }

  lemma RunSteps(w: World, id: Key, o: Obs)
    requires ValidObs(w, id, o) && id in w.projects && MayRun(w, id, o)
    ensures FirstDrift(o.listing, id).Some? ==> FirstDrift(o.listing, id).value in w.jobs
    ensures Flow(w, id, o) == Applied(Base(w, id, o), ApplyJob(id, o), o)
    ensures !JobIs(w, ApplyJob(id, o), Active)
  {
    hide Unblocked, Resolution, WindowOpen, ValidObs, MustWait, Applied, AutoStep, PendingStep, FirstDrift, InSync,
         Drops, PullsDropped, Dropped;
    AllListed(w, id, o);
    UnblockedJobs(w, id, ApplyJob(id, o));
    WindowIsOpen(w.projects[id].spec, o.now);
    BaseParts(w, id, o);
    if w.projects[id].spec.autoApprove {
      AutoApplies(Base(w, id, o), id, o);
    } else {
      ApprovedApplies(Base(w, id, o), id, o);
      PlanStepPends(w, id, o);
    }
  }

  lemma PlanStepPends(w: World, id: Key, o: Obs)
    requires id in w.projects
    requires FirstDrift(o.listing, id).Some? ==> FirstDrift(o.listing, id).value in w.jobs
    requires w.projects[id].status.lastAppliedHash != o.hash && !w.projects[id].spec.autoApprove
    ensures PlanStep(Prepared(w, id), id, o) == PendingStep(Base(w, id, o), id, o)
  {
    hide PendingStep, FirstDrift, Invalidated, InSync;
  }

  lemma RunFlags(w: World, id: Key, o: Obs)
    requires ValidObs(w, id, o) && id in w.projects && MayRun(w, id, o)
    ensures !Plans(w, id, o) && !Polls(w, id, o) && !ChecksDrift(w, id, o) && !RecordsPin(w, id, o)
    ensures !UnlockSucceeds(w, id, o) && Drifted(w, id, o) == w.projects[id].status.driftDetected
    ensures Steered(w, id, o) && w.projects[id].status.lastAppliedHash != o.hash
    ensures ApprovedAfter(w, id, o) == if Drops(w, id, o) && w.projects[id].approvedHash != o.hash then ""
                                       else w.projects[id].approvedHash
    ensures PullsAfter(w, id, o) == PullsDropped(w, id, o)
    ensures w.projects[id].spec.autoApprove ==> !Drops(w, id, o)
  {
    hide Steered, WindowOpen, ValidObs, PullsDropped;
    OnlySteered(w, id, o);
  }

  lemma RecordedStatus(w: World, id: Key, o: Obs, phase: Phase)
    requires ValidObs(w, id, o) && id in w.projects && Records(w, id, o)
    ensures var p := w.projects[id];
            StatusAfter(w, id, o, phase) ==
            Status(phase, o.hash, if p.spec.autoApprove then p.status.pendingPlanHash else "",
                   if p.spec.autoApprove then p.status.pendingPR else 0, 0,
                   if o.readable && o.outputs.Some? then o.outputs.value else p.status.outputs,
                   if p.spec.driftInterval.Some? then Some(o.now) else p.status.lastDriftCheck, false, false)
  {
    hide MayRun, ValidObs, RecordsPin, UnlockSucceeds, Polls, Plans, ChecksDrift, MeetsLock, Drifted, Reviews, Drops;
    RunFlags(w, id, o);
  }

  lemma RunningStatus(w: World, id: Key, o: Obs, phase: Phase)
    requires ValidObs(w, id, o) && id in w.projects && MayRun(w, id, o) && !Records(w, id, o)
    ensures var p := w.projects[id];
            StatusAfter(w, id, o, phase) ==
            p.status.(phase := phase,
                      pendingPlanHash := if Drops(w, id, o) then "" else p.status.pendingPlanHash,
                      pendingPR := if Drops(w, id, o) && p.spec.githubPR then 0 else p.status.pendingPR,
                      retryCount := p.status.retryCount + if Retries(w, id, o) then 1 else 0,
                      stateLocked := p.status.stateLocked || MeetsLock(w, id, o))
  {
    hide MayRun, ValidObs, RecordsPin, UnlockSucceeds, Polls, Plans, ChecksDrift, MeetsLock, Drifted, Reviews, Drops,
         Retries;
    RunFlags(w, id, o);
  }

  lemma RunMeetsLock(w: World, id: Key, o: Obs)
    requires ValidObs(w, id, o) && id in w.projects && MayRun(w, id, o)
    ensures MeetsLock(w, id, o) <==>
            GivesUp(w, id, o) && o.readable && IsStateLockError(w.jobs[ApplyJob(id, o)].logs)
  {
    hide MayRun, Plans, SaysLocked, IsStateLockError, ValidObs;
    RunFlags(w, id, o);
    if GivesUp(w, id, o) {
      LockErrorIsSaid(w.jobs[ApplyJob(id, o)].logs);
    }
  }

  lemma RunPhase(w: World, id: Key, o: Obs)
    requires ValidObs(w, id, o) && id in w.projects && MayRun(w, id, o)
    ensures PhaseOfSteered(w, id, o) ==
            if Records(w, id, o) then Succeeded
            else if Retries(w, id, o) then Retrying
            else if GivesUp(w, id, o) then if MeetsLock(w, id, o) then Locked else Error
            else Running
  {
    hide MayRun, ValidObs, Records, Retries, GivesUp, MeetsLock, Plans, Reviews, ChecksDrift;
  }

  lemma UnfinishedStatus(b: Local, j: JobId, o: Obs)
    requires j in b.jobs ==> b.jobs[j].outcome == Failure
    ensures var s, m := b.p.status, Applied(b, j, o);
            var retries := j in b.jobs && RetriesLeft(b.p);
            var locked := j in b.jobs && !retries && o.readable && IsStateLockError(b.jobs[j].logs);
            && m.p.status == s.(phase := m.p.status.phase, retryCount := s.retryCount + if retries then 1 else 0,
                                stateLocked := s.stateLocked || locked)
            && m.p.status.phase == if j !in b.jobs then Running else if retries then Retrying
                                   else if locked then Locked else Error
  {
    hide IsStateLockError;
  }

  lemma RecordedFits(w: World, id: Key, o: Obs)
    requires ValidObs(w, id, o) && id in w.projects && Records(w, id, o)
    ensures Applied(Base(w, id, o), ApplyJob(id, o), o).p.status == StatusAfter(w, id, o, PhaseOfSteered(w, id, o))
  {
    hide MayRun, ValidObs, StatusAfter, PhaseOfSteered, Steered, Base, Drops, PullsDropped, IsStateLockError,
         ApprovedAfter, PullsAfter, Drifted, Plans, Polls, ChecksDrift;
    RunFlags(w, id, o);
    BaseParts(w, id, o);
    RunPhase(w, id, o);
    RecordedStatus(w, id, o, Succeeded);
  }

  lemma RunningFits(w: World, id: Key, o: Obs)
    requires ValidObs(w, id, o) && id in w.projects && MayRun(w, id, o) && !Records(w, id, o)
    requires !JobIs(w, ApplyJob(id, o), Active)
    ensures Applied(Base(w, id, o), ApplyJob(id, o), o).p.status == StatusAfter(w, id, o, PhaseOfSteered(w, id, o))
  {
    hide MayRun, ValidObs, StatusAfter, PhaseOfSteered, Steered, Base, MeetsLock, Drops, PullsDropped, IsStateLockError,
         ApprovedAfter, PullsAfter, Drifted, Plans, Polls, ChecksDrift, Applied;
    RunFlags(w, id, o);
    BaseParts(w, id, o);
    RunMeetsLock(w, id, o);
    RunPhase(w, id, o);
    UnfinishedStatus(Base(w, id, o), ApplyJob(id, o), o);
    RunningStatus(w, id, o, PhaseOfSteered(w, id, o));
  }

  lemma RunFits(w: World, id: Key, o: Obs)
    requires ValidObs(w, id, o) && id in w.projects && MayRun(w, id, o)
    ensures FirstDrift(o.listing, id).Some? ==> FirstDrift(o.listing, id).value in w.jobs
    ensures Fits(w, id, o, Flow(w, id, o))
  {
    hide MayRun, ValidObs, StatusAfter, PhaseOfSteered, Fits, Flow, FirstDrift, Steered, Base, ApprovedAfter,
         PullsAfter, MeetsLock, Drops, PullsDropped, AppliedStatusOf, JobIs, Drifted, Plans, Polls, ChecksDrift;
    AllListed(w, id, o);
    RunSteps(w, id, o);
    RunFlags(w, id, o);
    BaseParts(w, id, o);
    if Records(w, id, o) {
      RecordedFits(w, id, o);
    } else {
      RunningFits(w, id, o);
    }
    SteeredFits(w, id, o, Flow(w, id, o));
  }

  lemma RunJobs(w: World, id: Key, o: Obs)
    requires ValidObs(w, id, o) && id in w.projects && MayRun(w, id, o)
    ensures FirstDrift(o.listing, id).Some? ==> FirstDrift(o.listing, id).value in w.jobs
    ensures JobsFollow(w, id, o, Flow(w, id, o).jobs)
  {
    hide MayRun, ValidObs, Flow, FirstDrift, Steered, Base, Drops, PullsDropped, IsStateLockError, Wants, Clears,
         JobsFollow, ChecksDrift, Plans, Polls, PullsAfter, ApprovedAfter, Drifted;
    AllListed(w, id, o);
    RunSteps(w, id, o);
    RunFlags(w, id, o);
    BaseParts(w, id, o);
    OnlySteered(w, id, o);
    if ApplyJob(id, o) !in w.jobs {
      OneJobComes(w, id, o, Apply(o.hash[..8]));
    } else if Retries(w, id, o) {
      OneJobGoes(w, id, o, ApplyJob(id, o));
    } else {
      JobsStay(w, id, o);
    }
  }

  // ----- the hash is under review -----

  lemma ReviewFlags(w: World, id: Key, o: Obs)
    requires ValidObs(w, id, o) && id in w.projects && Reviews(w, id, o) && !MayRun(w, id, o)
    ensures Steered(w, id, o) && !Records(w, id, o) && !Retries(w, id, o) && !GivesUp(w, id, o)
    ensures !RecordsPin(w, id, o) && !UnlockSucceeds(w, id, o) && !ChecksDrift(w, id, o)
    ensures !w.projects[id].spec.autoApprove && w.projects[id].status.lastAppliedHash != o.hash
    ensures Drifted(w, id, o) == w.projects[id].status.driftDetected
    ensures w.projects[id].approvedHash == o.hash ==> !WindowOpen(w.projects[id].spec, o.now)
  {
    hide Resolution, Unblocked, WindowOpen, ValidObs;
  }

  lemma ReviewStatus(w: World, id: Key, o: Obs, phase: Phase)
    requires ValidObs(w, id, o) && id in w.projects && Reviews(w, id, o) && !MayRun(w, id, o)
    ensures var p := w.projects[id];
            StatusAfter(w, id, o, phase) ==
            p.status.(phase := phase, pendingPlanHash := PendingAfter(w, id, o), pendingPR := NumberAfter(w, id, o),
                      stateLocked := p.status.stateLocked || MeetsLock(w, id, o))
  {
    hide MayRun, Reviews, ValidObs, Drifted, MeetsLock, PendingAfter, NumberAfter, UnlockSucceeds, RecordsPin, Records,
         Retries, ChecksDrift, ApprovedAfter, PullsAfter;
    ReviewFlags(w, id, o);
  }

  lemma ReviewMeetsLock(w: World, id: Key, o: Obs)
    requires ValidObs(w, id, o) && id in w.projects && Reviews(w, id, o) && !MayRun(w, id, o)
    ensures MeetsLock(w, id, o) <==>
            && Plans(w, id, o) && JobIs(w, PlanJob(id, o), Failure) && o.readable
            && IsStateLockError(Tail(w.jobs[PlanJob(id, o)].logs))
  {
    hide MayRun, Reviews, Plans, SaysLocked, IsStateLockError, ValidObs, GivesUp;
    ReviewFlags(w, id, o);
    if JobIs(w, PlanJob(id, o), Failure) {
      LockErrorIsSaid(Tail(w.jobs[PlanJob(id, o)].logs));
    }
  }

  lemma FlowPends(w: World, id: Key, o: Obs)
    requires ValidObs(w, id, o) && id in w.projects && Reviews(w, id, o)
    ensures FirstDrift(o.listing, id).Some? ==> FirstDrift(o.listing, id).value in w.jobs
    ensures Flow(w, id, o) == PendingStep(Base(w, id, o), id, o).l
  {
    hide Steered, ValidObs, PendingStep, FirstDrift, PlanStep, AutoStep, Base;
    AllListed(w, id, o);
    PlanStepPends(w, id, o);
  }

  /** A result of the review flow that differs from where it began in these respects only. */
  lemma ReviewFits(w: World, id: Key, o: Obs, m: Local)
    requires ValidObs(w, id, o) && id in w.projects && Reviews(w, id, o) && !MayRun(w, id, o)
    requires var l := Prepared(w, id);
             && m.tf == l.tf && m.prs == PullsAfter(w, id, o)
             && m.p == l.p.(approvedHash := ApprovedAfter(w, id, o),
                            status := l.p.status.(phase := PhaseOfSteered(w, id, o),
                                                  pendingPlanHash := PendingAfter(w, id, o),
                                                  pendingPR := NumberAfter(w, id, o),
                                                  stateLocked := l.p.status.stateLocked || MeetsLock(w, id, o)))
    ensures Fits(w, id, o, m)
  {
    hide MayRun, ValidObs, StatusAfter, PhaseOfSteered, Fits, Steered, Reviews, PendingAfter, NumberAfter, MeetsLock,
         ApprovedAfter, PullsAfter;
    ReviewFlags(w, id, o);
    ReviewStatus(w, id, o, PhaseOfSteered(w, id, o));
    SteeredFits(w, id, o, m);
  }

  // Approved, outside the window.

  lemma WaitingRules(w: World, id: Key, o: Obs)
    requires ValidObs(w, id, o) && id in w.projects && Reviews(w, id, o) && !MayRun(w, id, o)
    requires w.projects[id].approvedHash == o.hash
    ensures var b := Base(w, id, o);
            && ApprovedAfter(w, id, o) == b.p.approvedHash && PullsAfter(w, id, o) == b.prs
            && PendingAfter(w, id, o) == b.p.status.pendingPlanHash && NumberAfter(w, id, o) == b.p.status.pendingPR
    ensures !MeetsLock(w, id, o) && !Plans(w, id, o) && PhaseOfSteered(w, id, o) == ScheduledApply
  {
    hide MayRun, Reviews, ValidObs, Drops, PullsDropped, WindowOpen, Base, Steered;
    ReviewFlags(w, id, o);
    BaseParts(w, id, o);
  }

  lemma WaitingFits(w: World, id: Key, o: Obs)
    requires ValidObs(w, id, o) && id in w.projects && Reviews(w, id, o) && !MayRun(w, id, o)
    requires w.projects[id].approvedHash == o.hash
    ensures FirstDrift(o.listing, id).Some? ==> FirstDrift(o.listing, id).value in w.jobs
    ensures Fits(w, id, o, Flow(w, id, o)) && JobsFollow(w, id, o, Flow(w, id, o).jobs)
  {
    hide MayRun, Reviews, ValidObs, PhaseOfSteered, Fits, JobsFollow, Flow, FirstDrift, Steered, Base, Drops, Plans,
         PullsDropped, MustWait, WindowOpen, PRStep, PlanResult, ApplyApproved, Wants, Clears, PendingAfter,
         NumberAfter, ApprovedAfter, PullsAfter, MeetsLock, ChecksDrift;
    AllListed(w, id, o);
    ReviewFlags(w, id, o);
    BaseParts(w, id, o);
    FlowPends(w, id, o);
    WindowIsOpen(w.projects[id].spec, o.now);
    WaitingRules(w, id, o);
    ReviewFits(w, id, o, Flow(w, id, o));
    OnlySteered(w, id, o);
    JobsStay(w, id, o);
  }

  // With a pull request to look at.

  lemma PollRules(w: World, id: Key, o: Obs)
    requires ValidObs(w, id, o) && id in w.projects && Polls(w, id, o)
    ensures var p := w.projects[id];
            && ApprovedAfter(w, id, o) == (if Finds(w, id, o, Merged) then o.hash else p.approvedHash)
            && PullsAfter(w, id, o) == w.prs && !Drops(w, id, o)
            && PendingAfter(w, id, o) == (if Finds(w, id, o, Closed) then "" else o.hash)
            && NumberAfter(w, id, o) == (if Finds(w, id, o, Merged) || Finds(w, id, o, Closed) then 0
                                         else p.status.pendingPR)
            && PhaseOfSteered(w, id, o) == (if Finds(w, id, o, Closed) then PlanRejected else Unsuspended(p))
    ensures !MeetsLock(w, id, o) && !Plans(w, id, o) && !MayRun(w, id, o) && Reviews(w, id, o)
  {
    hide Steered, ValidObs, WindowOpen, Finds;
  }

  lemma PollFits(w: World, id: Key, o: Obs)
    requires ValidObs(w, id, o) && id in w.projects && Polls(w, id, o)
    ensures FirstDrift(o.listing, id).Some? ==> FirstDrift(o.listing, id).value in w.jobs
    ensures Fits(w, id, o, Flow(w, id, o)) && JobsFollow(w, id, o, Flow(w, id, o).jobs)
  {
    hide MayRun, Reviews, ValidObs, PhaseOfSteered, Fits, JobsFollow, Flow, FirstDrift, Steered, Base, Drops, Plans,
         PullsDropped, PRStep, PlanResult, ApprovedStep, Wants, Clears, PendingAfter, NumberAfter, ApprovedAfter,
         PullsAfter, MeetsLock, ChecksDrift;
    AllListed(w, id, o);
    PollRules(w, id, o);
    ReviewFlags(w, id, o);
    BaseParts(w, id, o);
    FlowPends(w, id, o);
    Moves.PullRequestCases(Base(w, id, o), o);
    assert PullsDropped(w, id, o) == w.prs by { NothingDropped(w, id, o); }
    ReviewFits(w, id, o, Flow(w, id, o));
    OnlySteered(w, id, o);
    JobsStay(w, id, o);
  }

  lemma NothingDropped(w: World, id: Key, o: Obs)
    requires ValidObs(w, id, o) && id in w.projects && !Drops(w, id, o)
    ensures PullsDropped(w, id, o) == w.prs
  {
    hide Drops, ValidObs;
  }

  // Waiting for the user.

  lemma AwaitedFits(w: World, id: Key, o: Obs)
    requires ValidObs(w, id, o) && id in w.projects && Reviews(w, id, o) && !Polls(w, id, o) && !Plans(w, id, o)
    requires w.projects[id].approvedHash != o.hash
    ensures FirstDrift(o.listing, id).Some? ==> FirstDrift(o.listing, id).value in w.jobs
    ensures Fits(w, id, o, Flow(w, id, o)) && JobsFollow(w, id, o, Flow(w, id, o).jobs)
  {
    hide MayRun, Reviews, ValidObs, PhaseOfSteered, Fits, JobsFollow, Flow, FirstDrift, Steered, Base, PullsDropped,
         PRStep, PlanResult, ApprovedStep, Wants, Clears, PendingAfter, NumberAfter, ApprovedAfter, PullsAfter,
         MeetsLock, ChecksDrift;
    AllListed(w, id, o);
    AwaitedRules(w, id, o);
    ReviewFlags(w, id, o);
    BaseParts(w, id, o);
    FlowPends(w, id, o);
    ReviewFits(w, id, o, Flow(w, id, o));
    OnlySteered(w, id, o);
    JobsStay(w, id, o);
  }

  lemma AwaitedRules(w: World, id: Key, o: Obs)
    requires ValidObs(w, id, o) && id in w.projects && Reviews(w, id, o) && !Polls(w, id, o) && !Plans(w, id, o)
    requires w.projects[id].approvedHash != o.hash
    ensures var p := w.projects[id];
            && ApprovedAfter(w, id, o) == p.approvedHash && PullsAfter(w, id, o) == w.prs == PullsDropped(w, id, o)
            && PendingAfter(w, id, o) == p.status.pendingPlanHash && NumberAfter(w, id, o) == p.status.pendingPR
            && PhaseOfSteered(w, id, o) == Unsuspended(p) && !Drops(w, id, o)
            && p.status.phase == WaitingApproval && p.status.pendingPlanHash == o.hash
    ensures !MeetsLock(w, id, o) && !MayRun(w, id, o)
  {
    hide Steered, ValidObs, WindowOpen;
  }

  // Planning.

  lemma PlanRules(w: World, id: Key, o: Obs)
    requires ValidObs(w, id, o) && id in w.projects && Plans(w, id, o)
    ensures Reviews(w, id, o) && !MayRun(w, id, o) && w.projects[id].approvedHash != o.hash
    ensures var b := Base(w, id, o);
            && b.p.approvedHash != o.hash
            && !(b.p.status.phase == WaitingApproval && b.p.status.pendingPlanHash == o.hash)
            && !(b.p.spec.githubPR && b.p.status.pendingPR > 0 && b.p.status.pendingPlanHash == o.hash)
            && ApprovedAfter(w, id, o) == (if SelfApproves(w, id, o) then o.hash else b.p.approvedHash)
            && PendingAfter(w, id, o) == (if Reports(w, id, o) then o.hash else b.p.status.pendingPlanHash)
            && NumberAfter(w, id, o) == (if AsksReview(w, id, o) && o.createdPR.Some? then o.createdPR.value
                                         else b.p.status.pendingPR)
  {
    hide Resolution, Unblocked, ValidObs, WindowOpen, Base, PullsDropped;
    BaseParts(w, id, o);
  }

  lemma PlanPhase(w: World, id: Key, o: Obs)
    requires ValidObs(w, id, o) && id in w.projects && Plans(w, id, o)
    ensures PhaseOfSteered(w, id, o) ==
            if SelfApproves(w, id, o) && !WindowOpen(w.projects[id].spec, o.now) then ScheduledApply
            else if AsksReview(w, id, o) && o.createdPR.None? then Error
            else if Reports(w, id, o) then WaitingApproval
            else if PlanJob(id, o) !in w.jobs then Planning
            else if MeetsLock(w, id, o) then Locked else Error
  {
    hide ValidObs, Plans, MayRun, WindowOpen, MeetsLock, Base;
    PlanRules(w, id, o);
    ReviewFlags(w, id, o);
    PlansFindNothing(w, id, o);
  }

  lemma PlansFindNothing(w: World, id: Key, o: Obs)
    requires ValidObs(w, id, o) && id in w.projects && Plans(w, id, o)
    ensures !Polls(w, id, o)
  {
    hide ValidObs, Reviews;
  }

  lemma PlanPends(b: Local, id: Key, o: Obs)
    requires b.p.approvedHash != o.hash
    requires !(b.p.status.phase == WaitingApproval && b.p.status.pendingPlanHash == o.hash)
    requires !(b.p.spec.githubPR && b.p.status.pendingPR > 0 && b.p.status.pendingPlanHash == o.hash)
    ensures var j := JobId(id, Plan(o.hash[..8]));
            PendingStep(b, id, o) ==
            if j !in b.jobs then Out(WithPhase(Created(b, j), Planning), After(5 * SECOND)) else PlanResult(b, id, j, o)
  {
    hide ApprovedStep, PRStep, PlanResult;
  }

  /** The plan flow at the plan Job. */
  lemma PlanSteps(w: World, id: Key, o: Obs)
    requires ValidObs(w, id, o) && id in w.projects && Plans(w, id, o)
    ensures FirstDrift(o.listing, id).Some? ==> FirstDrift(o.listing, id).value in w.jobs
    ensures Base(w, id, o).jobs == w.jobs
    ensures Flow(w, id, o) ==
            var b, j := Base(w, id, o), PlanJob(id, o);
            if j !in w.jobs then WithPhase(Created(b, j), Planning) else PlanResult(b, id, j, o).l
    ensures !JobIs(w, PlanJob(id, o), Active)
  {
    hide MayRun, Reviews, ValidObs, Flow, FirstDrift, Base, Plans, PullsDropped, PlanResult, PendingStep, Drops,
         Unblocked, PendingAfter, NumberAfter, ApprovedAfter;
    AllListed(w, id, o);
    PlanRules(w, id, o);
    FlowPends(w, id, o);
    ReviewFlags(w, id, o);
    BaseParts(w, id, o);
    PlanPends(Base(w, id, o), id, o);
    UnblockedJobs(w, id, PlanJob(id, o));
  }

  lemma PlanJobs(w: World, id: Key, o: Obs)
    requires ValidObs(w, id, o) && id in w.projects && Plans(w, id, o)
    ensures FirstDrift(o.listing, id).Some? ==> FirstDrift(o.listing, id).value in w.jobs
    ensures JobsFollow(w, id, o, Flow(w, id, o).jobs)
  {
    hide MayRun, Reviews, ValidObs, Flow, FirstDrift, Base, Plans, PullsDropped, PlanResult, PendingStep, Drops,
         Steered, PendingAfter, NumberAfter, ApprovedAfter, Wants, Clears, JobsFollow, ChecksDrift;
    PlanSteps(w, id, o);
    PlanRules(w, id, o);
    ReviewFlags(w, id, o);
    OnlySteered(w, id, o);
    if PlanJob(id, o) !in w.jobs {
      OneJobComes(w, id, o, Plan(o.hash[..8]));
    } else {
      FinishedPlanJobs(Base(w, id, o), id, PlanJob(id, o), o);
      JobsStay(w, id, o);
    }
  }

  lemma FinishedPlanJobs(b: Local, id: Key, j: JobId, o: Obs)
    requires j in b.jobs && b.jobs[j].outcome != Active
    ensures PlanResult(b, id, j, o).l.jobs == b.jobs
  {
    hide MustWait, ReadPlan, WithinThreshold, IsStateLockError, Tail;
  }

  lemma MissingPlanFits(w: World, id: Key, o: Obs)
    requires ValidObs(w, id, o) && id in w.projects && Plans(w, id, o) && PlanJob(id, o) !in w.jobs
    ensures FirstDrift(o.listing, id).Some? ==> FirstDrift(o.listing, id).value in w.jobs
    ensures Fits(w, id, o, Flow(w, id, o))
  {
    hide MayRun, Reviews, ValidObs, Flow, FirstDrift, Base, Plans, PullsDropped, PlanResult, PendingStep, Drops,
         Steered, PendingAfter, NumberAfter, ApprovedAfter, ChecksDrift, PhaseOfSteered, Fits, MeetsLock;
    PlanSteps(w, id, o);
    PlanRules(w, id, o);
    PlanPhase(w, id, o);
    ReviewFlags(w, id, o);
    ReviewMeetsLock(w, id, o);
    BaseParts(w, id, o);
    ReviewFits(w, id, o, Flow(w, id, o));
  }

  lemma FailedPlanSteps(b: Local, id: Key, j: JobId, o: Obs)
    requires j in b.jobs && b.jobs[j].outcome == Failure
    ensures var locked := o.readable && IsStateLockError(Tail(b.jobs[j].logs));
            PlanResult(b, id, j, o).l ==
            WithStatus(b, b.p.status.(phase := if locked then Locked else Error,
                                      stateLocked := b.p.status.stateLocked || locked))
  {
    hide IsStateLockError;
    EmptyIsNoLock();
    assert Tail("") == "";
  }

  lemma FailedPlanFits(w: World, id: Key, o: Obs)
    requires ValidObs(w, id, o) && id in w.projects && Plans(w, id, o) && JobIs(w, PlanJob(id, o), Failure)
    ensures FirstDrift(o.listing, id).Some? ==> FirstDrift(o.listing, id).value in w.jobs
    ensures Fits(w, id, o, Flow(w, id, o))
  {
    hide MayRun, Reviews, ValidObs, Flow, FirstDrift, Base, Plans, PullsDropped, PlanResult, PendingStep, Drops,
         Steered, PendingAfter, NumberAfter, ApprovedAfter, ChecksDrift, PhaseOfSteered, Fits, MeetsLock,
         IsStateLockError, Tail;
    PlanSteps(w, id, o);
    PlanRules(w, id, o);
    PlanPhase(w, id, o);
    ReviewFlags(w, id, o);
    ReviewMeetsLock(w, id, o);
    BaseParts(w, id, o);
    FailedPlanSteps(Base(w, id, o), id, PlanJob(id, o), o);
    ReviewFits(w, id, o, Flow(w, id, o));
  }

  function PlanReported(b: Local, o: Obs): Local {
    WithStatus(b, b.p.status.(pendingPlanHash := o.hash))
  }

  lemma SmallPlanSteps(b: Local, o: Obs)
    ensures SelfApproved(PlanReported(b, o), o).l ==
            b.(p := b.p.(approvedHash := o.hash,
                         status := b.p.status.(pendingPlanHash := o.hash,
                                               phase := if MustWait(b.p.spec, o.now) then ScheduledApply
                                                        else WaitingApproval)))
  {
    hide MustWait;
  }

  lemma ReportedSteps(b: Local, id: Key, j: JobId, o: Obs)
    requires j in b.jobs && b.jobs[j].outcome == Success && !b.p.spec.autoApprove
    ensures var radius := ReadPlan(if o.readable then b.jobs[j].logs else "").radius;
            PlanResult(b, id, j, o).l ==
            if WithinThreshold(b.p.spec.maxBlastRadius, radius) then SelfApproved(PlanReported(b, o), o).l
            else if b.p.spec.githubPR then OpenPR(PlanReported(b, o), id, o).l
            else WithPhase(PlanReported(b, o), WaitingApproval)
  {
    hide ReadPlan, WithinThreshold, SelfApproved, OpenPR;
  }

  lemma OpenSteps(b: Local, id: Key, o: Obs)
    ensures OpenPR(PlanReported(b, o), id, o).l ==
            if o.createdPR.None? then WithPhase(PlanReported(b, o), Error)
            else
              b.(prs := b.prs[PRId(b.p.spec.repo, o.createdPR.value) := PullRequest(Some(PlanRef(id, o.hash)), Open)],
                 p := b.p.(status := b.p.status.(pendingPlanHash := o.hash, pendingPR := o.createdPR.value,
                                                 phase := WaitingApproval)))
  {
  }

  lemma ReportFlags(w: World, id: Key, o: Obs)
    requires ValidObs(w, id, o) && id in w.projects && Reports(w, id, o)
    ensures SelfApproves(w, id, o) <==>
            WithinThreshold(w.projects[id].spec.maxBlastRadius,
                            ReadPlan(if o.readable then w.jobs[PlanJob(id, o)].logs else "").radius)
    ensures AsksReview(w, id, o) <==> !SelfApproves(w, id, o) && w.projects[id].spec.githubPR
    ensures PullsAfter(w, id, o) ==
            if AsksReview(w, id, o) && o.createdPR.Some? then
              PullsDropped(w, id, o)[PRId(w.projects[id].spec.repo, o.createdPR.value) :=
                                       PullRequest(Some(PlanRef(id, o.hash)), Open)]
            else PullsDropped(w, id, o)
  {
    hide Reports, ValidObs, ReadPlan, PullsDropped;
  }

  lemma ReportedFits(w: World, id: Key, o: Obs)
    requires ValidObs(w, id, o) && id in w.projects && Reports(w, id, o)
    ensures FirstDrift(o.listing, id).Some? ==> FirstDrift(o.listing, id).value in w.jobs
    ensures Fits(w, id, o, Flow(w, id, o))
  {
    hide MayRun, Reviews, ValidObs, Flow, FirstDrift, Base, Plans, PullsDropped, PlanResult, PendingStep, Drops,
         Steered, PendingAfter, NumberAfter, ApprovedAfter, ChecksDrift, PhaseOfSteered, Fits, MeetsLock, PullsAfter,
         ReadPlan, WithinThreshold, MustWait, WindowOpen, SelfApproves, AsksReview, SelfApproved, OpenPR;
    PlanSteps(w, id, o);
    PlanRules(w, id, o);
    PlanPhase(w, id, o);
    ReviewFlags(w, id, o);
    ReviewMeetsLock(w, id, o);
    BaseParts(w, id, o);
    ReportFlags(w, id, o);
    WindowIsOpen(w.projects[id].spec, o.now);
    var b := Base(w, id, o);
    ReportedSteps(b, id, PlanJob(id, o), o);
    if SelfApproves(w, id, o) {
      SmallPlanSteps(b, o);
    } else if w.projects[id].spec.githubPR {
      OpenSteps(b, id, o);
    }
    ReviewFits(w, id, o, Flow(w, id, o));
  }

  // ----- the whole reconcile -----

  lemma FlowMatches(w: World, id: Key, o: Obs)
    requires ValidObs(w, id, o) && id in w.projects && Steered(w, id, o)
    ensures FirstDrift(o.listing, id).Some? ==> FirstDrift(o.listing, id).value in w.jobs
    ensures Fits(w, id, o, Flow(w, id, o)) && JobsFollow(w, id, o, Flow(w, id, o).jobs)
  {
    hide Steered, ValidObs, FirstDrift, Flow, Fits, JobsFollow, MayRun, Polls, InSync, Resolution;
    AllListed(w, id, o);
    if w.projects[id].status.lastAppliedHash == o.hash {
      InSyncFits(w, id, o);
      InSyncJobs(w, id, o);
      FlowIsInSync(w, id, o);
    } else if MayRun(w, id, o) {
      RunFits(w, id, o);
      RunJobs(w, id, o);
    } else {
      NotRunReviews(w, id, o);
      if w.projects[id].approvedHash == o.hash {
        WaitingFits(w, id, o);
      } else if Polls(w, id, o) {
        PollFits(w, id, o);
      } else if Plans(w, id, o) {
        PlanJobs(w, id, o);
        if PlanJob(id, o) !in w.jobs {
          MissingPlanFits(w, id, o);
        } else if w.jobs[PlanJob(id, o)].outcome == Success {
          ReportedFits(w, id, o);
        } else {
          PlanSteps(w, id, o);
          FailedPlanFits(w, id, o);
        }
      } else {
        AwaitedFits(w, id, o);
      }
    }
  }

  lemma FlowIsInSync(w: World, id: Key, o: Obs)
    requires id in w.projects && w.projects[id].status.lastAppliedHash == o.hash
    requires FirstDrift(o.listing, id).Some? ==> FirstDrift(o.listing, id).value in w.jobs
    ensures Flow(w, id, o) == InSync(Prepared(w, id), id, o).l
  {
    hide FirstDrift, InSync;
  }

  lemma NotRunReviews(w: World, id: Key, o: Obs)
    requires ValidObs(w, id, o) && id in w.projects && Steered(w, id, o) && !MayRun(w, id, o)
    requires w.projects[id].status.lastAppliedHash != o.hash
    ensures Reviews(w, id, o)
  {
    hide Steered, ValidObs, WindowOpen;
  }

  lemma SteeredFollows(w: World, id: Key, o: Obs)
    requires ValidObs(w, id, o) && id in w.projects && Steered(w, id, o)
    ensures Follows(w.projects[id], o)
  {
  }

  /** Which handler decides. */
  lemma Paths(w: World, id: Key, o: Obs)
    requires ValidObs(w, id, o) && id in w.projects
    ensures FirstDrift(o.listing, id).Some? ==> FirstDrift(o.listing, id).value in w.jobs
    ensures Params.AreOrders(o.orders, Entered(w, id).p.spec.inputs.dependencies)
    ensures Follows(w.projects[id], o) ==> (ReturnsEarly(Entered(w, id), id, w.projects, o) <==> !Steered(w, id, o))
    ensures var p, l := w.projects[id], Finalized(Loaded(w, id));
            id in Reconcile(w, id, o).projects && Reconcile(w, id, o) == Stored(w, id, Loaded(Reconcile(w, id, o), id))
            && Loaded(Reconcile(w, id, o), id) ==
               if p.deleting then LifecycleStep(Loaded(w, id), id, o).value.l
               else if Outlived(p, o.now) then l.(p := l.p.(deleting := true))
               else if p.forceUnlock then ForceUnlockStep(l, id).l
               else if p.spec.suspend then WithPhase(l, Suspended)
               else if p.spec.pinnedRevision > 0 then PinnedStep(Entered(w, id), id, o).l
               else if Steered(w, id, o) then Flow(w, id, o)
               else PreparedOut(Entered(w, id), id, w.projects, o).l
  {
    hide Steered, FirstDrift, ReturnsEarly, PreparedOut, AutoStep, PlanStep, PinnedStep, ForceUnlockStep, DestroyStep,
         Params.AreOrders, Bounded;
    AllListed(w, id, o);
    FirstDriftIsListed(o.listing, id);
    if Follows(w.projects[id], o) {
      EarlyUnlessSteered(w, id, o);
    }
  }

  /** The project, the Jobs, the ConfigMap and the pull requests after any reconcile are what the rules say. */
  lemma ReconcileFollowsRules(w: World, id: Key, o: Obs)
    requires ValidObs(w, id, o) && id in w.projects
    ensures FollowsRules(w, id, o, Reconcile(w, id, o))
  {
    hide Reconcile, ValidObs, Steered, FirstDrift, PreparedOut, PinnedStep, ForceUnlockStep, Flow, JobsFollow,
         ReturnsEarly, LifecycleStep, Params.AreOrders, ProjectAfter, PhaseAfter, PullsAfter, Writes, RecordsPin,
         HasSnapshot, Unblocked;
    Paths(w, id, o);
    var p := w.projects[id];
    if Steered(w, id, o) {
      SteeredFollows(w, id, o);
      FlowMatches(w, id, o);
    } else if p.deleting {
      DeletedFits(w, id, o);
      DeletedJobs(w, id, o);
    } else if Outlived(p, o.now) {
      IdlePhase(w, id, o);
      IdleFits(w, id, o, true, p.status.phase);
    } else if p.forceUnlock {
      UnlockFits(w, id, o);
      UnlockJobs(w, id, o);
    } else if p.spec.suspend {
      IdlePhase(w, id, o);
      IdleFits(w, id, o, false, Suspended);
    } else if p.spec.pinnedRevision > 0 {
      PinFits(w, id, o);
      PinJobs(w, id, o);
    } else {
      EarlyMatches(w, id, o);
    }
  }

  lemma IdlePhase(w: World, id: Key, o: Obs)
    requires ValidObs(w, id, o) && id in w.projects && !w.projects[id].deleting
    requires Outlived(w.projects[id], o.now) || (!w.projects[id].forceUnlock && w.projects[id].spec.suspend)
    ensures PhaseAfter(w, id, o) == if Outlived(w.projects[id], o.now) then w.projects[id].status.phase else Suspended
    ensures !Steered(w, id, o) && !RecordsPin(w, id, o) && !Repins(w.projects[id], o) && !Writes(w, id, o)
    ensures !Unlocks(w.projects[id], o)
  {
    hide Resolution, Unblocked, HasSnapshot, ValidObs;
  }
}
