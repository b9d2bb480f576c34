/** The answer of every reconcile to the work queue follows the rules, and what they promise: nobody is forgotten. */
module QueueRules {
  import opened ApplyWindow
  import opened PlanLog
  import opened Api
  import opened Protocol
  import opened Rules
  import opened RulesHold
  import Params
  import Revisions

  lemma DeletedAnswer(w: World, id: Key, o: Obs)
    requires ValidObs(w, id, o) && id in w.projects && w.projects[id].deleting
    ensures LifecycleStep(Loaded(w, id), id, o).Some?
    ensures LifecycleStep(Loaded(w, id), id, o).value.r == AnswerOfDeleted(w, id, o)
  {
    hide LiveStep, ValidObs;
  }

  lemma UnlockAnswer(w: World, id: Key)
    requires id in w.projects
    ensures ForceUnlockStep(Finalized(Loaded(w, id)), id).r == AnswerOfUnlocked(w, id)
  {
  }

  lemma PinAnswer(w: World, id: Key, o: Obs)
    requires id in w.projects && Pinned(w.projects[id], o)
    ensures PinnedStep(Entered(w, id), id, o).r == AnswerOfPinned(w, id, o)
  {
    hide Unblocked, LockStep, Revisions.LoadSnapshot;
    var l := Entered(w, id);
    LockIsUnblocked(w, id, l.(tf := l.tf + {id}));
    LockAnswer(l.(tf := l.tf + {id}), id);
    if Unblocked(w, id) {
      UnblockedJobs(w, id, PinJob(id, o));
    }
  }

  lemma LockAnswer(l: Local, id: Key)
    ensures LockStep(l, id).Some? ==> LockStep(l, id).value.r == SOON
  {
    hide NamespaceBusy, ProjectBusy;
  }

  lemma EarlyAnswer(w: World, id: Key, o: Obs)
    requires ValidObs(w, id, o) && id in w.projects && Follows(w.projects[id], o) && !Steered(w, id, o)
    ensures Params.AreOrders(o.orders, Entered(w, id).p.spec.inputs.dependencies)
    ensures ReturnsEarly(Entered(w, id), id, w.projects, o)
    ensures PreparedOut(Entered(w, id), id, w.projects, o).r == AnswerOfFollowing(w, id, o)
  {
    hide Params.Resolve, Params.AreOrders, LockStep, Unblocked, Upstreams, AnswerOfApplied, AnswerOfRunning,
         AnswerOfReviewed, WithinLife;
    EarlyUnlessSteered(w, id, o);
    OwnPhaseDoesNotMatter(w, id);
    var l := Entered(w, id);
    LockIsUnblocked(w, id, l.(tf := l.tf + {id}));
    LockAnswer(l.(tf := l.tf + {id}), id);
  }

  // ----- past preparation -----

  ghost function FlowOut(w: World, id: Key, o: Obs): Out
    requires id in w.projects
    requires FirstDrift(o.listing, id).Some? ==> FirstDrift(o.listing, id).value in w.jobs
  {
    if w.projects[id].spec.autoApprove then AutoStep(Prepared(w, id), id, o) else PlanStep(Prepared(w, id), id, o)
  }

  lemma InSyncAnswer(w: World, id: Key, o: Obs)
    requires ValidObs(w, id, o) && id in w.projects && Steered(w, id, o)
    requires w.projects[id].status.lastAppliedHash == o.hash
    ensures FirstDrift(o.listing, id).Some? ==> FirstDrift(o.listing, id).value in w.jobs
    ensures var p, d := w.projects[id], FirstDrift(o.listing, id);
            InSync(Prepared(w, id), id, o).r ==
            if p.spec.driftInterval.None? then Later(p.spec.syncInterval)
            else if !ChecksDrift(w, id, o) then
              Later(p.status.lastDriftCheck.GetOr(0) + p.spec.driftInterval.value - o.now)
            else if d.None? then SOON
            else DriftJobStep(Prepared(w, id), d.value, p.spec.driftInterval.value, o).r
  {
    hide Steered, ValidObs, FirstDrift, DriftJobStep, DriftStep;
    AllListed(w, id, o);
    if w.projects[id].spec.driftInterval.Some? {
      DriftStepAnswer(Prepared(w, id), id, o);
    }
  }

  lemma DriftStepAnswer(l: Local, id: Key, o: Obs)
    requires l.p.spec.driftInterval.Some?
    requires FirstDrift(o.listing, id).Some? ==> FirstDrift(o.listing, id).value in l.jobs
    ensures var last, interval, d := l.p.status.lastDriftCheck, l.p.spec.driftInterval.value, FirstDrift(o.listing, id);
            DriftStep(l, id, o).r ==
            if last.Some? && o.now - last.value < interval then Later(last.value + interval - o.now)
            else if d.None? then SOON
            else DriftJobStep(l, d.value, interval, o).r
  {
    hide FirstDrift, DriftJobStep;
  }

  lemma AppliedAnswer(w: World, id: Key, o: Obs)
    requires ValidObs(w, id, o) && id in w.projects && Steered(w, id, o)
    requires w.projects[id].status.lastAppliedHash == o.hash
    ensures FirstDrift(o.listing, id).Some? ==> FirstDrift(o.listing, id).value in w.jobs
    ensures FlowOut(w, id, o).r == AnswerOfApplied(w, id, o)
  {
    hide Steered, ValidObs, FirstDrift, DriftJobStep, ChecksDrift, InSync, DriftEnds, Repairs, Prepared;
    AllListed(w, id, o);
    InSyncAnswer(w, id, o);
    FlowIsInSyncOut(w, id, o);
    if ChecksDrift(w, id, o) && FirstDrift(o.listing, id).Some? {
      FoundDriftAnswer(w, id, o);
    }
  }

  lemma FlowIsInSyncOut(w: World, id: Key, o: Obs)
    requires id in w.projects && w.projects[id].status.lastAppliedHash == o.hash
    requires FirstDrift(o.listing, id).Some? ==> FirstDrift(o.listing, id).value in w.jobs
    ensures FlowOut(w, id, o) == InSync(Prepared(w, id), id, o)
  {
    hide FirstDrift, InSync;
  }

  lemma DriftJobAnswer(l: Local, j: JobId, interval: int, o: Obs)
    requires j in l.jobs
    ensures var drifted := if o.readable then ShowsDrift(l.jobs[j].logs) else l.p.status.driftDetected;
            DriftJobStep(l, j, interval, o).r ==
            match l.jobs[j].outcome
            case Active => SOON
            case Failure => Later(interval)
            case Success => if drifted && l.p.spec.keepInSync then AT_ONCE else Later(interval)
  {
    hide ExtractPlanSummary;
  }

  lemma FoundDriftAnswer(w: World, id: Key, o: Obs)
    requires ValidObs(w, id, o) && id in w.projects && ChecksDrift(w, id, o)
    requires FirstDrift(o.listing, id).Some? && FirstDrift(o.listing, id).value in w.jobs
    ensures w.projects[id].spec.driftInterval.Some?
    ensures var p, d := w.projects[id], FirstDrift(o.listing, id).value;
            DriftJobStep(Prepared(w, id), d, p.spec.driftInterval.value, o).r ==
            if DriftEnds(w, id, o, Active) then SOON
            else if Repairs(w, id, o) then AT_ONCE else Later(p.spec.driftInterval.value)
  {
    hide ValidObs, FirstDrift, DriftJobStep, Repairs, DriftEnds, ShowsDrift, Drifted, Steered, ReadsDrift;
    DriftFlags(w, id, o);
    DriftJobAnswer(Prepared(w, id), FirstDrift(o.listing, id).value, w.projects[id].spec.driftInterval.value, o);
  }

  lemma AutoAnswer(b: Local, id: Key, o: Obs)
    requires b.p.spec.autoApprove && b.p.status.lastAppliedHash != o.hash
    requires FirstDrift(o.listing, id).Some? ==> FirstDrift(o.listing, id).value in b.jobs
    requires var j := JobId(id, Apply(o.hash[..8])); j in b.jobs ==> b.jobs[j].outcome != Active
    ensures AutoStep(b, id, o).r == ApplyAnswer(b, JobId(id, Apply(o.hash[..8])), QUIET)
  {
    hide IsStateLockError, FirstDrift, InSync;
  }

  function ApplyAnswer(b: Local, j: JobId, done: Result): Result {
    if j !in b.jobs then SOON
    else if b.jobs[j].outcome == Success then done
    else if RetriesLeft(b.p) then Later(b.p.spec.retry.value.delay)
    else QUIET
  }

  lemma ApprovedAnswer(b: Local, id: Key, o: Obs)
    requires !b.p.spec.autoApprove && b.p.approvedHash == o.hash && !MustWait(b.p.spec, o.now)
    requires var j := JobId(id, Apply(o.hash[..8])); j in b.jobs ==> b.jobs[j].outcome != Active
    ensures PendingStep(b, id, o).r == ApplyAnswer(b, JobId(id, Apply(o.hash[..8])), Later(b.p.spec.syncInterval))
  {
    hide IsStateLockError, MustWait, PRStep, PlanResult;
  }

  lemma RunAnswer(w: World, id: Key, o: Obs)
    requires ValidObs(w, id, o) && id in w.projects && MayRun(w, id, o)
    ensures FirstDrift(o.listing, id).Some? ==> FirstDrift(o.listing, id).value in w.jobs
    ensures FlowOut(w, id, o).r == AnswerOfRunning(w, id, o)
  {
    hide Unblocked, Resolution, WindowOpen, ValidObs, MustWait, AutoStep, PendingStep, FirstDrift, InSync, Drops,
         PullsDropped, Dropped, PlanStep;
    AllListed(w, id, o);
    UnblockedJobs(w, id, ApplyJob(id, o));
    WindowIsOpen(w.projects[id].spec, o.now);
    BaseParts(w, id, o);
    if w.projects[id].spec.autoApprove {
      AutoAnswer(Base(w, id, o), id, o);
    } else {
      ApprovedAnswer(Base(w, id, o), id, o);
      PlanStepPends(w, id, o);
    }
  }

  lemma ReviewPends(w: World, id: Key, o: Obs)
    requires ValidObs(w, id, o) && id in w.projects && Reviews(w, id, o)
    ensures FirstDrift(o.listing, id).Some? ==> FirstDrift(o.listing, id).value in w.jobs
    ensures FlowOut(w, id, o) == PendingStep(Base(w, id, o), id, o)
  {
    hide Steered, ValidObs, PendingStep, FirstDrift, PlanStep, AutoStep, Base;
    AllListed(w, id, o);
    PlanStepPends(w, id, o);
  }

  lemma WindowAnswer(s: ApplySchedule, now: int)
    ensures WindowWait(s, now) == UntilWindow(s, now)
  {
  }

  lemma WaitingAnswer(w: World, id: Key, o: Obs)
    requires ValidObs(w, id, o) && id in w.projects && Reviews(w, id, o) && !MayRun(w, id, o)
    requires w.projects[id].approvedHash == o.hash
    ensures FirstDrift(o.listing, id).Some? ==> FirstDrift(o.listing, id).value in w.jobs
    ensures FlowOut(w, id, o).r == AnswerOfReviewed(w, id, o)
  {
    hide MayRun, Reviews, ValidObs, FlowOut, FirstDrift, Steered, Base, Drops, Plans, PullsDropped, WindowWait, Polls,
         InWindow, WindowOpen, PRStep, PlanResult, ApplyApproved, ChecksDrift, SelfApproves, UntilWindow;
    ReviewFlags(w, id, o);
    BaseParts(w, id, o);
    ReviewPends(w, id, o);
    WindowIsOpen(w.projects[id].spec, o.now);
    ScheduleIsThere(w.projects[id].spec, o.now);
    WindowAnswer(w.projects[id].spec.applySchedule.value, o.now);
  }

  lemma ScheduleIsThere(spec: Spec, now: int)
    ensures !WindowOpen(spec, now) ==> spec.applySchedule.Some?
  {
  }

  lemma PullAnswer(l: Local, o: Obs)
    ensures var known := o.prAnswers && PendingPull(l.p) in l.prs;
            PRStep(l, o).r ==
            if known && l.prs[PendingPull(l.p)].state == Merged then AT_ONCE
            else if known && l.prs[PendingPull(l.p)].state == Closed then Later(MINUTE / 6)
            else if l.p.status.phase == PlanRejected then Later(MINUTE / 6) else Later(MINUTE / 2)
  {
  }

  lemma PollPends(b: Local, id: Key, o: Obs)
    requires b.p.approvedHash != o.hash && b.p.spec.githubPR && b.p.status.pendingPR > 0
    requires b.p.status.pendingPlanHash == o.hash
    ensures PendingStep(b, id, o) == PRStep(b, o)
  {
    hide PRStep, PlanResult, ApprovedStep;
  }

  lemma PollAnswer(w: World, id: Key, o: Obs)
    requires ValidObs(w, id, o) && id in w.projects && Polls(w, id, o)
    ensures FirstDrift(o.listing, id).Some? ==> FirstDrift(o.listing, id).value in w.jobs
    ensures FlowOut(w, id, o).r == AnswerOfReviewed(w, id, o)
  {
    hide MayRun, Reviews, ValidObs, FlowOut, FirstDrift, Steered, Base, Drops, PullsDropped, ChecksDrift, WindowOpen,
         PendingAfter, NumberAfter, ApprovedAfter, PullsAfter, MeetsLock, PhaseOfSteered, PendingStep, PRStep, Plans;
    PollRules(w, id, o);
    ReviewFlags(w, id, o);
    BaseParts(w, id, o);
    NothingDropped(w, id, o);
    ReviewPends(w, id, o);
    PollPends(Base(w, id, o), id, o);
    PullAnswer(Base(w, id, o), o);
  }

  lemma AwaitedAnswer(w: World, id: Key, o: Obs)
    requires ValidObs(w, id, o) && id in w.projects && Reviews(w, id, o) && !Polls(w, id, o) && !Plans(w, id, o)
    requires w.projects[id].approvedHash != o.hash
    ensures FirstDrift(o.listing, id).Some? ==> FirstDrift(o.listing, id).value in w.jobs
    ensures FlowOut(w, id, o).r == AnswerOfReviewed(w, id, o)
  {
    hide MayRun, Reviews, ValidObs, FlowOut, FirstDrift, Steered, Base, Drops, PullsDropped, PlanResult, ApprovedStep,
         ChecksDrift, WindowOpen, PendingAfter, NumberAfter, ApprovedAfter, PullsAfter, MeetsLock, PhaseOfSteered,
         PRStep;
    AwaitedRules(w, id, o);
    ReviewFlags(w, id, o);
    BaseParts(w, id, o);
    ReviewPends(w, id, o);
  }

  lemma PlanResultAnswer(b: Local, id: Key, j: JobId, o: Obs)
    requires j in b.jobs && b.jobs[j].outcome != Active && !b.p.spec.autoApprove
    ensures var radius := ReadPlan(if o.readable then b.jobs[j].logs else "").radius;
            var small := WithinThreshold(b.p.spec.maxBlastRadius, radius);
            PlanResult(b, id, j, o).r ==
            if b.jobs[j].outcome == Failure then QUIET
            else if small then
              if MustWait(b.p.spec, o.now) then WindowWait(b.p.spec.applySchedule.value, o.now) else AT_ONCE
            else if b.p.spec.githubPR && o.createdPR.Some? then Later(MINUTE / 2) else QUIET
  {
    hide ReadPlan, WithinThreshold, IsStateLockError, Tail, WindowWait, InWindow;
  }

  lemma PlanAnswer(w: World, id: Key, o: Obs)
    requires ValidObs(w, id, o) && id in w.projects && Plans(w, id, o)
    ensures FirstDrift(o.listing, id).Some? ==> FirstDrift(o.listing, id).value in w.jobs
    ensures FlowOut(w, id, o).r == AnswerOfReviewed(w, id, o)
  {
    hide MayRun, Reviews, ValidObs, FlowOut, FirstDrift, Base, Plans, PullsDropped, PlanResult, PendingStep, Drops,
         Steered, PendingAfter, NumberAfter, ApprovedAfter, ChecksDrift, PullsAfter, ReadPlan, WithinThreshold,
         WindowWait, InWindow, WindowOpen, SelfApproves, AsksReview, UntilWindow, Polls;
    PlanRules(w, id, o);
    PlansFindNothing(w, id, o);
    ReviewFlags(w, id, o);
    BaseParts(w, id, o);
    ReviewPends(w, id, o);
    var b, j := Base(w, id, o), PlanJob(id, o);
    PlanPends(b, id, o);
    WindowIsOpen(w.projects[id].spec, o.now);
    ScheduleIsThere(w.projects[id].spec, o.now);
    if j in w.jobs {
      PlanSteps(w, id, o);
      PlanResultAnswer(b, id, j, o);
      if w.jobs[j].outcome == Success {
        ReportFlags(w, id, o);
        if MustWait(b.p.spec, o.now) {
          WindowAnswer(b.p.spec.applySchedule.value, o.now);
        }
      } else {
        UnreportedPlan(w, id, o);
      }
    } else {
      UnreportedPlan(w, id, o);
    }
  }

  lemma UnreportedPlan(w: World, id: Key, o: Obs)
    requires ValidObs(w, id, o) && id in w.projects && !Reports(w, id, o)
    ensures !SelfApproves(w, id, o) && !AsksReview(w, id, o)
  {
    hide Reports, ValidObs, ReadPlan;
  }

  lemma FlowAnswer(w: World, id: Key, o: Obs)
    requires ValidObs(w, id, o) && id in w.projects && Steered(w, id, o)
    ensures FirstDrift(o.listing, id).Some? ==> FirstDrift(o.listing, id).value in w.jobs
    ensures WithinLife(w.projects[id], o.now, FlowOut(w, id, o).r) == AnswerOfFollowing(w, id, o)
  {
    hide ValidObs, FirstDrift, FlowOut, MayRun, Polls, Plans, AnswerOfApplied, AnswerOfRunning, AnswerOfReviewed,
         WithinLife, Unblocked, Resolution;
    AllListed(w, id, o);
    if w.projects[id].status.lastAppliedHash == o.hash {
      AppliedAnswer(w, id, o);
      AppliedFlags(w, id, o);
    } else if MayRun(w, id, o) {
      RunAnswer(w, id, o);
    } else {
      NotRunReviews(w, id, o);
      if w.projects[id].approvedHash == o.hash {
        WaitingAnswer(w, id, o);
      } else if Polls(w, id, o) {
        PollAnswer(w, id, o);
      } else if Plans(w, id, o) {
        PlanAnswer(w, id, o);
      } else {
        AwaitedAnswer(w, id, o);
      }
    }
  }

  // ----- the whole answer -----

  lemma ClampIsLife(p: Project, q: Project, now: int, r: Result)
    requires p.created == q.created && p.spec == q.spec
    ensures Clamp(q, now, r) == WithinLife(p, now, r)
  {
  }

  /** Which handler answers. */
  lemma AnswerPaths(w: World, id: Key, o: Obs)
    requires ValidObs(w, id, o) && id in w.projects
    ensures FirstDrift(o.listing, id).Some? ==> FirstDrift(o.listing, id).value in w.jobs
    ensures Params.AreOrders(o.orders, Entered(w, id).p.spec.inputs.dependencies)
    ensures Follows(w.projects[id], o) ==> (ReturnsEarly(Entered(w, id), id, w.projects, o) <==> !Steered(w, id, o))
    ensures var p, l := w.projects[id], Finalized(Loaded(w, id));
            Answer(w, id, o) ==
            if p.deleting then LifecycleStep(Loaded(w, id), id, o).value.r
            else if Outlived(p, o.now) then QUIET
            else if p.forceUnlock then ForceUnlockStep(l, id).r
            else if p.spec.suspend then QUIET
            else if p.spec.pinnedRevision > 0 then PinnedStep(Entered(w, id), id, o).r
            else if Steered(w, id, o) then Clamp(FlowOut(w, id, o).l.p, o.now, FlowOut(w, id, o).r)
            else PreparedOut(Entered(w, id), id, w.projects, o).r
  {
    hide Steered, FirstDrift, ReturnsEarly, PreparedOut, AutoStep, PlanStep, PinnedStep, ForceUnlockStep, DestroyStep,
         Params.AreOrders, Clamp;
    AllListed(w, id, o);
    FirstDriftIsListed(o.listing, id);
    if Follows(w.projects[id], o) {
      EarlyUnlessSteered(w, id, o);
    }
  }

  /** What any reconcile hands back to the work queue is what the rules say. */
  lemma AnswerFollowsRules(w: World, id: Key, o: Obs)
    requires ValidObs(w, id, o) && id in w.projects
    ensures Answer(w, id, o) == AnswerAfter(w, id, o)
  {
    hide Answer, ValidObs, Steered, FirstDrift, PreparedOut, PinnedStep, ForceUnlockStep, FlowOut, ReturnsEarly, Clamp,
         LifecycleStep, Params.AreOrders, AnswerOfDeleted, AnswerOfUnlocked, AnswerOfPinned, AnswerOfFollowing,
         WithinLife;
    AnswerPaths(w, id, o);
    var p := w.projects[id];
    if Steered(w, id, o) {
      SteeredFollows(w, id, o);
      FlowAnswer(w, id, o);
      FlowKeepsSpec(w, id, o);
      ClampIsLife(p, FlowOut(w, id, o).l.p, o.now, FlowOut(w, id, o).r);
    } else if p.deleting {
      DeletedAnswer(w, id, o);
    } else if Outlived(p, o.now) {
    } else if p.forceUnlock {
      UnlockAnswer(w, id);
    } else if p.spec.suspend {
    } else if p.spec.pinnedRevision > 0 {
      PinAnswer(w, id, o);
    } else {
      EarlyAnswer(w, id, o);
    }
  }

  lemma FlowKeepsSpec(w: World, id: Key, o: Obs)
    requires ValidObs(w, id, o) && id in w.projects && Steered(w, id, o)
    ensures FirstDrift(o.listing, id).Some? ==> FirstDrift(o.listing, id).value in w.jobs
    ensures FlowOut(w, id, o).l.p.spec == w.projects[id].spec
    ensures FlowOut(w, id, o).l.p.created == w.projects[id].created
  {
    hide Steered, ValidObs, FirstDrift, AutoStep, PlanStep, PhaseAfter, PullsAfter, ApprovedAfter, StatusAfter,
         JobsFollow, DeletedAfter, FinalizedAfter, AnnotatedAfter, Writes;
    FlowMatches(w, id, o);
    assert FlowOut(w, id, o).l == Flow(w, id, o);
  }

  // ----- nobody is forgotten -----

  /**
   A project that follows its spec, whose program is valid and whose parameters resolve, is looked at again within five
   seconds while a Job of its own other than a drift Job is active.
   */
  lemma ActiveJobsAreWatched(w: World, id: Key, o: Obs, j: JobId)
    requires ValidObs(w, id, o) && id in w.projects && Follows(w.projects[id], o)
    requires o.program && Resolution(w, id, o).Resolved?
    requires j.project == id && !j.kind.Drift? && IsActive(Reconcile(w, id, o).jobs, j)
    ensures 0 < Answer(w, id, o).after <= 5_000_000_000
  {
    hide Reconcile, Answer, ValidObs, Resolution, ProjectAfter, PullsAfter, Unblocked, FirstDrift, ChecksDrift,
         WindowOpen, AnswerOfApplied, ReadPlan;
    AnswerFollowsRules(w, id, o);
    ReconcileFollowsRules(w, id, o);
    if Unblocked(w, id) {
      if j in w.jobs {
        UnblockedJobs(w, id, j);
      }
    }
  }

  /** A project past preparation is looked at before its TTL ends. */
  lemma EndOfLifeIsSeen(w: World, id: Key, o: Obs)
    requires ValidObs(w, id, o) && id in w.projects && Steered(w, id, o)
    requires var p := w.projects[id]; p.spec.ttl > 0 && o.now < p.created + p.spec.ttl
    ensures var p := w.projects[id]; 0 < Answer(w, id, o).after <= p.created + p.spec.ttl - o.now
  {
    hide Answer, ValidObs, Resolution, Unblocked, FirstDrift, AnswerOfApplied, AnswerOfRunning, AnswerOfReviewed,
         MayRun;
    AnswerFollowsRules(w, id, o);
    AnswersArePositive(w, id, o);
  }

  lemma AnswersArePositive(w: World, id: Key, o: Obs)
    requires ValidObs(w, id, o) && id in w.projects
    ensures AnswerOfApplied(w, id, o).after >= 0 && AnswerOfRunning(w, id, o).after >= 0
    ensures AnswerOfReviewed(w, id, o).after >= 0
  {
    hide ValidObs, ChecksDrift, DriftEnds, Repairs, Records, Retries, GivesUp, SelfApproves, WindowOpen, Finds, Polls,
         Plans, AsksReview, FirstDrift;
  }
}
