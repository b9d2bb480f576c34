/**
 Why mode and repository have to stay while a pull request is pending: two runs in which a merge approves what its pull
 request was not opened for.
 */
module ForeignMerges {
  import opened Wrappers
  import opened PlanLog
  import opened Api
  import opened Protocol
  import opened Moves
  import opened Traces
  import opened PullRequests
  import opened PlainProjects

  const HASH: Digest := "0123456789abcdef"
  const NEXT: Digest := "fedcba9876543210"
  const PLAN_JOB := JobId(DEMO, Plan(HASH[..8]))
  const NEXT_JOB := JobId(DEMO, Plan(NEXT[..8]))
  const APPLY_JOB := JobId(DEMO, Apply(HASH[..8]))
  const OURS := PRId("org/a", 7)
  const THEIRS := PRId("org/b", 7)

  /** The demo project, with a plan that awaits review in pull request 7. */
  function Awaiting(hash: string): Status {
    Status(WaitingApproval, "", hash, 7, 0, map[], None, false, false)
  }

  /** Pull request 7 is ours in one repository and a merged one of somebody else in the other. */
  function Demo(githubPR: bool, repo: string, status: Status, approvedHash: string, jobs: Jobs, ours: PRState): World {
    var p := PlainProject(PlainSpec(false, githubPR, repo, None, false), status).(approvedHash := approvedHash);
    World(map[DEMO := p], jobs, {DEMO},
          map[OURS := PullRequest(Some(PlanRef(DEMO, HASH)), ours), THEIRS := PullRequest(None, Merged)])
  }

  const PLANNED: Jobs := map[PLAN_JOB := Job(Success, "")]
  const START := Demo(true, "org/a", Awaiting(HASH), "", PLANNED, Open)

  lemma StartIsTracked()
    ensures Tracked(START, DEMO)
  {
  }

  // ----- another repository -----

  const MOVED := Demo(true, "org/b", Awaiting(HASH), "", PLANNED, Open)
  const APPROVED := Demo(true, "org/b", Awaiting(HASH).(pendingPR := 0), HASH, PLANNED, Open)
  const APPLYING := Demo(true, "org/b", Awaiting(HASH).(pendingPR := 0, phase := Running), HASH,
                         PLANNED[APPLY_JOB := Job(Active, "")], Open)

  lemma RepositoryIsEdited()
    ensures Steps(START, SpecEdited(DEMO, PlainSpec(false, true, "org/b", None, false)), MOVED)
  {
  }

  lemma TheirsApproves()
    ensures var o := PlainObs(HASH, [PLAN_JOB]); Steps(MOVED, Reconciled(DEMO, o), APPROVED)
  {
    hide Reconcile, ValidObs, FirstDrift, InSync, ApprovedStep, PlanResult;
    PlainReconcile(MOVED, HASH, [PLAN_JOB]);
  }

  lemma ApprovedIsApplied()
    ensures var o := PlainObs(HASH, [PLAN_JOB]); Steps(APPROVED, Reconciled(DEMO, o), APPLYING)
  {
    hide Reconcile, ValidObs, FirstDrift, InSync, PRStep, PlanResult, ApprovedApplyResult;
    PlainReconcile(APPROVED, HASH, [PLAN_JOB]);
  }

  /**
   The repository is edited while pull request 7 is pending, and there the number is a merged one of somebody else: two
   reconciles later the plan is applied, though its own pull request is still open.
   */
  lemma AnotherRepositoryApproves()
    ensures var e := Reconciled(DEMO, PlainObs(HASH, [PLAN_JOB]));
            var r := Run([START, MOVED, APPROVED, APPLYING],
                         [SpecEdited(DEMO, PlainSpec(false, true, "org/b", None, false)), e, e]);
            && IsRun(r) && Tracked(START, DEMO) && CreatesAt(r, 2, APPLY_JOB)
            && forall i :: 0 <= i < |r.states| ==> OURS in r.states[i].prs && r.states[i].prs[OURS].state == Open
  {
    hide Possible, Then, Tracked;
    StartIsTracked();
    RepositoryIsEdited();
    TheirsApproves();
    ApprovedIsApplied();
  }

  // ----- another mode -----

  const NEXT_RUNNING: Jobs := PLANNED[NEXT_JOB := Job(Active, "")]
  const NEXT_PLANNED: Jobs := PLANNED[NEXT_JOB := Job(Success, "")]
  const LEFT := Demo(false, "org/a", Awaiting(HASH), "", PLANNED, Open)
  const DROPPED := Demo(false, "org/a", Awaiting("").(phase := Planning), "", NEXT_RUNNING, Open)
  const ENDED := Demo(false, "org/a", Awaiting("").(phase := Planning), "", NEXT_PLANNED, Open)
  const REPLANNED := Demo(false, "org/a", Awaiting(NEXT), "", NEXT_PLANNED, Open)
  const BACK := Demo(true, "org/a", Awaiting(NEXT), "", NEXT_PLANNED, Open)
  const MERGED := Demo(true, "org/a", Awaiting(NEXT), "", NEXT_PLANNED, Merged)
  const MISTAKEN := Demo(true, "org/a", Awaiting(NEXT).(pendingPR := 0), NEXT, NEXT_PLANNED, Merged)

  lemma ModeIsLeft()
    ensures Steps(START, SpecEdited(DEMO, PlainSpec(false, false, "org/a", None, false)), LEFT)
  {
  }

  lemma StalePlanIsDropped()
    ensures var l := InStore(LEFT);
            Invalidated(l, PlainObs(NEXT, [PLAN_JOB])) == WithStatus(l, Awaiting(""))
  {
  }

  lemma NextPlanStarts()
    ensures PendingStep(WithStatus(InStore(LEFT), Awaiting("")), DEMO, PlainObs(NEXT, [PLAN_JOB])).l == InStore(DROPPED)
  {
    hide ApprovedStep, PRStep, PlanResult;
    assert NEXT[..8][0] != HASH[..8][0];
  }

  lemma StalePlanLeavesItsNumber()
    ensures var o := PlainObs(NEXT, [PLAN_JOB]); Steps(LEFT, Reconciled(DEMO, o), DROPPED)
  {
    hide Reconcile, ValidObs, FirstDrift, Invalidated, PendingStep;
    StalePlanIsDropped();
    NextPlanStarts();
    PlainReconcile(LEFT, NEXT, [PLAN_JOB]);
  }

  lemma NextPlanEnds()
    ensures Steps(DROPPED, Finished(NEXT_JOB, Success, ""), ENDED)
  {
    assert NEXT_RUNNING[NEXT_JOB := Job(Success, "")] == NEXT_PLANNED;
  }

  lemma NextPlanIsReported()
    ensures var o := PlainObs(NEXT, [PLAN_JOB, NEXT_JOB]); Steps(ENDED, Reconciled(DEMO, o), REPLANNED)
  {
    hide Reconcile, ValidObs, FirstDrift, ReadPlan;
    PlainReconcile(ENDED, NEXT, [PLAN_JOB, NEXT_JOB]);
  }

  lemma ModeIsBack()
    ensures Steps(REPLANNED, SpecEdited(DEMO, PlainSpec(false, true, "org/a", None, false)), BACK)
  {
  }

  lemma OursIsMerged()
    ensures Steps(BACK, PullRequestMoved(OURS, Merged), MERGED)
  {
  }

  lemma OldMergeApproves()
    ensures var o := PlainObs(NEXT, [PLAN_JOB, NEXT_JOB]); Steps(MERGED, Reconciled(DEMO, o), MISTAKEN)
  {
    hide Reconcile, ValidObs, FirstDrift, InSync, ApprovedStep, PlanResult;
    PlainReconcile(MERGED, NEXT, [PLAN_JOB, NEXT_JOB]);
  }

  /**
   The mode is switched off while pull request 7 is pending and on again after the next plan: the merge of the pull
   request opened for one hash approves the other.
   */
  lemma AnotherModeApproves()
    ensures var o := PlainObs(NEXT, [PLAN_JOB, NEXT_JOB]);
            var r := Run([START, LEFT, DROPPED, ENDED, REPLANNED, BACK, MERGED, MISTAKEN],
                         [SpecEdited(DEMO, PlainSpec(false, false, "org/a", None, false)),
                          Reconciled(DEMO, PlainObs(NEXT, [PLAN_JOB])),
                          Finished(NEXT_JOB, Success, ""),
                          Reconciled(DEMO, o),
                          SpecEdited(DEMO, PlainSpec(false, true, "org/a", None, false)),
                          PullRequestMoved(OURS, Merged),
                          Reconciled(DEMO, o)]);
            && IsRun(r) && Tracked(START, DEMO)
            && MISTAKEN.projects[DEMO].approvedHash == NEXT
            && MISTAKEN.prs[OURS] == PullRequest(Some(PlanRef(DEMO, HASH)), Merged)
  {
    hide Possible, Then, Tracked;
    StartIsTracked();
    ModeIsLeft();
    StalePlanLeavesItsNumber();
    NextPlanEnds();
    NextPlanIsReported();
    ModeIsBack();
    OursIsMerged();
    OldMergeApproves();
  }
}
