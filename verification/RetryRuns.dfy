/** The bound on the Jobs of one desired state is reached: a run in which every apply fails uses up all retries. */
module RetryRuns {
  import opened Wrappers
  import opened Api
  import opened Protocol
  import opened Traces
  import opened PlainProjects
  import opened BoundedWork

  const HASH: Digest := "0123456789abcdef"
  const JOB := JobId(DEMO, Apply(HASH[..8]))

  function RetryingSpec(n: nat): Spec {
    PlainSpec(true, false, "", None, false).(retry := Some(RetryPolicy(n, 0)))
  }

  /** After k retries, with these Jobs. */
  function Demo(n: nat, k: nat, phase: Phase, jobs: Jobs): World {
    World(map[DEMO := PlainProject(RetryingSpec(n), CLEAN.(phase := phase, retryCount := k))], jobs, {DEMO}, map[])
  }

  function Idle(n: nat, k: nat, phase: Phase): World {
    Demo(n, k, phase, map[])
  }

  function Underway(n: nat, k: nat): World {
    Demo(n, k, Running, map[JOB := Job(Active, "")])
  }

  function Failed(n: nat, k: nat): World {
    Demo(n, k, Running, map[JOB := Job(Failure, "")])
  }

  lemma Starts(n: nat, k: nat, phase: Phase)
    requires phase == NoPhase || phase == Retrying
    ensures Steps(Idle(n, k, phase), Reconciled(DEMO, PlainObs(HASH, [])), Underway(n, k))
  {
    hide Reconcile, ValidObs, FirstDrift, InSync;
    PlainReconcile(Idle(n, k, phase), HASH, []);
  }

  lemma Fails(n: nat, k: nat)
    ensures Steps(Underway(n, k), Finished(JOB, Failure, ""), Failed(n, k))
  {
  }

  lemma Retries(n: nat, k: nat)
    requires k < n
    ensures Steps(Failed(n, k), Reconciled(DEMO, PlainObs(HASH, [JOB])), Idle(n, k + 1, Retrying))
  {
    hide Reconcile, ValidObs, FirstDrift, InSync, IsStateLockError;
    PlainReconcile(Failed(n, k), HASH, [JOB]);
    assert map[JOB := Job(Failure, "")] - {JOB} == map[];
  }

  // ----- the run -----

  function Extended(r: Run, e: Event, w: World): Run {
    Run(r.states + [w], r.events + [e])
  }

  function Last(r: Run): World
    requires r.states != []
  {
    r.states[|r.states| - 1]
  }

  /** The project keeps its spec and hash, and nobody else deletes its Jobs. */
  lemma Extends(r: Run, e: Event, w: World, n: nat)
    requires Steady(r, DEMO, RetryingSpec(n), HASH) && Steps(Last(r), e, w)
    requires IsSteady(w, DEMO, RetryingSpec(n)) && !e.Removed? && (e.Reconciled? ==> e.o.hash == HASH)
    ensures var s := Extended(r, e, w);
            && Steady(s, DEMO, RetryingSpec(n), HASH) && Last(s) == w && s.states[0] == r.states[0]
            && Creations(s, JOB, 0, |s.events|) ==
               Creations(r, JOB, 0, |r.events|) + One(IsNew(JOB, Last(r).jobs, w.jobs))
  {
    hide Possible, Then;
    var s := Extended(r, e, w);
    forall i | 0 <= i < |s.events|
      ensures IsStep(s, i)
    {
      if i < |r.events| {
        assert IsStep(r, i);
      }
    }
    CreationsOfPrefix(r, s, |r.events|);
  }

  lemma {:induction false} CreationsOfPrefix(r: Run, s: Run, n: nat)
    requires n < |r.states| && r.states <= s.states
    ensures Creations(s, JOB, 0, n) == Creations(r, JOB, 0, n)
  {
    if n > 0 {
      CreationsOfPrefix(r, s, n - 1);
    }
  }

  /** One more failed apply, retried. */
  lemma OnceMore(r: Run, n: nat, k: nat) returns (s: Run)
    requires k < n && Steady(r, DEMO, RetryingSpec(n), HASH) && Last(r) == Underway(n, k)
    ensures Steady(s, DEMO, RetryingSpec(n), HASH) && s.states[0] == r.states[0] && Last(s) == Underway(n, k + 1)
    ensures Creations(s, JOB, 0, |s.events|) == Creations(r, JOB, 0, |r.events|) + 1
  {
    hide Possible, Then;
    Fails(n, k);
    Extends(r, Finished(JOB, Failure, ""), Failed(n, k), n);
    s := Extended(r, Finished(JOB, Failure, ""), Failed(n, k));
    Retries(n, k);
    Extends(s, Reconciled(DEMO, PlainObs(HASH, [JOB])), Idle(n, k + 1, Retrying), n);
    s := Extended(s, Reconciled(DEMO, PlainObs(HASH, [JOB])), Idle(n, k + 1, Retrying));
    Starts(n, k + 1, Retrying);
    Extends(s, Reconciled(DEMO, PlainObs(HASH, [])), Underway(n, k + 1), n);
    s := Extended(s, Reconciled(DEMO, PlainObs(HASH, [])), Underway(n, k + 1));
  }

  lemma {:induction false} RunOfRetries(n: nat, k: nat) returns (r: Run)
    requires k <= n
    ensures Steady(r, DEMO, RetryingSpec(n), HASH) && r.states[0] == Idle(n, 0, NoPhase) && Last(r) == Underway(n, k)
    ensures Creations(r, JOB, 0, |r.events|) == k + 1
  {
    hide Possible, Then;
    if k == 0 {
      r := Run([Idle(n, 0, NoPhase)], []);
      Starts(n, 0, NoPhase);
      Extends(r, Reconciled(DEMO, PlainObs(HASH, [])), Underway(n, 0), n);
      r := Extended(r, Reconciled(DEMO, PlainObs(HASH, [])), Underway(n, 0));
    } else {
      r := RunOfRetries(n, k - 1);
      r := OnceMore(r, n, k - 1);
    }
  }

  /** For every number of retries there is a steady run that creates the apply Job once more than that. */
  lemma BoundIsReached(n: nat) returns (r: Run)
    ensures Steady(r, DEMO, RetryingSpec(n), HASH) && r.states[0].jobs == map[]
    ensures Creations(r, ApplyJob(DEMO, HASH), 0, |r.events|) == n + 1
    ensures RetriesLeft(r.states[0].projects[DEMO]) == n
  {
    r := RunOfRetries(n, n);
  }
}
