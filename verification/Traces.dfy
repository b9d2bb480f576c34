/** Runs: reconciles of any project, in any order, between everything users, Jobs and GitHub do. */
module Traces {
  import opened Wrappers
  import opened Api
  import opened Protocol

  datatype Event =
    | Reconciled(id: Key, o: Obs)
    | Finished(job: JobId, outcome: Outcome, logs: string)  // an active Job succeeds or fails
    | Removed(job: JobId)                                   // somebody else deletes a Job
    | PlanApproved(id: Key)                                 // kubectl tofu approve: copies the pending plan hash
    | AnnotationSet(id: Key, hash: string)                  // the approved-hash annotation written by hand
    | SpecEdited(id: Key, spec: Spec)
    | UnlockRequested(id: Key, on: bool)
    | DeleteApproved(id: Key)
    | DeleteRequested(id: Key)
    | Registered(id: Key, spec: Spec, created: int)         // the user creates the project
    | Collected(id: Key)                                    // a deleted project without finalizer goes away
    | ConfigMapDropped(id: Key)                             // somebody else deletes the `-tf` ConfigMap
    | PullRequestOpened(pr: PRId)                           // by somebody else
    | PullRequestMoved(pr: PRId, state: PRState)

  const CLEAN := Status(NoPhase, "", "", 0, 0, map[], None, false, false)

  function Fresh(spec: Spec, created: int): Project {
    Project(spec, created, false, false, "", false, false, CLEAN)
  }

  ghost predicate Possible(w: World, e: Event) {
    match e
    case Reconciled(id, o) => ValidObs(w, id, o)
    case Finished(j, outcome, _) => IsActive(w.jobs, j) && outcome != Active
    case Removed(j) => true
    case PlanApproved(id) => id in w.projects && w.projects[id].status.pendingPlanHash != ""
    case AnnotationSet(id, _) => id in w.projects
    case SpecEdited(id, _) => id in w.projects
    case UnlockRequested(id, _) => id in w.projects
    case DeleteApproved(id) => id in w.projects
    case DeleteRequested(id) => id in w.projects
    case Registered(id, _, _) => id !in w.projects
    case Collected(id) => id in w.projects && w.projects[id].deleting && !w.projects[id].finalizer
    case ConfigMapDropped(id) => true
    case PullRequestOpened(pr) => pr !in w.prs
    case PullRequestMoved(pr, _) => pr in w.prs && w.prs[pr].state != Merged
  }

  function WithProject(w: World, id: Key, p: Project): World {
    w.(projects := w.projects[id := p])
  }

  ghost function Then(w: World, e: Event): World
    requires Possible(w, e)
  {
    match e
    case Reconciled(id, o) => Reconcile(w, id, o)
    case Finished(j, outcome, logs) => w.(jobs := w.jobs[j := Job(outcome, logs)])
    case Removed(j) => w.(jobs := w.jobs - {j})
    case PlanApproved(id) => WithProject(w, id, w.projects[id].(approvedHash := w.projects[id].status.pendingPlanHash))
    case AnnotationSet(id, hash) => WithProject(w, id, w.projects[id].(approvedHash := hash))
    case SpecEdited(id, spec) => WithProject(w, id, w.projects[id].(spec := spec))
    case UnlockRequested(id, on) => WithProject(w, id, w.projects[id].(forceUnlock := on))
    case DeleteApproved(id) => WithProject(w, id, w.projects[id].(approvedDelete := true))
    case DeleteRequested(id) => WithProject(w, id, w.projects[id].(deleting := true))
    case Registered(id, spec, created) => WithProject(w, id, Fresh(spec, created))
    case Collected(id) => w.(projects := w.projects - {id})
    case ConfigMapDropped(id) => w.(tf := w.tf - {id})
    case PullRequestOpened(pr) => w.(prs := w.prs[pr := PullRequest(None, Open)])
    case PullRequestMoved(pr, state) => w.(prs := w.prs[pr := w.prs[pr].(state := state)])
  }

  /** A run, and the states it goes through. */
  datatype Run = Run(states: seq<World>, events: seq<Event>)

  ghost predicate IsRun(r: Run) {
    && |r.states| == |r.events| + 1
    && forall i :: 0 <= i < |r.events| ==> IsStep(r, i)
  }

  ghost predicate IsStep(r: Run, i: nat)
    requires i < |r.events| && |r.states| == |r.events| + 1
  {
    Possible(r.states[i], r.events[i]) && r.states[i + 1] == Then(r.states[i], r.events[i])
  }

  predicate IsNew(j: JobId, before: Jobs, after: Jobs) {
    j in after && j !in before
  }

  /** The run creates this Job at step i. */
  ghost predicate CreatesAt(r: Run, i: nat, j: JobId) {
    i + 1 < |r.states| && IsNew(j, r.states[i].jobs, r.states[i + 1].jobs)
  }

  /** The project exists in all these states, so it is never registered anew between them. */
  ghost predicate Alive(r: Run, id: Key, from: nat, to: nat) {
    to < |r.states| && forall i :: from <= i <= to ==> id in r.states[i].projects
  }

  /** A Job that was not there at the start was created at some step and has been there since. */
  lemma {:induction false} JobHasOrigin(r: Run, j: JobId, n: nat) returns (c: nat)
    requires n < |r.states| && j in r.states[n].jobs && j !in r.states[0].jobs
    ensures c < n && CreatesAt(r, c, j) && forall k :: c < k <= n ==> j in r.states[k].jobs
  {
    if j in r.states[n - 1].jobs {
      c := JobHasOrigin(r, j, n - 1);
    } else {
      c := n - 1;
    }
  }
}
