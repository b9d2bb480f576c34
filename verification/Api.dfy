/** The resources the controller works on: api/v1alpha1/tofuproject_types.go, without display-only fields. */
module Api {
  import opened Wrappers
  import opened ApplyWindow
  import opened PlanLog

  /** A namespaced name. */
  datatype Key = Key(ns: string, name: string)

  /** A reference whose empty namespace means the referring object's own. */
  datatype ObjectRef = ObjectRef(name: string, ns: string) {
    function In(own: string): Key {
      Key(if ns == "" then own else ns, name)
    }
  }

  datatype KeyRef = KeyRef(name: string, key: string)

  /** An empty string means no such reference. */
  datatype ValuesFrom = ValuesFrom(configMap: string, secret: string)

  datatype ParamFrom = ParamFrom(configMap: Option<ObjectRef>, secret: Option<ObjectRef>)

  datatype ParamBinding = ParamBinding(name: string, configMapKey: Option<KeyRef>, secretKey: Option<KeyRef>)

  /** `outputs` maps an upstream output to the parameter it sets. */
  datatype Dependency = Dependency(project: ObjectRef, outputs: map<string, string>)

  /** The part of a spec that parameters come from. */
  datatype ParamSpec = ParamSpec(
    valuesFrom: seq<ValuesFrom>,
    paramFrom: seq<ParamFrom>,
    bindings: seq<ParamBinding>,
    params: map<string, string>,
    dependencies: seq<Dependency>)

  /** A hex digest, of which job and branch names carry the first eight characters. */
  type Digest = h: string | |h| >= 8 witness "00000000"

  function Prefix(h: Digest): string {
    h[..8]
  }

  datatype Spec = Spec(
    inputs: ParamSpec,
    autoApprove: bool,
    suspend: bool,
    pinnedRevision: int,              // positive: pinned
    deleteProtection: bool,
    sharedCache: bool,                // cache mode "shared"
    githubPR: bool,                   // approval mode "githubPR"
    repo: string,                     // where approval pull requests live: GitHub's address, owner and name
    maxBlastRadius: Option<int>,      // autoApproveMaxBlastRadius
    applySchedule: Option<ApplySchedule>,
    retry: Option<RetryPolicy>,
    driftInterval: Option<int>,       // Some when drift detection is enabled
    keepInSync: bool,
    ttl: int,                         // 0: none
    syncInterval: int,                // 0: none
    resourceTimeout: int)             // 0: disabled

  datatype RetryPolicy = RetryPolicy(maxRetries: int, delay: int)

  datatype Phase =
    | NoPhase | Suspended | Error | Locked | WaitingDependency | Queued | Running | Retrying | Succeeded
    | Planning | WaitingApproval | PlanRejected | ScheduledApply
    | ForceUnlocking | DriftChecking | Destroying | DestroyFailed | WaitingDeleteApproval

  datatype Status = Status(
    phase: Phase,
    lastAppliedHash: string,          // "": nothing applied
    pendingPlanHash: string,          // "": no plan pending
    pendingPR: nat,                   // 0: no pull request pending
    retryCount: int,
    outputs: map<string, string>,
    lastDriftCheck: Option<int>,
    driftDetected: bool,
    stateLocked: bool)

  /** `approvedHash`, `approvedDelete` and `forceUnlock` are annotations; an absent approved-hash reads as "". */
  datatype Project = Project(
    spec: Spec,
    created: int,
    deleting: bool,                   // a deletion timestamp is set
    finalizer: bool,
    approvedHash: string,
    approvedDelete: bool,
    forceUnlock: bool,
    status: Status)

  /** What a Job's name says beside its project: its kind and a suffix. */
  datatype Kind = Plan(prefix: string) | Apply(prefix: string) | ForceUnlock | Destroy | Drift(ts: int)

  datatype JobId = JobId(project: Key, kind: Kind)

  datatype Outcome = Active | Success | Failure

  datatype Job = Job(outcome: Outcome, logs: string)

  datatype PRState = Open | Merged | Closed

  /** GitHub numbers pull requests per repository. */
  datatype PRId = PRId(repo: string, number: nat)

  datatype PlanRef = PlanRef(project: Key, hash: string)

  /** A pull request, with the plan that the controller opened it for, or None when somebody else opened it. */
  datatype PullRequest = PullRequest(plan: Option<PlanRef>, state: PRState)
}
