/** The HealthCheck custom resource: the state every other module ranges over
    (api/v1alpha1/healthcheck_types.go). */
module HealthChecks {
  datatype Option<+T> = None | Some(value: T)

  /** Instants and durations, in nanoseconds, as in Go's time package. */
  type Time = int
  const SECOND: int := 1_000_000_000

  /** Go's integer division: it truncates toward zero. */
  function Quo(a: int, b: int): (q: int)
    requires b > 0
    ensures a >= 0 ==> q * b <= a < (q + 1) * b
    ensures a <= 0 ==> (q - 1) * b < a <= q * b
  {
    if a >= 0 then a / b else -((-a) / b)
  }

  /** Unix seconds of an instant. */
  function Unix(t: Time): int {
    t / SECOND
  }

  /** What is left of an instant after it has been stored: JSON keeps whole seconds. */
  function WholeSecond(t: Time): Time {
    Unix(t) * SECOND
  }

  datatype PolicyRule = PolicyRule(
    verbs: seq<string>,
    apiGroups: seq<string>,
    resources: seq<string>,
    resourceNames: seq<string>,
    nonResourceURLs: seq<string>)

  datatype URLArtifact = URLArtifact(path: string, verifyCert: Option<bool>)

  datatype ArtifactLocation = ArtifactLocation(
    inline: Option<string>,
    file: Option<string>,
    url: Option<URLArtifact>)

  datatype ResourceObject = ResourceObject(
    ns: string,
    serviceAccount: string,
    source: ArtifactLocation)

  /** `Workflow` and `RemedyWorkflow` have the same four fields.
      A nil rule list (None) and an empty one (Some([])) are different values. */
  datatype Workflow = Workflow(
    generateName: string,
    resource: Option<ResourceObject>,
    timeout: int,
    rbacRules: Option<seq<PolicyRule>>)
  {
    predicate IsEmpty() {
      this == NO_WORKFLOW
    }
  }

  const NO_WORKFLOW := Workflow("", None, 0, None)

  datatype Spec = Spec(
    repeatAfterSec: int,
    workflow: Workflow,
    level: string,
    cron: string,
    remedyWorkflow: Workflow,
    backoffFactor: string,
    backoffMax: int,
    backoffMin: int,
    remedyRunsLimit: int,
    remedyResetInterval: int)

  /** The texts of a workflow's `phase` and of the two status lines of a HealthCheck:
      "Succeeded", "Failed", "Stopped", the two reasons for a remedy reset, or anything else. */
  datatype Phase = Unset | Passed | Failed | Stopped | ResetByPass | ResetByInterval | OtherPhase(text: string)

  datatype Status = Status(
    errorMessage: string,
    remedyErrorMessage: string,
    startedAt: Option<Time>,
    finishedAt: Option<Time>,
    lastFailedAt: Option<Time>,
    remedyStartedAt: Option<Time>,
    remedyFinishedAt: Option<Time>,
    remedyLastFailedAt: Option<Time>,
    lastFailedWorkflow: string,
    lastSuccessfulWorkflow: string,
    successCount: int,
    failedCount: int,
    remedySuccessCount: int,
    remedyFailedCount: int,
    remedyTotalRuns: int,
    totalHealthCheckRuns: int,
    status: Phase,
    remedyStatus: Phase)

  /** The status of an object nobody has run yet. */
  const NEW_STATUS := Status("", "", None, None, None, None, None, None, "", "", 0, 0, 0, 0, 0, 0, Unset, Unset)

  function StoredTime(t: Option<Time>): Option<Time> {
    match t
    case None => None
    case Some(v) => Some(WholeSecond(v))
  }

  /** A status after a trip through the API server. */
  function Stored(st: Status): Status {
    st.(startedAt := StoredTime(st.startedAt),
        finishedAt := StoredTime(st.finishedAt),
        lastFailedAt := StoredTime(st.lastFailedAt),
        remedyStartedAt := StoredTime(st.remedyStartedAt),
        remedyFinishedAt := StoredTime(st.remedyFinishedAt),
        remedyLastFailedAt := StoredTime(st.remedyLastFailedAt))
  }
}
