/** The ImageBuild resource and the objects it refers to, as the API server stores them.

    Times are nanoseconds since Go's zero time, so 0 is "no time". */
module ImageBuilds {

  datatype Option<+T> = None | Some(value: T)

  datatype Key = Key(ns: string, name: string)

  // ---- specification -------------------------------------------------------

  datatype GitSource = GitSource(url: string, revision: string, cloneSecret: Option<string>)

  datatype Source = Source(kind: string, git: GitSource, contextDir: string)

  datatype Output = Output(image: string, pushSecret: Option<string>)

  /** The part of a specification whose change calls for a new build. */
  datatype BuildInputs = BuildInputs(source: Source, buildFile: string, output: Output)

  datatype SecretKeyRef = SecretKeyRef(name: string, key: string)

  datatype Retention = Retention(
    failedLimit: Option<int>,
    succeededLimit: Option<int>,
    ttlAfterFailed: Option<int>,
    ttlAfterSucceeded: Option<int>)

  datatype Spec = Spec(
    source: Source,
    buildFile: string,
    rebuild: Option<string>,
    output: Output,
    onCommit: Option<SecretKeyRef>,
    retention: Option<Retention>)
  {
    function Inputs(): BuildInputs {
      BuildInputs(source, buildFile, output)
    }
  }

  // ---- status --------------------------------------------------------------

  datatype ConditionStatus = True | False | Unknown

  datatype Reason =
    | Reconciled
    | MissingPolicy
    | BuildReconcileFailed
    | BuildConflict
    | BuildStrategyNotFound
    | WebhookSecretMissing
    | WebhookSecretInvalidKey
    | BuildRunReconcileFailed
    | BuildRunConflict
    | BuildRunPending
    | BuildRunRunning
    | BuildRunSucceeded
    | BuildRunFailed

  datatype Condition = Condition(status: ConditionStatus, reason: Reason, observedGeneration: int)

  /** The condition list: at most one entry of each of the two types in use. */
  datatype Conditions = Conditions(ready: Option<Condition>, buildSucceeded: Option<Condition>)

  datatype PushRecord = PushRecord(ref: string, commitSHA: string, receivedAt: int)

  datatype TriggerRecord = TriggerRecord(name: string, commitSHA: string, triggeredAt: int)

  datatype OnCommitStatus = OnCommitStatus(
    lastReceived: Option<PushRecord>,
    pending: Option<PushRecord>,
    lastTriggered: Option<TriggerRecord>,
    triggerCounter: int)

  datatype Status = Status(
    observedGeneration: int,
    buildRef: string,
    conditions: Conditions,
    latestImage: string,
    lastBuildRunRef: string,
    buildRunCounter: int,
    onCommit: Option<OnCommitStatus>)

  // ---- objects -------------------------------------------------------------

  datatype ImageBuild = ImageBuild(
    key: Key,
    uid: string,
    generation: int,
    labels: map<string, string>,
    annotations: map<string, string>,
    spec: Spec,
    status: Status)

  datatype OwnerRef = OwnerRef(kind: string, name: string, uid: string)

  datatype BuildRetention = BuildRetention(
    failedLimit: Option<nat>,
    succeededLimit: Option<nat>,
    ttlAfterFailed: Option<int>,
    ttlAfterSucceeded: Option<int>)

  datatype BuildSpec = BuildSpec(
    strategy: string,
    url: string,
    revision: Option<string>,
    contextDir: Option<string>,
    cloneSecret: Option<string>,
    image: string,
    pushSecret: Option<string>,
    retention: Option<BuildRetention>)

  /** A Shipwright Build; `controller` is its controlling owner, if any. */
  datatype Build = Build(controller: Option<OwnerRef>, labels: map<string, string>, spec: BuildSpec)

  /** A Shipwright BuildRun; `succeeded` is its Succeeded condition, absent until reported. */
  datatype BuildRun = BuildRun(
    name: string,
    controller: Option<OwnerRef>,
    labels: map<string, string>,
    build: string,
    succeeded: Option<ConditionStatus>,
    digest: string)

  datatype Policy = Policy(present: string, absent: string, retention: Option<Retention>)

  // ---- constants -----------------------------------------------------------

  const LABEL_PARENT := "build.dana.io/parent-imagebuild"
  const LABEL_ON_COMMIT := "build.dana.io/oncommit-enabled"
  const LABEL_REBUILD_MODE := "build.dana.io/rebuild-mode"
  const ANNOTATION_LAST_SPEC := "build.dana.io/last-build-spec"

  const MODE_ON_COMMIT := "OnCommit"
  const MODE_PRESENT := "Present"
  const SOURCE_GIT := "Git"

  const SECOND := 1_000_000_000
  const DEBOUNCE := 10 * SECOND
  const MIN_INTERVAL := 30 * SECOND
  const POLL_INTERVAL := 10 * SECOND
  const ERROR_REQUEUE := 30 * SECOND

  const MAX_INT64 := 0x7FFF_FFFF_FFFF_FFFF
  const MIN_INT64 := -0x8000_0000_0000_0000

  /** A time as the API server keeps it: RFC 3339 with whole seconds. */
  function Stamp(t: int): int {
    t - t % SECOND
  }
}
