/** What a reconcile pass does, as a function of the world it starts in: the API writes it
    makes, in order, the world after them, and what it returns.  One function per function of
    internal/controller/imagebuild. */
module ReconcileSpec {
  import opened ImageBuilds
  import opened Names
  import opened LastSpec
  import opened Cluster

  datatype Failure =
    | NotFound
    | AlreadyOwned
    | SecretMissing
    | SecretInvalidKey
    | BuildRunError(cause: Failure)
    | ProcessStopped

  datatype Result<+T> = Ok(value: T) | Err(error: Failure)

  /** Writes, in order; the world they lead to; the value returned. */
  datatype Plan<+R> = Plan(writes: seq<Write>, st: World, ret: R)

  function Return<R>(s: World, r: R): Plan<R> {
    Plan([], s, r)
  }

  function Do<R>(s: World, k: Key, w: Write, r: R): (p: Plan<R>)
    requires k in s.imageBuilds
    ensures k in p.st.imageBuilds
  {
    Plan([w], Apply(s, k, w), r)
  }

  function Then<Q, R>(a: Plan<Q>, b: Plan<R>): Plan<R> {
    Plan(a.writes + b.writes, b.st, b.ret)
  }

  // ---- status.go -----------------------------------------------------------

  function NotReady<R>(s: World, k: Key, reason: Reason, r: R): (p: Plan<R>)
    requires k in s.imageBuilds
    ensures k in p.st.imageBuilds
  {
    Do(s, k, SetReady(False, reason), r)
  }

  function PatchBuildRef(s: World, k: Key): (p: Plan<Result<()>>)
    requires k in s.imageBuilds
    ensures k in p.st.imageBuilds
  {
    var ib := s.imageBuilds[k];
    if ib.status.buildRef == BuildName(ib.key.name) && ib.status.observedGeneration == ib.generation
    then Return(s, Ok(()))
    else Do(s, k, SetBuildRef, Ok(()))
  }

  function Verdict(run: BuildRun): (ConditionStatus, Reason) {
    match run.succeeded
    case None => (Unknown, BuildRunPending)
    case Some(True) => (True, BuildRunSucceeded)
    case Some(False) => (False, BuildRunFailed)
    case Some(Unknown) => (Unknown, BuildRunRunning)
  }

  // ---- build.go ------------------------------------------------------------

  function OwnerOf(ib: ImageBuild): OwnerRef {
    OwnerRef("ImageBuild", ib.key.name, ib.uid)
  }

  /** Whether an object's metadata names this ImageBuild, by UID, as its controller. */
  predicate IsControlledBy(controller: Option<OwnerRef>, ib: ImageBuild) {
    controller.Some? && controller.value.uid == ib.uid
  }

  /** SetControllerReference refuses an object controlled by another referent; a referent is
      compared by kind and name. */
  predicate ControlledByOther(controller: Option<OwnerRef>, ib: ImageBuild) {
    controller.Some? && !(controller.value.kind == "ImageBuild" && controller.value.name == ib.key.name)
  }

  predicate HasRetentionParams(r: Retention) {
    r.failedLimit.Some? || r.succeededLimit.Some? || r.ttlAfterFailed.Some? || r.ttlAfterSucceeded.Some?
  }

  function ResolveRetention(ib: ImageBuild, policy: Policy): Option<Retention> {
    if ib.spec.retention.Some? then
      if HasRetentionParams(ib.spec.retention.value) then ib.spec.retention else None
    else if policy.retention.Some? && HasRetentionParams(policy.retention.value) then policy.retention
    else None
  }

  function Limit(v: Option<int>): Option<nat> {
    if v.None? then None else Some(if v.value < 0 then 0 else v.value)
  }

  function NewBuildRetention(r: Option<Retention>): Option<BuildRetention> {
    if r.None? then None
    else Some(BuildRetention(Limit(r.value.failedLimit), Limit(r.value.succeededLimit),
                             r.value.ttlAfterFailed, r.value.ttlAfterSucceeded))
  }

  function UnlessEmpty(s: string): Option<string> {
    if s == "" then None else Some(s)
  }

  function NamedSecret(s: Option<string>): Option<string> {
    if s.None? then None else UnlessEmpty(s.value)
  }

  /** The Build that a specification and a policy call for. */
  function NewBuildSpec(ib: ImageBuild, policy: Policy, strategy: string): BuildSpec {
    var src := ib.spec.source;
    BuildSpec(
      strategy,
      src.git.url,
      UnlessEmpty(src.git.revision),
      UnlessEmpty(src.contextDir),
      NamedSecret(src.git.cloneSecret),
      ib.spec.output.image,
      NamedSecret(ib.spec.output.pushSecret),
      NewBuildRetention(ResolveRetention(ib, policy)))
  }

  function EnsureBuild(s: World, k: Key, policy: Policy, strategy: string): (p: Plan<Result<()>>)
    requires k in s.imageBuilds
    ensures k in p.st.imageBuilds
  {
    var ib := s.imageBuilds[k];
    if strategy !in s.strategies then Return(s, Err(NotFound))
    else
      var owner := Some(OwnerOf(ib));
      var spec := NewBuildSpec(ib, policy, strategy);
      if BuildKey(k) !in s.builds then
        Do(s, k, PutBuild(Build(owner, map[LABEL_PARENT := ib.key.name], spec)), Ok(()))
      else
        var actual := s.builds[BuildKey(k)];
        if ControlledByOther(actual.controller, ib) then Return(s, Err(AlreadyOwned))
        else
          var desired := Build(owner, actual.labels[LABEL_PARENT := ib.key.name], spec);
          if desired == actual then Return(s, Ok(())) else Do(s, k, PutBuild(desired), Ok(()))
  }

  // ---- buildrun.go ---------------------------------------------------------

  function LastBuildRun(s: World, ib: ImageBuild): Option<BuildRun> {
    var key := RunKey(ib.key, ib.status.lastBuildRunRef);
    if ib.status.lastBuildRunRef == "" || key !in s.runs then None else Some(s.runs[key])
  }

  function NewBuildRun(ib: ImageBuild, f: Family, counter: int): BuildRun {
    var labels := map[LABEL_PARENT := ib.key.name];
    BuildRun(
      RunName(ib.key.name, f, counter),
      None,
      if f == OnCommit then labels[LABEL_REBUILD_MODE := MODE_ON_COMMIT] else labels,
      BuildName(ib.key.name),
      None,
      "")
  }

  /** The run, and whether it was created now. */
  function GetOrCreateBuildRun(s: World, k: Key, desired: BuildRun): (p: Plan<Result<(BuildRun, bool)>>)
    requires k in s.imageBuilds
    ensures k in p.st.imageBuilds
  {
    var ib, key := s.imageBuilds[k], RunKey(k, desired.name);
    if key in s.runs then
      if IsControlledBy(s.runs[key].controller, ib) then Return(s, Ok((s.runs[key], false)))
      else Return(s, Err(AlreadyOwned))
    else
      var owned := desired.(controller := Some(OwnerOf(ib)));
      Do(s, k, CreateRun(owned), Ok((owned, true)))
  }

  function EnsureBuildRun(s: World, k: Key): (p: Plan<Result<BuildRun>>)
    requires k in s.imageBuilds
    ensures k in p.st.imageBuilds
  {
    var ib := s.imageBuilds[k];
    var counter := NextCounter(ib.status.buildRunCounter);
    var g := GetOrCreateBuildRun(s, k, NewBuildRun(ib, SpecChange, counter));
    match g.ret
    case Err(f) => Then(g, Return(g.st, Err(f)))
    case Ok((run, created)) =>
      if !created then Then(g, Return(g.st, Ok(run)))
      else Then(g, Do(g.st, k, SetCounter(counter), Ok(run)))
  }

  predicate IsSpecDrifted(ib: ImageBuild) {
    if ib.status.lastBuildRunRef == "" || ANNOTATION_LAST_SPEC !in ib.annotations then true
    else
      match Unmarshal(ib.annotations[ANNOTATION_LAST_SPEC])
      case None => true
      case Some(last) =>
        || ib.spec.source != last.source
        || ib.spec.buildFile != last.buildFile
        || ib.spec.output != last.output
  }

  predicate IsSuccessful(run: BuildRun) {
    run.succeeded == Some(True)
  }

  function ComputeLatestImage(tagged: string -> bool, ib: ImageBuild, run: BuildRun): string {
    var image := ib.spec.output.image;
    if run.digest != "" then image + "@" + run.digest
    else if tagged(image) then image
    else ""
  }

  // ---- oncommit.go ---------------------------------------------------------

  predicate OnCommitMode(spec: Spec) {
    spec.rebuild == Some(MODE_ON_COMMIT)
  }

  function DesiredLabel(spec: Spec): string {
    if OnCommitMode(spec) then "true" else "false"
  }

  function EnsureOnCommitLabel(s: World, k: Key): (p: Plan<Result<()>>)
    requires k in s.imageBuilds
    ensures k in p.st.imageBuilds
  {
    var ib := s.imageBuilds[k];
    if LABEL_ON_COMMIT in ib.labels && ib.labels[LABEL_ON_COMMIT] == DesiredLabel(ib.spec)
    then Return(s, Ok(()))
    else Do(s, k, SetLabel(DesiredLabel(ib.spec)), Ok(()))
  }

  predicate HasPending(ib: ImageBuild) {
    ib.status.onCommit.Some? && ib.status.onCommit.value.pending.Some?
  }

  predicate IsRebuildEnabled(ib: ImageBuild) {
    OnCommitMode(ib.spec) && HasPending(ib)
  }

  /** How long the pending push must still wait: for the debounce window, then for the minimum
      interval since the last trigger. */
  function RemainingWait(ib: ImageBuild, now: int): (d: Option<int>)
    requires HasPending(ib)
    ensures d.Some? ==> d.value > 0
  {
    var oc := ib.status.onCommit.value;
    var received := oc.pending.value.receivedAt;
    if received != 0 && received + DEBOUNCE - now > 0 then Some(received + DEBOUNCE - now)
    else if oc.lastTriggered.None? || oc.lastTriggered.value.triggeredAt == 0 then None
    else
      var d := oc.lastTriggered.value.triggeredAt + MIN_INTERVAL - now;
      if d > 0 then Some(d) else None
  }

  predicate IsDuplicateCommit(ib: ImageBuild)
    requires HasPending(ib)
  {
    var oc := ib.status.onCommit.value;
    oc.lastTriggered.Some? && oc.lastTriggered.value.commitSHA == oc.pending.value.commitSHA
  }

  predicate IsActive(run: BuildRun) {
    run.succeeded != Some(True) && run.succeeded != Some(False)
  }

  function GetActiveBuildRun(s: World, ib: ImageBuild): Option<BuildRun> {
    var last := LastBuildRun(s, ib);
    if last.Some? && IsControlledBy(last.value.controller, ib) && IsActive(last.value) then last else None
  }

  /** What the on-commit flow tells its caller: go on to the spec-change flow, come back later,
      or report the status of this run. */
  datatype Flow = Proceed | Wait(remaining: int) | Use(run: Option<BuildRun>)

  function EnsureOnCommitBuildRun(s: World, k: Key): (p: Plan<Result<Flow>>)
    requires k in s.imageBuilds && HasPending(s.imageBuilds[k])
    ensures k in p.st.imageBuilds
  {
    var ib := s.imageBuilds[k];
    var oc := ib.status.onCommit.value;
    var counter := NextCounter(oc.triggerCounter);
    var desired := NewBuildRun(ib, OnCommit, counter);
    var g := GetOrCreateBuildRun(s, k, desired);
    match g.ret
    case Err(f) => Then(g, Return(g.st, Err(f)))
    case Ok((run, created)) =>
      if !created then Then(g, Return(g.st, Ok(Use(Some(run)))))
      else Then(g, Do(g.st, k, MarkTriggered(counter, desired.name, oc.pending.value.commitSHA), Ok(Use(Some(run)))))
  }

  function ReconcileOnCommitBuildRun(s: World, k: Key): (p: Plan<Result<Flow>>)
    requires k in s.imageBuilds
    ensures k in p.st.imageBuilds
  {
    var ib := s.imageBuilds[k];
    if !IsRebuildEnabled(ib) then Return(s, Ok(Proceed))
    else
      var wait := RemainingWait(ib, s.clock);
      if wait.Some? then Return(s, Ok(Wait(wait.value)))
      else if IsDuplicateCommit(ib) then Do(s, k, ClearPending, Ok(Proceed))
      else
        var active := GetActiveBuildRun(s, ib);
        if active.Some? then Return(s, Ok(Use(active)))
        else EnsureOnCommitBuildRun(s, k)
  }

  // ---- controller.go -------------------------------------------------------

  function ValidateWebhookSecret(s: World, k: Key): (p: Plan<Result<()>>)
    requires k in s.imageBuilds
    ensures k in p.st.imageBuilds
  {
    var ib := s.imageBuilds[k];
    match ib.spec.onCommit
    case None => Return(s, Ok(()))
    case Some(ref) =>
      var secret := Key(k.ns, ref.name);
      if secret !in s.secrets then NotReady(s, k, WebhookSecretMissing, Err(SecretMissing))
      else if ref.key !in s.secrets[secret] then NotReady(s, k, WebhookSecretInvalidKey, Err(SecretInvalidKey))
      else Return(s, Ok(()))
  }

  function SelectedStrategy(ib: ImageBuild, policy: Policy): string {
    if ib.spec.buildFile == MODE_PRESENT then policy.present else policy.absent
  }

  function ReconcileBuild(s: World, k: Key): (p: Plan<Result<()>>)
    requires k in s.imageBuilds
    ensures k in p.st.imageBuilds
  {
    match s.policy
    case None => NotReady(s, k, MissingPolicy, Err(NotFound))
    case Some(policy) =>
      var e := EnsureBuild(s, k, policy, SelectedStrategy(s.imageBuilds[k], policy));
      match e.ret
      case Err(f) => Then(e, NotReady(e.st, k, BuildFailureReason(f), Err(f)))
      case Ok(_) => Then(e, PatchBuildRef(e.st, k))
  }

  function BuildFailureReason(f: Failure): Reason {
    match f
    case NotFound => BuildStrategyNotFound
    case AlreadyOwned => BuildConflict
    case _ => BuildReconcileFailed
  }

  function ReconcileDefaultBuildRun(s: World, k: Key): (p: Plan<Result<Option<BuildRun>>>)
    requires k in s.imageBuilds
    ensures k in p.st.imageBuilds
  {
    var ib := s.imageBuilds[k];
    if !IsSpecDrifted(ib) then Return(s, Ok(LastBuildRun(s, ib)))
    else
      var e := EnsureBuildRun(s, k);
      match e.ret
      case Err(f) => Then(e, Return(e.st, Err(BuildRunError(f))))
      case Ok(run) => Then(e, Do(e.st, k, RecordSpec, Ok(Some(run))))
  }

  /** The spec-change flow, with its failures reported. */
  function FallBack(s: World, k: Key): (p: Plan<Result<Flow>>)
    requires k in s.imageBuilds
    ensures k in p.st.imageBuilds && (p.ret.Ok? ==> p.ret.value.Use?)
  {
    var d := ReconcileDefaultBuildRun(s, k);
    match d.ret
    case Ok(run) => Then(d, Return(d.st, Ok(Use(run))))
    case Err(BuildRunError(f)) =>
      Then(d, NotReady(d.st, k, if f == AlreadyOwned then BuildRunConflict else BuildRunReconcileFailed,
                       Err(BuildRunError(f))))
    case Err(f) => Then(d, Return(d.st, Err(f)))
  }

  function ReconcileBuildRun(s: World, k: Key): (p: Plan<Result<Flow>>)
    requires k in s.imageBuilds
    ensures k in p.st.imageBuilds && (p.ret.Ok? ==> !p.ret.value.Proceed?)
  {
    var o := ReconcileOnCommitBuildRun(s, k);
    match o.ret
    case Err(f) => Then(o, NotReady(o.st, k, BuildRunReconcileFailed, Err(BuildRunError(f))))
    case Ok(Wait(_)) => o
    case Ok(Use(_)) => o
    case Ok(Proceed) => Then(o, FallBack(o.st, k))
  }

  function ReportRun(s: World, k: Key, run: Option<BuildRun>): (p: Plan<()>)
    requires k in s.imageBuilds
    ensures k in p.st.imageBuilds
  {
    match run
    case None => Return(s, ())
    case Some(r) => Do(s, k, SetBuildSucceeded(r.name, Verdict(r).0, Verdict(r).1), ())
  }

  predicate IsReadyCurrent(ib: ImageBuild) {
    var ready := ib.status.conditions.ready;
    ready.Some? && ready.value == Condition(True, Reconciled, ib.generation)
  }

  function ReportReady(s: World, k: Key): (p: Plan<()>)
    requires k in s.imageBuilds
    ensures k in p.st.imageBuilds
  {
    if IsReadyCurrent(s.imageBuilds[k]) then Return(s, ()) else Do(s, k, SetReady(True, Reconciled), ())
  }

  function ReportImage(s: World, k: Key, run: Option<BuildRun>): (p: Plan<()>)
    requires k in s.imageBuilds
    ensures k in p.st.imageBuilds
  {
    if run.None? || !IsSuccessful(run.value) then Return(s, ())
    else
      var image := ComputeLatestImage(s.tagged, s.imageBuilds[k], run.value);
      if image == "" then Return(s, ()) else Do(s, k, SetLatestImage(image), ())
  }

  function ReconcileStatus(s: World, k: Key, run: Option<BuildRun>): (p: Plan<Result<bool>>)
    requires k in s.imageBuilds
    ensures k in p.st.imageBuilds && p.ret.Ok?
  {
    var a := ReportRun(s, k, run);
    var b := ReportReady(a.st, k);
    var c := ReportImage(b.st, k, run);
    var cond := c.st.imageBuilds[k].status.conditions.buildSucceeded;
    Then(Then(Then(a, b), c), Return(c.st, Ok(cond.Some? && cond.value.status == Unknown)))
  }

  /** ctrl.Result and error: the delay before the next pass (0 for none), and whether an error
      is returned. */
  datatype Outcome = Outcome(requeueAfter: int, failed: bool)

  /** The pass from the build runs on, once the Build is in place. */
  function ReconcileRuns(s: World, k: Key): (p: Plan<Outcome>)
    requires k in s.imageBuilds
    ensures k in p.st.imageBuilds
  {
    var r := ReconcileBuildRun(s, k);
    match r.ret
    case Err(BuildRunError(f)) =>
      Then(r, Return(r.st, Outcome(if f == AlreadyOwned then 0 else ERROR_REQUEUE, false)))
    case Err(_) => Then(r, Return(r.st, Outcome(0, true)))
    case Ok(Wait(d)) => Then(r, Return(r.st, Outcome(d, false)))
    case Ok(Use(run)) =>
      var t := ReconcileStatus(r.st, k, run);
      Then(Then(r, t), Return(t.st, Outcome(if t.ret == Ok(true) then POLL_INTERVAL else 0, false)))
  }

  function Reconcile(s: World, k: Key): (p: Plan<Outcome>)
    ensures k in s.imageBuilds ==> k in p.st.imageBuilds
  {
    if k !in s.imageBuilds then Return(s, Outcome(0, false))
    else
      var l := EnsureOnCommitLabel(s, k);
      var v := ValidateWebhookSecret(l.st, k);
      var lv := Then(l, v);
      if v.ret.Err? then Then(lv, Return(v.st, Outcome(ERROR_REQUEUE, false)))
      else
        var b := ReconcileBuild(v.st, k);
        var lvb := Then(lv, b);
        if b.ret.Err? then
          Then(lvb, Return(b.st, Outcome(if b.ret.error == AlreadyOwned then 0 else ERROR_REQUEUE, false)))
        else Then(lvb, ReconcileRuns(b.st, k))
  }
}
