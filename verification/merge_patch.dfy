/** Status updates as the API server applies them: a client sends the difference between the
    status it read and the status it wants, and the server merges that difference into whatever
    the status is by then (section 2 of RFC 7396).  A list, here the conditions, is replaced
    as a whole; a nested object is merged member by member; null removes a member.  An absent
    member and the zero value of its Go field are the same thing. */
module MergePatch {
  import opened ImageBuilds

  datatype Change<+T> = Keep | Set(value: T)

  function DiffValue<T(==)>(a: T, b: T): Change<T> {
    if a == b then Keep else Set(b)
  }

  function MergeValue<T>(target: T, c: Change<T>): T {
    match c
    case Keep => target
    case Set(v) => v
  }

  /** The change to a nested object: none, its removal, or changes to its members. */
  datatype ObjectChange<+P> = KeepObject | Remove | Members(members: P)

  datatype PushMembers = PushMembers(ref: Change<string>, commitSHA: Change<string>, receivedAt: Change<int>)

  datatype TriggerMembers = TriggerMembers(name: Change<string>, commitSHA: Change<string>, triggeredAt: Change<int>)

  datatype OnCommitMembers = OnCommitMembers(
    lastReceived: ObjectChange<PushMembers>,
    pending: ObjectChange<PushMembers>,
    lastTriggered: ObjectChange<TriggerMembers>,
    triggerCounter: Change<int>)

  datatype StatusPatch = StatusPatch(
    observedGeneration: Change<int>,
    buildRef: Change<string>,
    conditions: Change<Conditions>,
    latestImage: Change<string>,
    lastBuildRunRef: Change<string>,
    buildRunCounter: Change<int>,
    onCommit: ObjectChange<OnCommitMembers>)

  const NO_PUSH := PushRecord("", "", 0)
  const NO_TRIGGER := TriggerRecord("", "", 0)
  const NO_ON_COMMIT := OnCommitStatus(None, None, None, 0)

  function OrElse<T>(o: Option<T>, empty: T): T {
    if o.Some? then o.value else empty
  }

  // ---- the client's difference ---------------------------------------------

  function DiffPush(a: Option<PushRecord>, b: Option<PushRecord>): ObjectChange<PushMembers> {
    if a == b then KeepObject
    else if b.None? then Remove
    else
      var base := OrElse(a, NO_PUSH);
      Members(PushMembers(
        DiffValue(base.ref, b.value.ref),
        DiffValue(base.commitSHA, b.value.commitSHA),
        DiffValue(base.receivedAt, b.value.receivedAt)))
  }

  function DiffTrigger(a: Option<TriggerRecord>, b: Option<TriggerRecord>): ObjectChange<TriggerMembers> {
    if a == b then KeepObject
    else if b.None? then Remove
    else
      var base := OrElse(a, NO_TRIGGER);
      Members(TriggerMembers(
        DiffValue(base.name, b.value.name),
        DiffValue(base.commitSHA, b.value.commitSHA),
        DiffValue(base.triggeredAt, b.value.triggeredAt)))
  }

  function DiffOnCommit(a: Option<OnCommitStatus>, b: Option<OnCommitStatus>): ObjectChange<OnCommitMembers> {
    if a == b then KeepObject
    else if b.None? then Remove
    else
      var base := OrElse(a, NO_ON_COMMIT);
      Members(OnCommitMembers(
        DiffPush(base.lastReceived, b.value.lastReceived),
        DiffPush(base.pending, b.value.pending),
        DiffTrigger(base.lastTriggered, b.value.lastTriggered),
        DiffValue(base.triggerCounter, b.value.triggerCounter)))
  }

  function Diff(a: Status, b: Status): StatusPatch {
    StatusPatch(
      DiffValue(a.observedGeneration, b.observedGeneration),
      DiffValue(a.buildRef, b.buildRef),
      DiffValue(a.conditions, b.conditions),
      DiffValue(a.latestImage, b.latestImage),
      DiffValue(a.lastBuildRunRef, b.lastBuildRunRef),
      DiffValue(a.buildRunCounter, b.buildRunCounter),
      DiffOnCommit(a.onCommit, b.onCommit))
  }

  // ---- the server's merge --------------------------------------------------

  function MergePush(target: Option<PushRecord>, c: ObjectChange<PushMembers>): Option<PushRecord> {
    match c
    case KeepObject => target
    case Remove => None
    case Members(m) =>
      var t := OrElse(target, NO_PUSH);
      Some(PushRecord(
        MergeValue(t.ref, m.ref),
        MergeValue(t.commitSHA, m.commitSHA),
        MergeValue(t.receivedAt, m.receivedAt)))
  }

  function MergeTrigger(target: Option<TriggerRecord>, c: ObjectChange<TriggerMembers>): Option<TriggerRecord> {
    match c
    case KeepObject => target
    case Remove => None
    case Members(m) =>
      var t := OrElse(target, NO_TRIGGER);
      Some(TriggerRecord(
        MergeValue(t.name, m.name),
        MergeValue(t.commitSHA, m.commitSHA),
        MergeValue(t.triggeredAt, m.triggeredAt)))
  }

  function MergeOnCommit(target: Option<OnCommitStatus>, c: ObjectChange<OnCommitMembers>): Option<OnCommitStatus> {
    match c
    case KeepObject => target
    case Remove => None
    case Members(m) =>
      var t := OrElse(target, NO_ON_COMMIT);
      Some(OnCommitStatus(
        MergePush(t.lastReceived, m.lastReceived),
        MergePush(t.pending, m.pending),
        MergeTrigger(t.lastTriggered, m.lastTriggered),
        MergeValue(t.triggerCounter, m.triggerCounter)))
  }

  function Merge(target: Status, p: StatusPatch): Status {
    Status(
      MergeValue(target.observedGeneration, p.observedGeneration),
      MergeValue(target.buildRef, p.buildRef),
      MergeValue(target.conditions, p.conditions),
      MergeValue(target.latestImage, p.latestImage),
      MergeValue(target.lastBuildRunRef, p.lastBuildRunRef),
      MergeValue(target.buildRunCounter, p.buildRunCounter),
      MergeOnCommit(target.onCommit, p.onCommit))
  }

  /** With no other writer in between, a patch has exactly the intended effect. */
  lemma MergeDiff(a: Status, b: Status)
    ensures Merge(a, Diff(a, b)) == b
  {
    assert MergeOnCommit(a.onCommit, DiffOnCommit(a.onCommit, b.onCommit)) == b.onCommit;
  }
}
