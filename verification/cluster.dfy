/** The cluster as the operator sees it, and the effect of each of the operator's API writes. */
module Cluster {
  import opened ImageBuilds
  import opened Names
  import opened LastSpec

  /** Everything the operator reads.  `tagged` stands for the image reference parser: it says
      which image strings carry a tag or a digest. */
  datatype World = World(
    imageBuilds: map<Key, ImageBuild>,
    builds: map<Key, Build>,
    runs: map<Key, BuildRun>,
    policy: Option<Policy>,
    strategies: set<string>,
    secrets: map<Key, map<string, string>>,
    clock: int,
    tagged: string -> bool)

  /** The API writes of one reconcile pass over an ImageBuild. */
  datatype Write =
    | SetLabel(setting: string)
    | SetReady(status: ConditionStatus, reason: Reason)
    | PutBuild(build: Build)
    | SetBuildRef
    | ClearPending
    | CreateRun(run: BuildRun)
    | MarkTriggered(counter: int, name: string, commitSHA: string)
    | SetCounter(counter: int)
    | RecordSpec
    | SetBuildSucceeded(runName: string, status: ConditionStatus, reason: Reason)
    | SetLatestImage(image: string)

  function BuildKey(k: Key): Key {
    Key(k.ns, BuildName(k.name))
  }

  function RunKey(k: Key, name: string): Key {
    Key(k.ns, name)
  }

  /** The ImageBuild after a write to it, all fields of which the write does not name unchanged. */
  function Written(ib: ImageBuild, now: int, w: Write): ImageBuild {
    var st, gen := ib.status, ib.generation;
    match w
    case SetLabel(v) =>
      ib.(labels := ib.labels[LABEL_ON_COMMIT := v])
    case SetReady(status, reason) =>
      ib.(status := st.(observedGeneration := gen,
                        conditions := st.conditions.(ready := Some(Condition(status, reason, gen)))))
    case SetBuildRef =>
      ib.(status := st.(observedGeneration := gen, buildRef := BuildName(ib.key.name)))
    case ClearPending =>
      if st.onCommit.None? then ib
      else ib.(status := st.(onCommit := Some(st.onCommit.value.(pending := None))))
    case MarkTriggered(counter, name, sha) =>
      if st.onCommit.None? then ib
      else ib.(status := st.(onCommit := Some(st.onCommit.value.(
        pending := None,
        triggerCounter := counter,
        lastTriggered := Some(TriggerRecord(name, sha, Stamp(now)))))))
    case SetCounter(counter) =>
      ib.(status := st.(buildRunCounter := counter))
    case RecordSpec =>
      ib.(annotations := ib.annotations[ANNOTATION_LAST_SPEC := Marshal(ib.spec.Inputs())])
    case SetBuildSucceeded(run, status, reason) =>
      ib.(status := st.(observedGeneration := gen, lastBuildRunRef := run,
                        conditions := st.conditions.(buildSucceeded := Some(Condition(status, reason, gen)))))
    case SetLatestImage(image) =>
      ib.(status := st.(observedGeneration := gen, latestImage := image))
    case PutBuild(_) => ib
    case CreateRun(_) => ib
  }

  function Apply(s: World, k: Key, w: Write): (s': World)
    requires k in s.imageBuilds
    ensures k in s'.imageBuilds
  {
    match w
    case PutBuild(b) => s.(builds := s.builds[BuildKey(k) := b])
    case CreateRun(r) => s.(runs := s.runs[RunKey(k, r.name) := r])
    case _ => s.(imageBuilds := s.imageBuilds[k := Written(s.imageBuilds[k], s.clock, w)])
  }

  function Exec(s: World, k: Key, ws: seq<Write>): (s': World)
    requires k in s.imageBuilds
    ensures k in s'.imageBuilds
    decreases |ws|
  {
    if ws == [] then s else Exec(Apply(s, k, ws[0]), k, ws[1..])
  }

  lemma {:induction false} ExecAppend(s: World, k: Key, a: seq<Write>, b: seq<Write>)
    requires k in s.imageBuilds
    ensures Exec(s, k, a + b) == Exec(Exec(s, k, a), k, b)
    decreases |a|
  {
    if a == [] {
      assert a + b == b;
    } else {
      assert (a + b)[0] == a[0] && (a + b)[1..] == a[1..] + b;
      ExecAppend(Apply(s, k, a[0]), k, a[1..], b);
    }
  }

  lemma ExecOne(s: World, k: Key, w: Write)
    requires k in s.imageBuilds
    ensures Exec(s, k, [w]) == Apply(s, k, w)
  {
    hide Apply;
    assert [w][1..] == [];
    assert Exec(Apply(s, k, w), k, []) == Apply(s, k, w);
  }

  /** The webhook's write: the push is recorded as received and as pending. */
  function Pushed(st: Status, e: PushRecord): Status {
    var oc := if st.onCommit.Some? then st.onCommit.value else OnCommitStatus(None, None, None, 0);
    st.(onCommit := Some(oc.(lastReceived := Some(e), pending := Some(e))))
  }

  function Deliver(s: World, k: Key, e: PushRecord): World
    requires k in s.imageBuilds
  {
    var ib := s.imageBuilds[k];
    s.(imageBuilds := s.imageBuilds[k := ib.(status := Pushed(ib.status, e))])
  }
}
