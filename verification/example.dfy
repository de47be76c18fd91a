/** A concrete cluster: an ImageBuild right after an edit of its output, from registry/one, for which
    a first run was made and reported on, to registry/two. */
module Example {
  import opened ImageBuilds
  import opened Names
  import opened LastSpec
  import opened Cluster
  import opened ReconcileSpec
  import opened Guards
  import opened Convergence

  const APP := Key("team", "app")

  const FIRST_RUN := RunName("app", SpecChange, 1)

  const POLICY := Policy("file", "no-file", None)

  const PUSH := PushRecord("refs/heads/main", "c1", SECOND)

  function WithImage(spec: Spec, image: string): Spec {
    spec.(output := spec.output.(image := image))
  }

  function BuiltSpec(rebuild: Option<string>): Spec {
    Spec(Source(SOURCE_GIT, GitSource("https://example.com/app", "main", None), ""), MODE_PRESENT, rebuild,
         Output("registry/one", None), Some(SecretKeyRef("hook", "token")), None)
  }

  /** The ImageBuild before the edit, as a pass left it that reported on the first run. */
  function Reported(rebuild: Option<string>, onCommit: Option<OnCommitStatus>, run: BuildRun): ImageBuild {
    var spec := BuiltSpec(rebuild);
    ImageBuild(
      APP, "uid", 1,
      map[LABEL_ON_COMMIT := DesiredLabel(spec)],
      map[ANNOTATION_LAST_SPEC := Marshal(spec.Inputs())],
      spec,
      Status(1, "app-build",
             Conditions(Some(Condition(True, Reconciled, 1)), Some(Condition(Verdict(run).0, Verdict(run).1, 1))),
             if IsSuccessful(run) && run.digest != "" then "registry/one" + "@" + run.digest else "",
             FIRST_RUN, 1, onCommit))
  }

  function FirstRun(succeeded: Option<ConditionStatus>, digest: string): BuildRun {
    BuildRun(FIRST_RUN, Some(OwnerRef("ImageBuild", "app", "uid")), map[LABEL_PARENT := "app"], "app-build",
             succeeded, digest)
  }

  /** The cluster after the edit: the Build and the observed generation are not in step yet. */
  function Edited(rebuild: Option<string>, onCommit: Option<OnCommitStatus>, run: BuildRun): World {
    var before := Reported(rebuild, onCommit, run);
    var ib := before.(generation := 2, spec := WithImage(before.spec, "registry/two"));
    World(map[APP := ib],
          map[BuildKey(APP) :=
            Build(Some(OwnerOf(before)), map[LABEL_PARENT := "app"], NewBuildSpec(before, POLICY, "file"))],
          map[RunKey(APP, FIRST_RUN) := run],
          Some(POLICY), {"file", "no-file"}, map[Key("team", "hook") := map["token" := "secret"]],
          60 * SECOND, _ => false)
  }

  lemma EditedStands(rebuild: Option<string>, onCommit: Option<OnCommitStatus>,
      succeeded: Option<ConditionStatus>, digest: string)
    ensures var s := Edited(rebuild, onCommit, FirstRun(succeeded, digest));
            && WellFormed(s, APP) && SetupStands(s, APP) && !SetUp(s, APP) && IsSpecDrifted(s.imageBuilds[APP])
            && FIRST_RUN != ""
  {
    hide FormatInt, Marshal, Unmarshal, Verdict;
    DriftIsExact(Edited(rebuild, onCommit, FirstRun(succeeded, digest)).imageBuilds[APP], BuiltSpec(rebuild).Inputs());
  }

  /** No other name is that of the first run. */
  lemma OtherNames(f: Family, n: int)
    requires f != SpecChange || n != 1
    ensures RunName("app", f, n) != FIRST_RUN
  {
    if RunName("app", f, n) == FIRST_RUN {
      RunNameInjective("app", f, n, "app", SpecChange, 1);
    }
  }

  /** With nothing pending, two setup writes come first: the Build and its reference. */
  lemma EditedSetup(succeeded: Option<ConditionStatus>, digest: string)
    ensures |SetupWrites(Edited(None, None, FirstRun(succeeded, digest)), APP)| == 2
  {
    hide RunName, Marshal, Verdict;
    var s := Edited(None, None, FirstRun(succeeded, digest));
    assert EnsureOnCommitLabel(s, APP).writes == [] && EnsureOnCommitLabel(s, APP).st == s;
    var e := EnsureBuild(s, APP, POLICY, "file");
    assert "registry/one"[10] != "registry/two"[10];
    assert |e.writes| == 1 && e.st.imageBuilds == s.imageBuilds;
    assert |PatchBuildRef(e.st, APP).writes| == 1;
  }
}
