/** Complete passes over an unchanging cluster: what one pass leaves behind, and that passes
    come to rest. */
module Convergence {
  import opened ImageBuilds
  import opened Names
  import opened LastSpec
  import opened Cluster
  import opened ReconcileSpec
  import opened Guards

  // ---- what the run stages leave alone -------------------------------------

  /** The parts of the world the label, secret and build stages look at or establish are the same. */
  ghost predicate SameSetup(s: World, k: Key, t: World)
    requires k in s.imageBuilds && k in t.imageBuilds
  {
    var a, b := s.imageBuilds[k], t.imageBuilds[k];
    && t.policy == s.policy && t.strategies == s.strategies && t.secrets == s.secrets && t.builds == s.builds
    && t.clock == s.clock && t.tagged == s.tagged
    && b.key == a.key && b.uid == a.uid && b.generation == a.generation && b.labels == a.labels && b.spec == a.spec
    && b.status.buildRef == a.status.buildRef
    && (a.status.observedGeneration == a.generation ==> b.status.observedGeneration == b.generation)
  }

  /** The writes of the run stages. */
  predicate IsRunWrite(w: Write) {
    !w.SetLabel? && !w.PutBuild? && !w.SetBuildRef?
  }

  lemma RunWriteKeepsSetup(s: World, k: Key, w: Write)
    requires k in s.imageBuilds && IsRunWrite(w)
    ensures SameSetup(s, k, Apply(s, k, w))
  {
  }

  ghost predicate RunWritesOnly(ws: seq<Write>) {
    forall w :: w in ws ==> IsRunWrite(w)
  }

  lemma OnCommitMakesRunWrites(s: World, k: Key)
    requires k in s.imageBuilds
    ensures RunWritesOnly(ReconcileOnCommitBuildRun(s, k).writes)
  {
    hide RemainingWait, RunName, Apply;
  }

  lemma FallBackMakesRunWrites(s: World, k: Key)
    requires k in s.imageBuilds
    ensures RunWritesOnly(FallBack(s, k).writes)
  {
    hide IsSpecDrifted, RunName, Apply;
  }

  lemma StatusMakesRunWrites(s: World, k: Key, run: Option<BuildRun>)
    requires k in s.imageBuilds
    ensures RunWritesOnly(ReconcileStatus(s, k, run).writes)
  {
    hide Verdict, Apply, ComputeLatestImage;
  }

  lemma RunsMakeRunWrites(s: World, k: Key)
    requires k in s.imageBuilds
    ensures RunWritesOnly(ReconcileRuns(s, k).writes)
  {
    hide ReconcileStatus, FallBack, ReconcileOnCommitBuildRun, Apply;
    var o := ReconcileOnCommitBuildRun(s, k);
    OnCommitMakesRunWrites(s, k);
    FallBackMakesRunWrites(o.st, k);
    var r := ReconcileBuildRun(s, k);
    assert RunWritesOnly(r.writes);
    if r.ret.Ok? && r.ret.value.Use? {
      StatusMakesRunWrites(r.st, k, r.ret.value.run);
    }
  }

  lemma SetupIsTransitive(s: World, k: Key, t: World, u: World)
    requires k in s.imageBuilds && k in t.imageBuilds && k in u.imageBuilds
    requires SameSetup(s, k, t) && SameSetup(t, k, u)
    ensures SameSetup(s, k, u)
  {
  }

  lemma {:induction false} RunWritesKeepSetup(s: World, k: Key, ws: seq<Write>)
    requires k in s.imageBuilds && RunWritesOnly(ws)
    ensures SameSetup(s, k, Exec(s, k, ws))
    decreases |ws|
  {
    hide Apply;
    if ws != [] {
      hide SameSetup;
      assert ws[0] in ws;
      RunWriteKeepsSetup(s, k, ws[0]);
      RunWritesKeepSetup(Apply(s, k, ws[0]), k, ws[1..]);
      SetupIsTransitive(s, k, Apply(s, k, ws[0]), Exec(s, k, ws));
    }
  }

  lemma RunsKeepSetup(s: World, k: Key)
    requires WellFormed(s, k)
    ensures SameSetup(s, k, ReconcileRuns(s, k).st)
  {
    hide ReconcileRuns, SameSetup, Exec, AllGuarded;
    RunsObey(s, k);
    RunsMakeRunWrites(s, k);
    RunWritesKeepSetup(s, k, ReconcileRuns(s, k).writes);
  }

  // ---- the setup stages ----------------------------------------------------

  /** The Build in the store is the one the specification and the policy call for. */
  ghost predicate BuildInPlace(s: World, k: Key)
    requires k in s.imageBuilds
  {
    var ib := s.imageBuilds[k];
    && s.policy.Some?
    && SelectedStrategy(ib, s.policy.value) in s.strategies
    && BuildKey(k) in s.builds
    && (var b := s.builds[BuildKey(k)];
        && b.controller == Some(OwnerOf(ib))
        && b.spec == NewBuildSpec(ib, s.policy.value, SelectedStrategy(ib, s.policy.value))
        && LABEL_PARENT in b.labels && b.labels[LABEL_PARENT] == ib.key.name)
    && ib.status.buildRef == BuildName(ib.key.name)
    && ib.status.observedGeneration == ib.generation
  }

  ghost predicate SecretInPlace(s: World, k: Key)
    requires k in s.imageBuilds
  {
    var ref := s.imageBuilds[k].spec.onCommit;
    ref.Some? ==> Key(k.ns, ref.value.name) in s.secrets && ref.value.key in s.secrets[Key(k.ns, ref.value.name)]
  }

  predicate LabelInPlace(ib: ImageBuild) {
    LABEL_ON_COMMIT in ib.labels && ib.labels[LABEL_ON_COMMIT] == DesiredLabel(ib.spec)
  }

  ghost predicate SetUp(s: World, k: Key)
    requires k in s.imageBuilds
  {
    LabelInPlace(s.imageBuilds[k]) && SecretInPlace(s, k) && BuildInPlace(s, k)
  }

  lemma LabelStage(s: World, k: Key)
    requires WellFormed(s, k)
    ensures var l := EnsureOnCommitLabel(s, k);
            && WellFormed(l.st, k) && LabelInPlace(l.st.imageBuilds[k])
            && l.st == s.(imageBuilds := l.st.imageBuilds)
            && l.st.imageBuilds[k] == s.imageBuilds[k].(labels := l.st.imageBuilds[k].labels)
  {
  }

  lemma EnsureBuildStage(s: World, k: Key, policy: Policy, strategy: string)
    requires WellFormed(s, k) && EnsureBuild(s, k, policy, strategy).ret.Ok?
    ensures var t := EnsureBuild(s, k, policy, strategy).st;
            && t == s.(builds := t.builds)
            && strategy in s.strategies
            && BuildKey(k) in t.builds
            && t.builds[BuildKey(k)].controller == Some(OwnerOf(s.imageBuilds[k]))
            && t.builds[BuildKey(k)].spec == NewBuildSpec(s.imageBuilds[k], policy, strategy)
            && LABEL_PARENT in t.builds[BuildKey(k)].labels
            && t.builds[BuildKey(k)].labels[LABEL_PARENT] == s.imageBuilds[k].key.name
  {
    hide NewBuildSpec;
  }

  lemma BuildRefStage(s: World, k: Key)
    requires WellFormed(s, k)
    ensures var t := PatchBuildRef(s, k).st;
            var a, b := s.imageBuilds[k], t.imageBuilds[k];
            && t == s.(imageBuilds := t.imageBuilds)
            && b == a.(status := b.status)
            && b.status.buildRef == BuildName(a.key.name) && b.status.observedGeneration == a.generation
            && WellFormed(t, k) && SameRuns(s, k, t)
  {
  }

  lemma BuildStage(s: World, k: Key)
    requires WellFormed(s, k) && ReconcileBuild(s, k).ret.Ok?
    ensures var b := ReconcileBuild(s, k);
            && WellFormed(b.st, k) && BuildInPlace(b.st, k)
            && b.st.imageBuilds[k].labels == s.imageBuilds[k].labels
            && b.st.imageBuilds[k].spec == s.imageBuilds[k].spec
            && b.st.secrets == s.secrets && SameRuns(s, k, b.st)
  {
    hide EnsureBuild, PatchBuildRef;
    var strategy := SelectedStrategy(s.imageBuilds[k], s.policy.value);
    var t := EnsureBuild(s, k, s.policy.value, strategy).st;
    EnsureBuildStage(s, k, s.policy.value, strategy);
    BuildRefStage(t, k);
    SameBuildSpec(s.imageBuilds[k], PatchBuildRef(t, k).st.imageBuilds[k], s.policy.value, strategy);
  }

  lemma SameBuildSpec(a: ImageBuild, b: ImageBuild, policy: Policy, strategy: string)
    requires b.spec == a.spec
    ensures NewBuildSpec(b, policy, strategy) == NewBuildSpec(a, policy, strategy)
    ensures SelectedStrategy(b, policy) == SelectedStrategy(a, policy)
  {
  }

  lemma BuildFailure(s: World, k: Key)
    requires k in s.imageBuilds && ReconcileBuild(s, k).ret.Err?
    ensures var b := ReconcileBuild(s, k);
            exists reason :: b.st == Apply(s, k, SetReady(False, reason))
  {
    hide NewBuildSpec, Apply;
  }

  /** Once set up, an ImageBuild goes straight to the run stages. */
  lemma SetUpPass(s: World, k: Key)
    requires WellFormed(s, k) && SetUp(s, k)
    ensures Reconcile(s, k).st == ReconcileRuns(s, k).st && Reconcile(s, k).ret == ReconcileRuns(s, k).ret
  {
    hide NewBuildSpec, ReconcileRuns;
    var b := s.builds[BuildKey(k)];
    assert b.labels[LABEL_PARENT := s.imageBuilds[k].key.name] == b.labels;
  }

  lemma SetUpWrites(s: World, k: Key)
    requires WellFormed(s, k) && SetUp(s, k)
    ensures Reconcile(s, k).writes == ReconcileRuns(s, k).writes
  {
    hide NewBuildSpec, ReconcileRuns;
    var b := s.builds[BuildKey(k)];
    assert b.labels[LABEL_PARENT := s.imageBuilds[k].key.name] == b.labels;
  }

  lemma SetupCarries(s: World, k: Key, t: World)
    requires k in s.imageBuilds && k in t.imageBuilds && SetUp(s, k) && SameSetup(s, k, t)
    ensures SetUp(t, k)
  {
    SameBuildSpec(s.imageBuilds[k], t.imageBuilds[k], s.policy.value,
                  SelectedStrategy(s.imageBuilds[k], s.policy.value));
  }

  /** What the run stages look at, and what they report, is the same. */
  ghost predicate SameRuns(s: World, k: Key, t: World)
    requires k in s.imageBuilds && k in t.imageBuilds
  {
    var a, b := s.imageBuilds[k], t.imageBuilds[k];
    && t.runs == s.runs && t.clock == s.clock && t.tagged == s.tagged
    && b.key == a.key && b.uid == a.uid && b.spec == a.spec && b.annotations == a.annotations
    && b.status.onCommit == a.status.onCommit
    && b.status.lastBuildRunRef == a.status.lastBuildRunRef
    && b.status.buildRunCounter == a.status.buildRunCounter
    && b.status.latestImage == a.status.latestImage && b.status.conditions == a.status.conditions
    && b.generation == a.generation
  }

  /** Nothing stands in the way of the label, secret and build stages.  They may still have work to
      do, as after every edit. */
  ghost predicate SetupStands(s: World, k: Key)
    requires k in s.imageBuilds
  {
    var ib := s.imageBuilds[k];
    && SecretInPlace(s, k)
    && s.policy.Some? && SelectedStrategy(ib, s.policy.value) in s.strategies
    && (BuildKey(k) in s.builds ==> !ControlledByOther(s.builds[BuildKey(k)].controller, ib))
  }

  /** The world after the label, secret and build stages, and the writes they make. */
  function SetUpWorld(s: World, k: Key): (t: World)
    requires k in s.imageBuilds
    ensures k in t.imageBuilds
  {
    ReconcileBuild(EnsureOnCommitLabel(s, k).st, k).st
  }

  function SetupWrites(s: World, k: Key): seq<Write>
    requires k in s.imageBuilds
  {
    var l := EnsureOnCommitLabel(s, k);
    l.writes + ReconcileBuild(l.st, k).writes
  }

  lemma BuildSucceeds(s: World, k: Key)
    requires WellFormed(s, k) && SetupStands(s, k)
    ensures ReconcileBuild(s, k).ret.Ok?
  {
    hide NewBuildSpec;
  }

  lemma LabelKeepsStanding(s: World, k: Key)
    requires WellFormed(s, k) && SetupStands(s, k)
    ensures var l := EnsureOnCommitLabel(s, k).st; SetupStands(l, k) && ValidateWebhookSecret(l, k) == Return(l, Ok(()))
  {
  }

  /** With a setup that stands, a pass is its setup writes and then the pass over the world that is
      set up. */
  lemma SetupSucceeds(s: World, k: Key)
    requires WellFormed(s, k) && SetupStands(s, k)
    ensures var mid := SetUpWorld(s, k);
            && WellFormed(mid, k) && SetUp(mid, k) && SameRuns(s, k, mid)
            && Reconcile(s, k).st == ReconcileRuns(mid, k).st == Reconcile(mid, k).st
            && Reconcile(s, k).ret == ReconcileRuns(mid, k).ret
            && Reconcile(s, k).writes == SetupWrites(s, k) + Reconcile(mid, k).writes
  {
    hide ReconcileBuild, ReconcileRuns, SetupStands, EnsureOnCommitLabel, ValidateWebhookSecret, BuildInPlace,
         SecretInPlace, LabelInPlace;
    var l := EnsureOnCommitLabel(s, k);
    LabelStage(s, k);
    LabelKeepsStanding(s, k);
    BuildSucceeds(l.st, k);
    BuildStage(l.st, k);
    var mid := SetUpWorld(s, k);
    StandsMeans(l.st, k, mid);
    assert Reconcile(s, k).writes == l.writes + [] + ReconcileBuild(l.st, k).writes + ReconcileRuns(mid, k).writes;
    SetUpWrites(mid, k);
    SetUpPass(mid, k);
  }

  lemma StandsMeans(s: World, k: Key, t: World)
    requires k in s.imageBuilds && k in t.imageBuilds && SetupStands(s, k)
    requires t.secrets == s.secrets && t.imageBuilds[k].spec == s.imageBuilds[k].spec
    ensures SecretInPlace(t, k)
    ensures t.imageBuilds[k].labels == s.imageBuilds[k].labels && LabelInPlace(s.imageBuilds[k]) ==>
              LabelInPlace(t.imageBuilds[k])
  {
  }

  lemma SetupObeys(s: World, k: Key)
    requires WellFormed(s, k) && SetupStands(s, k)
    ensures AllGuarded(s, k, SetupWrites(s, k)) && Exec(s, k, SetupWrites(s, k)) == SetUpWorld(s, k)
  {
    hide EnsureOnCommitLabel, ReconcileBuild, AllGuarded, Exec, SetupStands;
    var l := EnsureOnCommitLabel(s, k);
    LabelObeys(s, k);
    BuildObeys(l.st, k);
    GuardedAppend(s, k, l.writes, ReconcileBuild(l.st, k).writes);
  }

  /** The writes of the setup stages. */
  predicate IsSetupWrite(w: Write) {
    w.SetLabel? || w.PutBuild? || w.SetBuildRef?
  }

  ghost predicate SetupWritesOnly(ws: seq<Write>) {
    forall w :: w in ws ==> IsSetupWrite(w)
  }

  lemma SetupMakesSetupWrites(s: World, k: Key)
    requires WellFormed(s, k) && SetupStands(s, k)
    ensures SetupWritesOnly(SetupWrites(s, k))
  {
    hide Apply, NewBuildSpec, SetupStands;
    LabelKeepsStanding(s, k);
    LabelStage(s, k);
    BuildSucceeds(EnsureOnCommitLabel(s, k).st, k);
  }

  lemma SetupWriteKeepsStanding(s: World, k: Key, w: Write)
    requires WellFormed(s, k) && SetupStands(s, k) && Guard(s, k, w) && IsSetupWrite(w)
    ensures var t := Apply(s, k, w); WellFormed(t, k) && SetupStands(t, k) && SameRuns(s, k, t)
  {
    hide BuildName;
  }

  lemma {:induction false} SetupWritesKeepStanding(s: World, k: Key, ws: seq<Write>)
    requires WellFormed(s, k) && SetupStands(s, k) && AllGuarded(s, k, ws) && SetupWritesOnly(ws)
    ensures var t := Exec(s, k, ws); WellFormed(t, k) && SetupStands(t, k) && SameRuns(s, k, t)
    decreases |ws|
  {
    hide Guard, Apply, SetupStands;
    if ws != [] {
      assert ws[0] in ws;
      SetupWriteKeepsStanding(s, k, ws[0]);
      SetupWritesKeepStanding(Apply(s, k, ws[0]), k, ws[1..]);
    }
  }

  /** A pass either fails in its setup and reports that, or sets up and goes on to the runs. */
  lemma PassSplits(s: World, k: Key) returns (mid: World, failure: Option<Reason>)
    requires WellFormed(s, k)
    ensures WellFormed(mid, k) && LabelInPlace(mid.imageBuilds[k])
    ensures failure.None? ==> SetUp(mid, k) && Reconcile(s, k).st == ReconcileRuns(mid, k).st
    ensures failure.Some? ==> Reconcile(s, k).st == Apply(mid, k, SetReady(False, failure.value))
    ensures failure.Some? && ValidateWebhookSecret(mid, k).ret.Err? ==>
              Reconcile(s, k).st == ValidateWebhookSecret(mid, k).st
    ensures failure.Some? && ValidateWebhookSecret(mid, k).ret.Ok? ==>
              ReconcileBuild(mid, k).ret.Err? && Reconcile(s, k).st == ReconcileBuild(mid, k).st
    ensures SameRuns(s, k, mid)
  {
    hide ReconcileBuild, ReconcileRuns, Apply;
    var l := EnsureOnCommitLabel(s, k);
    LabelStage(s, k);
    mid, failure := l.st, None;
    var v := ValidateWebhookSecret(l.st, k);
    if v.ret.Err? {
      failure := Some(if v.ret.error == SecretMissing then WebhookSecretMissing else WebhookSecretInvalidKey);
    } else {
      var b := ReconcileBuild(v.st, k);
      if b.ret.Err? {
        BuildFailure(v.st, k);
        var reason :| b.st == Apply(v.st, k, SetReady(False, reason));
        failure := Some(reason);
      } else {
        BuildStage(v.st, k);
        mid := b.st;
      }
    }
  }

  /** Ready is truthful.  After any complete pass that leaves the ImageBuild ready, from any state:
      the Build is there, is the ImageBuild's, and is the one the present specification, policy and
      selected strategy call for; it is the one referred to; the webhook secret has its key; and
      the on-commit label says what the specification says. */
  lemma ReadyIsTruthful(s: World, k: Key)
    requires WellFormed(s, k)
    ensures var t := Reconcile(s, k).st;
            var ready := t.imageBuilds[k].status.conditions.ready;
            ready.Some? && ready.value.status == True ==> SetUp(t, k)
  {
    hide ReconcileRuns, SetUp, Reconcile;
    var mid, failure := PassSplits(s, k);
    if failure.None? {
      RunsKeepSetup(mid, k);
      SetupCarries(mid, k, ReconcileRuns(mid, k).st);
    }
  }

  // ---- coming to rest ------------------------------------------------------

  lemma NoChange(s: World, k: Key, w: Write)
    requires k in s.imageBuilds && !w.PutBuild? && !w.CreateRun?
    requires Written(s.imageBuilds[k], s.clock, w) == s.imageBuilds[k]
    ensures Apply(s, k, w) == s
  {
    assert s.imageBuilds[k := s.imageBuilds[k]] == s.imageBuilds;
  }

  /** t is s but for the ImageBuild's conditions, observed generation, last run and image. */
  ghost predicate OnlyReported(s: World, k: Key, t: World)
    requires k in s.imageBuilds && k in t.imageBuilds
  {
    var a, b := s.imageBuilds[k], t.imageBuilds[k];
    && t == s.(imageBuilds := s.imageBuilds[k := b])
    && b == a.(status := a.status.(
         observedGeneration := b.status.observedGeneration, conditions := b.status.conditions,
         latestImage := b.status.latestImage, lastBuildRunRef := b.status.lastBuildRunRef))
  }

  /** The verdict on a run is open exactly while the on-commit flow would wait for it, and good
      exactly when its image is reported. */
  lemma VerdictMeans(run: BuildRun)
    ensures Verdict(run).0 == Unknown <==> IsActive(run)
    ensures Verdict(run).0 == True <==> IsSuccessful(run)
    ensures Verdict(run).0 == False <==> Verdict(run).1 == BuildRunFailed
    ensures Verdict(run).1 == BuildRunPending <==> run.succeeded == None
  {
  }

  lemma ReportRunFacts(s: World, k: Key, run: Option<BuildRun>)
    requires k in s.imageBuilds
    ensures var t := ReportRun(s, k, run).st;
            var b := t.imageBuilds[k].status;
            && OnlyReported(s, k, t) && b.latestImage == s.imageBuilds[k].status.latestImage
            && (run.None? ==> t == s)
            && (run.Some? ==>
                  && b.observedGeneration == s.imageBuilds[k].generation
                  && b.lastBuildRunRef == run.value.name
                  && b.conditions.buildSucceeded ==
                       Some(Condition(Verdict(run.value).0, Verdict(run.value).1, s.imageBuilds[k].generation)))
  {
    hide Verdict;
    if run.None? {
      assert s.imageBuilds[k := s.imageBuilds[k]] == s.imageBuilds;
    }
  }

  lemma ReportReadyFacts(s: World, k: Key)
    requires k in s.imageBuilds
    ensures var t := ReportReady(s, k).st;
            var a, b := s.imageBuilds[k].status, t.imageBuilds[k].status;
            && OnlyReported(s, k, t)
            && b.conditions.buildSucceeded == a.conditions.buildSucceeded && b.lastBuildRunRef == a.lastBuildRunRef
            && b.latestImage == a.latestImage
            && (a.observedGeneration == s.imageBuilds[k].generation ==> b.observedGeneration == a.observedGeneration)
            && IsReadyCurrent(t.imageBuilds[k])
  {
    if IsReadyCurrent(s.imageBuilds[k]) {
      assert s.imageBuilds[k := s.imageBuilds[k]] == s.imageBuilds;
    }
  }

  lemma ReportImageFacts(s: World, k: Key, run: Option<BuildRun>)
    requires k in s.imageBuilds
    ensures var t := ReportImage(s, k, run).st;
            var a, b := s.imageBuilds[k].status, t.imageBuilds[k].status;
            && OnlyReported(s, k, t)
            && b.conditions == a.conditions && b.lastBuildRunRef == a.lastBuildRunRef
            && (run.None? || a.observedGeneration == s.imageBuilds[k].generation ==>
                  b.observedGeneration == a.observedGeneration)
            && (run.Some? && IsSuccessful(run.value) ==>
                  var image := ComputeLatestImage(s.tagged, s.imageBuilds[k], run.value);
                  if image == "" then t == s
                  else b.latestImage == image && b.observedGeneration == s.imageBuilds[k].generation)
            && (run.None? || !IsSuccessful(run.value) ==> t == s)
  {
    hide ComputeLatestImage;
    assert s.imageBuilds[k := s.imageBuilds[k]] == s.imageBuilds;
  }

  lemma OnlyReportedTransitive(s: World, k: Key, t: World, u: World)
    requires k in s.imageBuilds && k in t.imageBuilds && k in u.imageBuilds
    requires OnlyReported(s, k, t) && OnlyReported(t, k, u)
    ensures OnlyReported(s, k, u)
  {
    assert s.imageBuilds[k := t.imageBuilds[k]][k := u.imageBuilds[k]] == s.imageBuilds[k := u.imageBuilds[k]];
  }

  /** What reporting on a run leaves in the status. */
  lemma StatusFacts(s: World, k: Key, run: Option<BuildRun>)
    requires k in s.imageBuilds
    ensures var t := ReconcileStatus(s, k, run).st;
            var b := t.imageBuilds[k].status;
            && OnlyReported(s, k, t) && IsReadyCurrent(t.imageBuilds[k])
            && (run.None? ==> b.lastBuildRunRef == s.imageBuilds[k].status.lastBuildRunRef)
            && (run.None? || !IsSuccessful(run.value)
                || ComputeLatestImage(s.tagged, s.imageBuilds[k], run.value) == "" ==>
                  b.latestImage == s.imageBuilds[k].status.latestImage)
            && (run.Some? ==>
                  && b.observedGeneration == s.imageBuilds[k].generation
                  && b.lastBuildRunRef == run.value.name
                  && b.conditions.buildSucceeded ==
                       Some(Condition(Verdict(run.value).0, Verdict(run.value).1, s.imageBuilds[k].generation))
                  && (IsSuccessful(run.value) ==>
                        var image := ComputeLatestImage(s.tagged, s.imageBuilds[k], run.value);
                        image != "" ==> b.latestImage == image))
  {
    hide ReportRun, ReportReady, ReportImage, Verdict, ComputeLatestImage;
    var a := ReportRun(s, k, run);
    var b := ReportReady(a.st, k);
    ReportRunFacts(s, k, run);
    ReportReadyFacts(a.st, k);
    ReportImageFacts(b.st, k, run);
    OnlyReportedTransitive(s, k, a.st, b.st);
    OnlyReportedTransitive(s, k, b.st, ReportImage(b.st, k, run).st);
    if run.Some? {
      SameImage(s, b.st, k, run);
    }
  }

  lemma SameImage(s: World, t: World, k: Key, run: Option<BuildRun>)
    requires k in s.imageBuilds && k in t.imageBuilds && OnlyReported(s, k, t)
    requires run.Some?
    ensures ComputeLatestImage(t.tagged, t.imageBuilds[k], run.value)
         == ComputeLatestImage(s.tagged, s.imageBuilds[k], run.value)
  {
  }

  /** Reporting on the same run again changes nothing. */
  lemma StatusAgain(s: World, k: Key, run: Option<BuildRun>)
    requires k in s.imageBuilds
    ensures var t := ReconcileStatus(s, k, run).st; ReconcileStatus(t, k, run).st == t
  {
    hide Verdict, ComputeLatestImage, IsReadyCurrent, ReconcileStatus, Apply;
    var t := ReconcileStatus(s, k, run).st;
    StatusFacts(s, k, run);
    if run.Some? {
      SameImage(s, t, k, run);
      NoChange(t, k, SetBuildSucceeded(run.value.name, Verdict(run.value).0, Verdict(run.value).1));
      var image := ComputeLatestImage(t.tagged, t.imageBuilds[k], run.value);
      if IsSuccessful(run.value) && image != "" {
        NoChange(t, k, SetLatestImage(image));
      }
    }
    StatusParts(t, k, run);
  }

  lemma StatusParts(t: World, k: Key, run: Option<BuildRun>)
    requires k in t.imageBuilds && IsReadyCurrent(t.imageBuilds[k])
    requires ReportRun(t, k, run).st == t && ReportImage(t, k, run).st == t
    ensures ReconcileStatus(t, k, run).st == t
  {
    hide ReportRun, ReportImage;
  }

  lemma GetOrCreateFacts(s: World, k: Key, desired: BuildRun)
    requires WellFormed(s, k)
    ensures var g := GetOrCreateBuildRun(s, k, desired);
            && WellFormed(g.st, k) && g.st.imageBuilds == s.imageBuilds && g.st.clock == s.clock
            && (g.ret.Err? ==> g.st == s && g.ret.error == AlreadyOwned)
            && (g.ret.Ok? ==> g.ret.value.0.name == desired.name && Stored(g.st, k, g.ret.value.0))
  {
  }

  lemma EnsureBuildRunFacts(s: World, k: Key)
    requires WellFormed(s, k)
    ensures var e := EnsureBuildRun(s, k);
            var a, b := s.imageBuilds[k], e.st.imageBuilds[k];
            && WellFormed(e.st, k) && e.st.clock == s.clock
            && b.status.onCommit == a.status.onCommit && b.spec == a.spec && b.annotations == a.annotations
            && (e.ret.Err? ==> e.st == s && e.ret.error == AlreadyOwned)
            && (e.ret.Ok? ==> e.ret.value.name != "" && Stored(e.st, k, e.ret.value))
  {
    hide GetOrCreateBuildRun, FormatInt;
    var ib := s.imageBuilds[k];
    GetOrCreateFacts(s, k, NewBuildRun(ib, SpecChange, NextCounter(ib.status.buildRunCounter)));
  }

  /** The spec-change flow either yields a run it can find again without drift, or fails on a
      name somebody else holds, having done nothing. */
  lemma DefaultFacts(s: World, k: Key)
    requires WellFormed(s, k)
    ensures var d := ReconcileDefaultBuildRun(s, k);
            var a, b := s.imageBuilds[k], d.st.imageBuilds[k];
            && b.status.onCommit == a.status.onCommit && b.spec == a.spec && b.key == k && d.st.clock == s.clock
            && WellFormed(d.st, k)
            && (d.ret.Err? ==>
                  && d.st == s && d.ret == Err(BuildRunError(AlreadyOwned)))
            && (d.ret.Ok? && IsSpecDrifted(a) ==>
                  && d.ret.value.Some? && d.ret.value.value.name != "" && Stored(d.st, k, d.ret.value.value)
                  && ANNOTATION_LAST_SPEC in b.annotations
                  && b.annotations[ANNOTATION_LAST_SPEC] == Marshal(b.spec.Inputs()))
            && (!IsSpecDrifted(a) ==> d.st == s && d.ret == Ok(LastBuildRun(s, a)))
  {
    hide IsSpecDrifted, Marshal, EnsureBuildRun;
    EnsureBuildRunFacts(s, k);
  }

  /** With inputs on record and a run reported on, there is drift exactly when the specification
      now has other inputs. */
  lemma DriftIsExact(ib: ImageBuild, recorded: BuildInputs)
    requires ANNOTATION_LAST_SPEC in ib.annotations && ib.annotations[ANNOTATION_LAST_SPEC] == Marshal(recorded)
    requires ib.status.lastBuildRunRef != ""
    ensures IsSpecDrifted(ib) <==> ib.spec.Inputs() != recorded
  {
    hide Marshal, Unmarshal;
    MarshalRoundTrip(recorded);
  }

  /** Any time after its inputs were recorded, whatever has become of the rest of it, an ImageBuild
      has drifted exactly when its source, build file or output differ from then; an edit of how it
      is rebuilt, of its webhook secret or of its retention is no drift. */
  lemma OnlyInputsDrift(ib: ImageBuild, now: int, later: ImageBuild)
    requires later.annotations == Written(ib, now, RecordSpec).annotations && later.status.lastBuildRunRef != ""
    ensures IsSpecDrifted(later) <==>
              || later.spec.source != ib.spec.source
              || later.spec.buildFile != ib.spec.buildFile
              || later.spec.output != ib.spec.output
    ensures forall rebuild, onCommit, retention ::
              later.spec == ib.spec.(rebuild := rebuild, onCommit := onCommit, retention := retention) ==>
                !IsSpecDrifted(later)
  {
    hide Marshal, IsSpecDrifted;
    DriftIsExact(later, ib.spec.Inputs());
  }

  /** After the spec-change flow and its report, the flow finds the same run, without drift. */
  lemma DefaultAgain(s: World, k: Key)
    requires WellFormed(s, k) && ReconcileDefaultBuildRun(s, k).ret.Ok?
    ensures var d := ReconcileDefaultBuildRun(s, k);
            var t := ReconcileStatus(d.st, k, d.ret.value).st;
            ReconcileDefaultBuildRun(t, k) == Plan([], t, Ok(d.ret.value))
  {
    hide ReconcileStatus, Marshal, Unmarshal, IsReadyCurrent, ComputeLatestImage, Verdict;
    var d := ReconcileDefaultBuildRun(s, k);
    var t := ReconcileStatus(d.st, k, d.ret.value).st;
    assert d.ret.Ok? && WellFormed(d.st, k) by {
      DefaultFacts(s, k);
    }
    StatusFacts(d.st, k, d.ret.value);
    hide ReconcileDefaultBuildRun;
    DefaultFacts(s, k);
    var ib := t.imageBuilds[k];
    if IsSpecDrifted(s.imageBuilds[k]) {
      DriftIsExact(ib, ib.spec.Inputs());
    } else {
      SameDrift(s.imageBuilds[k], ib);
    }
    NoDriftFlow(t, k);
  }

  lemma SameDrift(a: ImageBuild, b: ImageBuild)
    requires b.spec == a.spec && b.annotations == a.annotations
    requires a.status.lastBuildRunRef == b.status.lastBuildRunRef
    ensures IsSpecDrifted(a) == IsSpecDrifted(b)
  {
  }

  lemma NoDriftFlow(t: World, k: Key)
    requires WellFormed(t, k) && !IsSpecDrifted(t.imageBuilds[k])
    ensures ReconcileDefaultBuildRun(t, k) == Plan([], t, Ok(LastBuildRun(t, t.imageBuilds[k])))
  {
  }

  lemma FlowOfUse(t: World, k: Key, run: Option<BuildRun>)
    requires k in t.imageBuilds
    requires ReconcileBuildRun(t, k).st == t && ReconcileBuildRun(t, k).ret == Ok(Use(run))
    ensures ReconcileRuns(t, k).st == ReconcileStatus(t, k, run).st
  {
    hide ReconcileBuildRun, ReconcileStatus;
  }

  lemma FlowOfFailure(t: World, k: Key, f: Failure)
    requires k in t.imageBuilds && ReconcileBuildRun(t, k).ret == Err(BuildRunError(f))
    ensures ReconcileRuns(t, k).st == ReconcileBuildRun(t, k).st
  {
    hide ReconcileBuildRun, ReconcileStatus;
  }

  /** With nothing pending, one pass comes to rest. */
  lemma SpecChangeRests(s: World, k: Key)
    requires WellFormed(s, k) && !IsRebuildEnabled(s.imageBuilds[k])
    ensures var t := ReconcileRuns(s, k).st; ReconcileRuns(t, k).st == t
  {
    hide ReconcileDefaultBuildRun, ReconcileStatus, IsSpecDrifted, IsReadyCurrent;
    var d := ReconcileDefaultBuildRun(s, k);
    var t := ReconcileRuns(s, k).st;
    DefaultFacts(s, k);
    if d.ret.Ok? {
      var run := d.ret.value;
      assert t == ReconcileStatus(d.st, k, run).st;
      DefaultAgain(s, k);
      StatusFacts(d.st, k, run);
      FlowOfUse(t, k, run);
      StatusAgain(d.st, k, run);
    } else {
      DefaultFailsAgain(s, k, BuildRunConflict);
      FlowOfFailure(t, k, AlreadyOwned);
    }
  }

  lemma DefaultFailsAgain(s: World, k: Key, reason: Reason)
    requires WellFormed(s, k) && ReconcileDefaultBuildRun(s, k).ret.Err?
    ensures var t := Apply(s, k, SetReady(False, reason));
            && ReconcileDefaultBuildRun(t, k).ret == Err(BuildRunError(AlreadyOwned))
            && ReconcileDefaultBuildRun(t, k).st == t
            && Apply(t, k, SetReady(False, reason)) == t
  {
    hide IsSpecDrifted, FormatInt;
    var t := Apply(s, k, SetReady(False, reason));
    SameDrift(s.imageBuilds[k], t.imageBuilds[k]);
    NoChange(t, k, SetReady(False, reason));
  }

  /** The on-commit flow is about to create a run. */
  predicate WouldTrigger(s: World, ib: ImageBuild) {
    && IsDue(s, ib)
    && !IsDuplicateCommit(ib)
    && GetActiveBuildRun(s, ib) == None
    && RunKey(ib.key, NextName(ib, OnCommit)) !in s.runs
  }

  /** The on-commit flow looks only at the on-commit status, the specification, the clock and the runs. */
  lemma SameDue(s: World, k: Key, t: World)
    requires k in s.imageBuilds && k in t.imageBuilds
    requires var a, b := s.imageBuilds[k], t.imageBuilds[k];
             b.status.onCommit == a.status.onCommit && b.spec == a.spec && t.clock == s.clock
    ensures IsDue(s, s.imageBuilds[k]) == IsDue(t, t.imageBuilds[k])
    ensures IsDue(s, s.imageBuilds[k]) ==> IsDuplicateCommit(s.imageBuilds[k]) == IsDuplicateCommit(t.imageBuilds[k])
  {
  }

  lemma ActiveRests(s: World, k: Key)
    requires WellFormed(s, k)
    requires var ib := s.imageBuilds[k]; IsDue(s, ib) && !IsDuplicateCommit(ib) && GetActiveBuildRun(s, ib).Some?
    ensures var t := ReconcileRuns(s, k).st; ReconcileRuns(t, k).st == t
  {
    hide ReconcileStatus, RemainingWait, IsReadyCurrent;
    var run := GetActiveBuildRun(s, s.imageBuilds[k]);
    FlowOfUse(s, k, run);
    var t := ReconcileStatus(s, k, run).st;
    StatusFacts(s, k, run);
    SameDue(s, k, t);
    assert GetActiveBuildRun(t, t.imageBuilds[k]) == run;
    FlowOfUse(t, k, run);
    StatusAgain(s, k, run);
  }

  lemma ExistingRests(s: World, k: Key)
    requires WellFormed(s, k)
    requires var ib := s.imageBuilds[k];
             IsDue(s, ib) && !IsDuplicateCommit(ib) && GetActiveBuildRun(s, ib) == None && !WouldTrigger(s, ib)
    requires EnsureOnCommitBuildRun(s, k).ret.Ok?
    ensures var t := ReconcileRuns(s, k).st; ReconcileRuns(t, k).st == t
  {
    hide ReconcileStatus, RemainingWait, IsReadyCurrent, FormatInt;
    var ib := s.imageBuilds[k];
    var name := RunName(ib.key.name, OnCommit, NextCounter(ib.status.onCommit.value.triggerCounter));
    var run := Some(s.runs[RunKey(k, name)]);
    assert EnsureOnCommitBuildRun(s, k) == Plan([], s, Ok(Use(run)));
    FlowOfUse(s, k, run);
    var t := ReconcileStatus(s, k, run).st;
    StatusFacts(s, k, run);
    SameDue(s, k, t);
    assert LastBuildRun(t, t.imageBuilds[k]) == run;
    assert ReconcileOnCommitBuildRun(t, k) == Plan([], t, Ok(Use(run)));
    FlowOfUse(t, k, run);
    StatusAgain(s, k, run);
  }

  lemma ConflictRests(s: World, k: Key)
    requires WellFormed(s, k)
    requires var ib := s.imageBuilds[k];
             IsDue(s, ib) && !IsDuplicateCommit(ib) && GetActiveBuildRun(s, ib) == None
    requires EnsureOnCommitBuildRun(s, k).ret.Err?
    ensures var t := ReconcileRuns(s, k).st; ReconcileRuns(t, k).st == t
  {
    hide ReconcileStatus, RemainingWait, FormatInt;
    FlowOfFailure(s, k, AlreadyOwned);
    var t := Apply(s, k, SetReady(False, BuildRunReconcileFailed));
    assert ReconcileRuns(s, k).st == t;
    SameDue(s, k, t);
    assert GetActiveBuildRun(t, t.imageBuilds[k]) == None;
    assert EnsureOnCommitBuildRun(t, k).ret == Err(AlreadyOwned) && EnsureOnCommitBuildRun(t, k).st == t;
    FlowOfFailure(t, k, AlreadyOwned);
    NoChange(t, k, SetReady(False, BuildRunReconcileFailed));
  }

  lemma DuplicateRests(s: World, k: Key)
    requires WellFormed(s, k) && IsDue(s, s.imageBuilds[k]) && IsDuplicateCommit(s.imageBuilds[k])
    ensures var t := ReconcileRuns(s, k).st; ReconcileRuns(t, k).st == t
  {
    hide ReconcileStatus, RemainingWait, FallBack;
    var m := Apply(s, k, ClearPending);
    WriteKeepsWellFormed(s, k, ClearPending);
    assert !IsRebuildEnabled(m.imageBuilds[k]);
    assert ReconcileRuns(s, k).st == ReconcileRuns(m, k).st;
    SpecChangeRests(m, k);
  }

  /** Unless it creates an on-commit run, one pass through the run stages comes to rest. */
  lemma RunsRest(s: World, k: Key)
    requires WellFormed(s, k) && !WouldTrigger(s, s.imageBuilds[k])
    ensures var t := ReconcileRuns(s, k).st; ReconcileRuns(t, k).st == t
  {
    hide ReconcileRuns, IsSpecDrifted, RemainingWait, FormatInt;
    var ib := s.imageBuilds[k];
    if !IsRebuildEnabled(ib) {
      SpecChangeRests(s, k);
    } else if !IsDue(s, ib) {
      WaitRests(s, k);
    } else if IsDuplicateCommit(ib) {
      DuplicateRests(s, k);
    } else if GetActiveBuildRun(s, ib).Some? {
      ActiveRests(s, k);
    } else if EnsureOnCommitBuildRun(s, k).ret.Ok? {
      ExistingRests(s, k);
    } else {
      ConflictRests(s, k);
    }
  }

  lemma WaitRests(s: World, k: Key)
    requires k in s.imageBuilds && IsRebuildEnabled(s.imageBuilds[k]) && !IsDue(s, s.imageBuilds[k])
    ensures ReconcileRuns(s, k).st == s
  {
    hide ReconcileStatus, FallBack;
  }

  /** A pass that creates an on-commit run leaves nothing pending. */
  lemma TriggerConsumes(s: World, k: Key)
    requires WellFormed(s, k) && WouldTrigger(s, s.imageBuilds[k])
    ensures var t := ReconcileRuns(s, k).st; !HasPending(t.imageBuilds[k]) && WellFormed(t, k)
  {
    hide ReconcileStatus, RemainingWait, RunName, IsReadyCurrent, Verdict, ComputeLatestImage;
    var e := EnsureOnCommitBuildRun(s, k);
    EnsureOnCommitObeys(s, k);
    assert ReconcileBuildRun(s, k) == e;
    assert !HasPending(e.st.imageBuilds[k]);
    StatusFacts(e.st, k, e.ret.value.run);
  }

  // ---- whole passes --------------------------------------------------------

  lemma NotReadyAgain(s: World, k: Key, reason: Reason)
    requires k in s.imageBuilds
    ensures var t := Apply(s, k, SetReady(False, reason)); Apply(t, k, SetReady(False, reason)) == t
  {
    NoChange(Apply(s, k, SetReady(False, reason)), k, SetReady(False, reason));
  }

  lemma SecretFailureRests(s: World, k: Key)
    requires WellFormed(s, k) && LabelInPlace(s.imageBuilds[k]) && ValidateWebhookSecret(s, k).ret.Err?
    ensures var t := ValidateWebhookSecret(s, k).st; Reconcile(t, k).st == t
  {
    hide ReconcileBuild, ReconcileRuns;
    NotReadyAgain(s, k, WebhookSecretMissing);
    NotReadyAgain(s, k, WebhookSecretInvalidKey);
  }

  lemma EnsureBuildFailsAgain(s: World, k: Key, policy: Policy, strategy: string, t: World)
    requires k in s.imageBuilds && k in t.imageBuilds && EnsureBuild(s, k, policy, strategy).ret.Err?
    requires t.strategies == s.strategies && t.builds == s.builds && t.imageBuilds[k].key == s.imageBuilds[k].key
    ensures EnsureBuild(s, k, policy, strategy).st == s
    ensures EnsureBuild(t, k, policy, strategy) == Plan([], t, EnsureBuild(s, k, policy, strategy).ret)
  {
    hide NewBuildSpec;
  }

  lemma BuildFailsAgain(s: World, k: Key)
    requires WellFormed(s, k) && ReconcileBuild(s, k).ret.Err?
    ensures var t := ReconcileBuild(s, k).st;
            && ReconcileBuild(t, k).ret.Err? && ReconcileBuild(t, k).st == t
            && t.imageBuilds[k].labels == s.imageBuilds[k].labels && t.imageBuilds[k].spec == s.imageBuilds[k].spec
            && t.secrets == s.secrets
  {
    hide EnsureBuild;
    if s.policy.None? {
      NotReadyAgain(s, k, MissingPolicy);
    } else {
      var policy, strategy := s.policy.value, SelectedStrategy(s.imageBuilds[k], s.policy.value);
      var e := EnsureBuild(s, k, policy, strategy);
      var t := Apply(s, k, SetReady(False, BuildFailureReason(e.ret.error)));
      EnsureBuildFailsAgain(s, k, policy, strategy, t);
      NotReadyAgain(s, k, BuildFailureReason(e.ret.error));
      assert SelectedStrategy(t.imageBuilds[k], policy) == strategy;
    }
  }

  lemma BuildFailureRests(s: World, k: Key)
    requires WellFormed(s, k) && LabelInPlace(s.imageBuilds[k])
    requires ValidateWebhookSecret(s, k).ret.Ok? && ReconcileBuild(s, k).ret.Err?
    ensures var t := ReconcileBuild(s, k).st; Reconcile(t, k).st == t
  {
    hide ReconcileBuild, ReconcileRuns;
    BuildFailsAgain(s, k);
  }

  lemma SameTrigger(s: World, k: Key, t: World)
    requires k in s.imageBuilds && k in t.imageBuilds && SameRuns(s, k, t)
    ensures WouldTrigger(s, s.imageBuilds[k]) == WouldTrigger(t, t.imageBuilds[k])
  {
    hide FormatInt;
  }

  lemma RunsKeepWellFormed(s: World, k: Key)
    requires WellFormed(s, k)
    ensures WellFormed(ReconcileRuns(s, k).st, k)
  {
    hide ReconcileRuns, AllGuarded, Exec;
    RunsObey(s, k);
    WritesKeepWellFormed(s, k, ReconcileRuns(s, k).writes);
  }

  lemma {:induction false} WritesKeepWellFormed(s: World, k: Key, ws: seq<Write>)
    requires WellFormed(s, k)
    ensures WellFormed(Exec(s, k, ws), k)
    decreases |ws|
  {
    hide Apply;
    if ws != [] {
      WriteKeepsWellFormed(s, k, ws[0]);
      WritesKeepWellFormed(Apply(s, k, ws[0]), k, ws[1..]);
    }
  }

  lemma {:induction false} WritesKeepTime(s: World, k: Key, ws: seq<Write>)
    requires k in s.imageBuilds
    ensures Exec(s, k, ws).clock == s.clock && Exec(s, k, ws).tagged == s.tagged
    decreases |ws|
  {
    if ws != [] {
      WritesKeepTime(Apply(s, k, ws[0]), k, ws[1..]);
    }
  }

  /** Unless it creates an on-commit run, one pass from any state comes to rest. */
  lemma PassRests(s: World, k: Key)
    requires WellFormed(s, k) && !WouldTrigger(s, s.imageBuilds[k])
    ensures var t := Reconcile(s, k).st; Reconcile(t, k).st == t
  {
    hide Reconcile, ReconcileRuns, ReconcileBuild, WouldTrigger, SetUp;
    var mid, failure := PassSplits(s, k);
    if failure.None? {
      var t := ReconcileRuns(mid, k).st;
      SameTrigger(s, k, mid);
      RunsRest(mid, k);
      RunsKeepSetup(mid, k);
      RunsKeepWellFormed(mid, k);
      SetupCarries(mid, k, t);
      SetUpPass(t, k);
    } else if ValidateWebhookSecret(mid, k).ret.Err? {
      SecretFailureRests(mid, k);
    } else {
      BuildFailureRests(mid, k);
    }
  }

  lemma PassKeepsWellFormed(s: World, k: Key)
    requires WellFormed(s, k)
    ensures WellFormed(Reconcile(s, k).st, k)
  {
    hide Reconcile, AllGuarded, Exec;
    ReconcileObeys(s, k);
    WritesKeepWellFormed(s, k, Reconcile(s, k).writes);
  }

  lemma NothingToTrigger(t: World, k: Key)
    requires k in t.imageBuilds && !HasPending(t.imageBuilds[k])
    ensures !WouldTrigger(t, t.imageBuilds[k])
  {
  }

  // ---- one run a pass ------------------------------------------------------

  /** The runs after the on-commit stage, and after the spec-change stage. */
  lemma OnCommitCreates(s: World, k: Key)
    requires WellFormed(s, k)
    ensures var o := ReconcileOnCommitBuildRun(s, k);
            var ib := s.imageBuilds[k];
            if WouldTrigger(s, ib) then
              && o.st.runs.Keys == s.runs.Keys + {RunKey(k, NextName(ib, OnCommit))}
              && o.ret.Ok? && o.ret.value.Use?
            else o.st.runs == s.runs
    ensures ReconcileOnCommitBuildRun(s, k).st.imageBuilds[k].status.buildRunCounter
         == s.imageBuilds[k].status.buildRunCounter
  {
    hide RemainingWait, RunName, IsActive;
  }

  lemma EnsureBuildRunCreates(s: World, k: Key)
    requires WellFormed(s, k)
    ensures var e := EnsureBuildRun(s, k);
            var key := RunKey(k, NextName(s.imageBuilds[k], SpecChange));
            if e.ret.Ok? && key !in s.runs then e.st.runs.Keys == s.runs.Keys + {key} else e.st.runs == s.runs
  {
    hide FormatInt;
  }

  lemma FallBackCreates(s: World, k: Key)
    requires WellFormed(s, k)
    ensures var t := FallBack(s, k).st;
            var key := RunKey(k, NextName(s.imageBuilds[k], SpecChange));
            || t.runs.Keys == s.runs.Keys
            || (key !in s.runs && IsSpecDrifted(s.imageBuilds[k]) && t.runs.Keys == s.runs.Keys + {key})
  {
    hide IsSpecDrifted, RunName, Marshal, EnsureBuildRun;
    EnsureBuildRunCreates(s, k);
  }

  /** Either no run is created, or the next on-commit one, if the flow triggers, or else the next
      spec-change one. */
  ghost predicate CreatesAtMost(s: World, k: Key, t: World)
    requires k in s.imageBuilds
  {
    var ib := s.imageBuilds[k];
    || t.runs.Keys == s.runs.Keys
    || t.runs.Keys == s.runs.Keys + {RunKey(k, NextName(ib, if WouldTrigger(s, ib) then OnCommit else SpecChange))}
  }

  lemma RunsCreate(s: World, k: Key)
    requires WellFormed(s, k)
    ensures CreatesAtMost(s, k, ReconcileRuns(s, k).st)
  {
    hide Reconcile, ReconcileOnCommitBuildRun, FallBack, ReconcileStatus, WouldTrigger, SetUp, RunName, IsSpecDrifted;
    OnCommitCreates(s, k);
    var o := ReconcileOnCommitBuildRun(s, k);
    OnCommitObeys(s, k);
    FallBackCreates(o.st, k);
    var r := ReconcileBuildRun(s, k);
    if r.ret.Ok? && r.ret.value.Use? {
      StatusFacts(r.st, k, r.ret.value.run);
    }
  }

  /** A pass creates at most one BuildRun: the next on-commit one if it triggers, otherwise the
      next spec-change one. */
  lemma OneRunPerPass(s: World, k: Key)
    requires WellFormed(s, k)
    ensures CreatesAtMost(s, k, Reconcile(s, k).st)
  {
    hide Reconcile, ReconcileRuns, WouldTrigger, SetUp, RunName, IsSpecDrifted;
    var mid, failure := PassSplits(s, k);
    if failure.None? {
      SameTrigger(s, k, mid);
      RunsCreate(mid, k);
    }
  }

  /** Passes over an unchanging cluster converge, from any state: the third of three consecutive
      passes changes nothing; already the second changes nothing unless the first would trigger;
      and on the way at most one on-commit run and then one spec-change run are created. */
  lemma PassesConverge(s: World, k: Key)
    requires WellFormed(s, k)
    ensures var t := Reconcile(s, k).st;
            var u := Reconcile(t, k).st;
            && Reconcile(u, k).st == u
            && (u != t ==> WouldTrigger(s, s.imageBuilds[k]) && !WouldTrigger(t, t.imageBuilds[k]))
            && CreatesAtMost(s, k, t) && CreatesAtMost(t, k, u)
  {
    hide Reconcile, ReconcileRuns, ReconcileBuild, SetUp, IsDue, GetActiveBuildRun, WouldTrigger, CreatesAtMost;
    var t := Reconcile(s, k).st;
    PassKeepsWellFormed(s, k);
    OneRunPerPass(s, k);
    OneRunPerPass(t, k);
    if !WouldTrigger(s, s.imageBuilds[k]) {
      PassRests(s, k);
    } else {
      var mid, failure := PassSplits(s, k);
      if failure.None? {
        SameTrigger(s, k, mid);
        TriggerConsumes(mid, k);
        NothingToTrigger(t, k);
        PassRests(t, k);
      } else if ValidateWebhookSecret(mid, k).ret.Err? {
        SecretFailureRests(mid, k);
      } else {
        BuildFailureRests(mid, k);
      }
    }
  }

  /** The cluster after some consecutive passes. */
  function Passes(s: World, k: Key, n: nat): (t: World)
    requires k in s.imageBuilds
    ensures k in t.imageBuilds
  {
    if n == 0 then s else Reconcile(Passes(s, k, n - 1), k).st
  }

  lemma TwoPasses(s: World, k: Key)
    requires k in s.imageBuilds
    ensures Passes(s, k, 2) == Reconcile(Reconcile(s, k).st, k).st
  {
    hide Reconcile;
    assert Passes(s, k, 1) == Reconcile(Passes(s, k, 0), k).st;
  }

  /** However many passes there are, the cluster stays as the first two left it. */
  lemma {:induction false} PassesStayAtRest(s: World, k: Key, n: nat)
    requires WellFormed(s, k) && n >= 2
    ensures Passes(s, k, n) == Passes(s, k, 2)
  {
    hide Reconcile, WouldTrigger, CreatesAtMost;
    if n > 2 {
      PassesStayAtRest(s, k, n - 1);
      TwoPasses(s, k);
      PassesConverge(s, k);
    }
  }
}
