/** Builds and BuildRuns, field by field: what a ready ImageBuild's Build says, what the runs made from
    it are, whose Builds are left alone, and what the status reports of a run.  The definitions here
    are written out and share nothing with those the controller works by. */
module Builds {
  import opened ImageBuilds
  import opened Names
  import opened Cluster
  import opened ReconcileSpec
  import opened Guards
  import opened Safety
  import opened Convergence
  import opened Limits
  import opened Answers
  import LatestImage

  // ---- the Build a specification and a policy call for ---------------------

  /** An optional text of the Build: absent exactly if the specification's is empty. */
  ghost predicate IsText(o: Option<string>, s: string) {
    (o == None <==> s == "") && (o != None ==> o == Some(s))
  }

  /** A secret of the Build: the one named, unless its name is missing or empty. */
  ghost predicate IsSecret(o: Option<string>, given: Option<string>) {
    if given == None || given == Some("") then o == None else o == given
  }

  /** A limit is at least zero. */
  ghost predicate IsLimit(o: Option<nat>, given: Option<int>) {
    match given
    case None => o == None
    case Some(v) => o != None && o.value == if v < 0 then 0 else v
  }

  ghost predicate SaysNothing(r: Retention) {
    r == Retention(None, None, None, None)
  }

  /** The ImageBuild's own retention goes before the policy's, even if it says nothing. */
  ghost predicate IsRetention(o: Option<BuildRetention>, own: Option<Retention>, policy: Option<Retention>) {
    var given := if own != None then own else policy;
    if given == None || SaysNothing(given.value) then o == None
    else
      && o != None
      && IsLimit(o.value.failedLimit, given.value.failedLimit)
      && IsLimit(o.value.succeededLimit, given.value.succeededLimit)
      && o.value.ttlAfterFailed == given.value.ttlAfterFailed
      && o.value.ttlAfterSucceeded == given.value.ttlAfterSucceeded
  }

  ghost predicate IsCalledFor(b: Build, ib: ImageBuild, policy: Policy) {
    && b.controller == Some(OwnerRef("ImageBuild", ib.key.name, ib.uid))
    && "build.dana.io/parent-imagebuild" in b.labels && b.labels["build.dana.io/parent-imagebuild"] == ib.key.name
    && b.spec.strategy == (if ib.spec.buildFile == "Present" then policy.present else policy.absent)
    && b.spec.url == ib.spec.source.git.url
    && IsText(b.spec.revision, ib.spec.source.git.revision)
    && IsText(b.spec.contextDir, ib.spec.source.contextDir)
    && IsSecret(b.spec.cloneSecret, ib.spec.source.git.cloneSecret)
    && b.spec.image == ib.spec.output.image
    && IsSecret(b.spec.pushSecret, ib.spec.output.pushSecret)
    && IsRetention(b.spec.retention, ib.spec.retention, policy.retention)
  }

  /** The Build is there and as called for, and the status, the label and the secret are in step. */
  ghost predicate IsInStep(t: World, k: Key)
    requires k in t.imageBuilds
  {
    var ib := t.imageBuilds[k];
    var b := Key(k.ns, k.name + "-build");
    && t.policy != None && b in t.builds && IsCalledFor(t.builds[b], ib, t.policy.value)
    && !StrategyIsMissing(t, k) && !SecretIsMissing(t, k)
    && ib.status.buildRef == k.name + "-build" && ib.status.observedGeneration == ib.generation
    && "build.dana.io/oncommit-enabled" in ib.labels
    && ib.labels["build.dana.io/oncommit-enabled"] == if ib.spec.rebuild == Some("OnCommit") then "true" else "false"
  }

  lemma RetentionMeans(ib: ImageBuild, policy: Policy)
    ensures IsRetention(NewBuildRetention(ResolveRetention(ib, policy)), ib.spec.retention, policy.retention)
  {
  }

  lemma SpecMeans(b: Build, ib: ImageBuild, policy: Policy)
    requires b.controller == Some(OwnerOf(ib)) && LABEL_PARENT in b.labels && b.labels[LABEL_PARENT] == ib.key.name
    requires b.spec == NewBuildSpec(ib, policy, SelectedStrategy(ib, policy))
    ensures IsCalledFor(b, ib, policy)
  {
    hide IsRetention, NewBuildRetention, ResolveRetention;
    RetentionMeans(ib, policy);
  }

  lemma SetUpMeans(t: World, k: Key)
    requires WellFormed(t, k) && SetUp(t, k)
    ensures IsInStep(t, k)
  {
    hide NewBuildSpec, IsCalledFor;
    SpecMeans(t.builds[BuildKey(k)], t.imageBuilds[k], t.policy.value);
  }

  /** What Ready means.  After any complete pass that leaves the ImageBuild ready, from any state: the
      Build is there under the ImageBuild's name, is the ImageBuild's and says in every field what
      the present specification and policy call for; the status refers to it and has observed the
      present generation; the webhook secret has its key; and the label says whether pushes are
      wanted. */
  lemma ReadyMeans(s: World, k: Key)
    requires WellFormed(s, k)
    ensures var t := Reconcile(s, k).st;
            var ready := t.imageBuilds[k].status.conditions.ready;
            ready != None && ready.value.status == True ==> IsInStep(t, k)
  {
    hide Reconcile, SetUp, IsInStep;
    ReadyIsTruthful(s, k);
    PassKeepsWellFormed(s, k);
    if SetUp(Reconcile(s, k).st, k) {
      SetUpMeans(Reconcile(s, k).st, k);
    }
  }

  /** Ready's own generation is the present one, unless the pass had to wait: then Ready is as the
      pass found it. */
  lemma ReadyIsCurrent(s: World, k: Key)
    requires WellFormed(s, k)
    ensures var t := Reconcile(s, k).st;
            var ready := t.imageBuilds[k].status.conditions.ready;
            ready != None && ready.value.status == True ==>
              if Wanted(s, k).WaitFor? then ready == s.imageBuilds[k].status.conditions.ready
              else ready == Some(Condition(True, Reconciled, t.imageBuilds[k].generation))
  {
    hide Reconcile, Wanted, SecretIsMissing, StrategyIsMissing, BuildIsHeld, PollAfter, IsRefused, Blame;
    PassAnswers(s, k);
  }

  // ---- passes that do not get to the runs ----------------------------------

  ghost predicate NoRunIn(ws: seq<Write>) {
    forall w :: w in ws ==> !w.CreateRun?
  }

  lemma {:induction false} OtherWritesKeepRuns(s: World, k: Key, ws: seq<Write>)
    requires k in s.imageBuilds && NoRunIn(ws)
    ensures Exec(s, k, ws).runs == s.runs
    decreases |ws|
  {
    hide Written;
    if ws != [] {
      assert ws[0] in ws;
      OtherWritesKeepRuns(Apply(s, k, ws[0]), k, ws[1..]);
    }
  }

  lemma SetupMakesNoRun(s: World, k: Key)
    requires k in s.imageBuilds
    ensures NoRunIn(EnsureOnCommitLabel(s, k).writes) && NoRunIn(ValidateWebhookSecret(s, k).writes)
    ensures NoRunIn(ReconcileBuild(s, k).writes)
  {
    hide Apply, NewBuildSpec;
  }

  lemma FailingPassMakesNoRun(s: World, k: Key)
    requires WellFormed(s, k) && !SetupStands(s, k)
    ensures NoRunIn(Reconcile(s, k).writes)
  {
    hide EnsureOnCommitLabel, ValidateWebhookSecret, ReconcileBuild, ReconcileRuns, SecretIsMissing, StrategyIsMissing,
         BuildIsHeld, SetupStands, Apply;
    StandingMeans(s, k);
    LabelStageAnswers(s, k);
    var l := EnsureOnCommitLabel(s, k).st;
    SetupMakesNoRun(s, k);
    SetupMakesNoRun(l, k);
    SecretStageAnswers(l, k);
    if !SecretIsMissing(s, k) {
      BuildStageAnswers(l, k);
    }
  }

  /** A pass whose setup does not stand creates no run, however far it gets. */
  lemma FailingPassKeepsRuns(s: World, k: Key, n: nat)
    requires WellFormed(s, k)
    requires SecretIsMissing(s, k) || StrategyIsMissing(s, k) || BuildIsHeld(s, k)
    ensures Exec(s, k, Stopped(s, k, n)).runs == s.runs
  {
    hide Reconcile, Exec, SetupStands, SecretIsMissing, StrategyIsMissing, BuildIsHeld;
    StandingMeans(s, k);
    FailingPassMakesNoRun(s, k);
    OtherWritesKeepRuns(s, k, Stopped(s, k, n));
  }

  // ---- Builds of others ----------------------------------------------------

  lemma HeldMeans(controller: Option<OwnerRef>, ib: ImageBuild, k: Key)
    requires ib.key == k
    ensures ControlledByOther(controller, ib) <==> IsHeld(controller, k)
  {
  }

  lemma RespectedBuilds(s: World, k: Key, t: World, b: Key)
    requires WellFormed(s, k) && RespectsBuilds(s, s.imageBuilds[k], t)
    requires b in s.builds && IsHeld(s.builds[b].controller, k)
    ensures b in t.builds && t.builds[b] == s.builds[b]
  {
    hide ControlledByOther, IsHeld;
    HeldMeans(s.builds[b].controller, s.imageBuilds[k], k);
  }

  /** A Build whose controller is of another kind or name is left as it is, by every pass, however
      early it stops.  If it has the name of the ImageBuild's own, the pass creates no run, and a
      complete pass does not end ready. */
  lemma ForeignBuildIsLeft(s: World, k: Key, n: nat, b: Key)
    requires WellFormed(s, k) && b in s.builds
    requires s.builds[b].controller != None
    requires s.builds[b].controller.value.kind != "ImageBuild" || s.builds[b].controller.value.name != k.name
    ensures var t := Exec(s, k, Stopped(s, k, n)); b in t.builds && t.builds[b] == s.builds[b]
    ensures b == Key(k.ns, k.name + "-build") ==>
              && Exec(s, k, Stopped(s, k, n)).runs == s.runs
              && var ready := Reconcile(s, k).st.imageBuilds[k].status.conditions.ready;
                 ready != None && ready.value.status == False
  {
    hide Reconcile, Exec, Stopped, RespectsBuilds, RespectsRuns, SecretIsMissing, StrategyIsMissing, Answered, Blame;
    StoppedPassRespectsOwners(s, k, n);
    RespectedBuilds(s, k, Exec(s, k, Stopped(s, k, n)), b);
    if b == Key(k.ns, k.name + "-build") {
      FailingPassKeepsRuns(s, k, n);
      PassAnswers(s, k);
    }
  }

  // ---- the runs that are created -------------------------------------------

  /** A run of one of the two families, made from the ImageBuild's Build. */
  ghost predicate IsWellMade(run: BuildRun, ib: ImageBuild, k: Key) {
    && run.build == k.name + "-build"
    && run.controller == Some(OwnerRef("ImageBuild", k.name, ib.uid))
    && run.succeeded == None && run.digest == ""
    && "build.dana.io/parent-imagebuild" in run.labels && run.labels["build.dana.io/parent-imagebuild"] == k.name
    && if Key(k.ns, run.name) == WantedName(ib, k, OnCommit) then
         "build.dana.io/rebuild-mode" in run.labels && run.labels["build.dana.io/rebuild-mode"] == "OnCommit"
       else Key(k.ns, run.name) == WantedName(ib, k, SpecChange) && "build.dana.io/rebuild-mode" !in run.labels
  }

  ghost predicate MakesWell(ws: seq<Write>, ib: ImageBuild, k: Key) {
    forall w :: w in ws && w.CreateRun? ==> IsWellMade(w.run, ib, k)
  }

  lemma NewRunMeans(ib: ImageBuild, k: Key, f: Family)
    requires ib.key == k
    ensures var n := NextCounter(Counter(ib, f));
            IsWellMade(NewBuildRun(ib, f, n).(controller := Some(OwnerOf(ib))), ib, k)
    ensures WantedName(ib, k, OnCommit) != WantedName(ib, k, SpecChange)
  {
    hide FormatInt;
    NamesOfFamilies(ib, k);
  }

  lemma NamesOfFamilies(ib: ImageBuild, k: Key)
    requires ib.key == k
    ensures WantedName(ib, k, OnCommit) != WantedName(ib, k, SpecChange)
    ensures forall f :: WantedName(ib, k, f) == Key(k.ns, RunName(k.name, f, NextCounter(Counter(ib, f))))
  {
    hide FormatInt;
    var m, n := NextCounter(Counter(ib, OnCommit)), NextCounter(Counter(ib, SpecChange));
    if RunName(k.name, OnCommit, m) == RunName(k.name, SpecChange, n) {
      RunNameInjective(k.name, OnCommit, m, k.name, SpecChange, n);
    }
  }

  lemma OnCommitMakesWell(s: World, k: Key)
    requires WellFormed(s, k)
    ensures MakesWell(ReconcileOnCommitBuildRun(s, k).writes, s.imageBuilds[k], k)
  {
    hide Apply, RemainingWait, RunName, NewBuildRun, IsWellMade, IsDuplicateCommit, GetActiveBuildRun, WantedName;
    NewRunMeans(s.imageBuilds[k], k, OnCommit);
  }

  lemma FallBackMakesWell(s: World, k: Key)
    requires WellFormed(s, k)
    ensures MakesWell(FallBack(s, k).writes, s.imageBuilds[k], k)
  {
    hide Apply, RunName, NewBuildRun, IsWellMade, IsSpecDrifted, WantedName;
    NewRunMeans(s.imageBuilds[k], k, SpecChange);
  }

  lemma SameMaker(a: ImageBuild, b: ImageBuild, k: Key, ws: seq<Write>)
    requires MakesWell(ws, b, k)
    requires b.uid == a.uid && b.status.buildRunCounter == a.status.buildRunCounter
    requires TriggerCount(b) == TriggerCount(a)
    ensures MakesWell(ws, a, k)
  {
    assert forall f :: WantedName(b, k, f) == WantedName(a, k, f);
  }

  ghost function TriggerCount(ib: ImageBuild): int {
    if ib.status.onCommit.Some? then ib.status.onCommit.value.triggerCounter else 0
  }

  lemma StatusMakesNone(s: World, k: Key, run: Option<BuildRun>)
    requires k in s.imageBuilds
    ensures NoRunIn(ReconcileStatus(s, k, run).writes)
  {
    hide Verdict, Apply, ComputeLatestImage, IsReadyCurrent;
  }

  lemma RunsMakeWell(s: World, k: Key)
    requires WellFormed(s, k)
    ensures MakesWell(ReconcileRuns(s, k).writes, s.imageBuilds[k], k)
  {
    hide ReconcileOnCommitBuildRun, FallBack, ReconcileStatus, Apply, IsWellMade, TriggerCount;
    var o := ReconcileOnCommitBuildRun(s, k);
    OnCommitMakesWell(s, k);
    var r := ReconcileBuildRun(s, k);
    if o.ret == Ok(Proceed) {
      ProceedKeepsMaker(s, k);
      FallBackMakesWell(o.st, k);
      SameMaker(s.imageBuilds[k], o.st.imageBuilds[k], k, FallBack(o.st, k).writes);
    }
    assert MakesWell(r.writes, s.imageBuilds[k], k);
    if r.ret.Ok? && r.ret.value.Use? {
      StatusMakesNone(r.st, k, r.ret.value.run);
    }
  }

  lemma ProceedKeepsMaker(s: World, k: Key)
    requires WellFormed(s, k) && ReconcileOnCommitBuildRun(s, k).ret == Ok(Proceed)
    ensures var o := ReconcileOnCommitBuildRun(s, k).st;
            var a, b := s.imageBuilds[k], o.imageBuilds[k];
            && WellFormed(o, k) && b.uid == a.uid && b.status.buildRunCounter == a.status.buildRunCounter
            && TriggerCount(b) == TriggerCount(a)
  {
    hide RemainingWait, RunName;
  }

  /** Where a new run comes from. */
  lemma {:induction false} NewRunsAreCreated(s: World, k: Key, ws: seq<Write>, ib: ImageBuild)
    requires k in s.imageBuilds && MakesWell(ws, ib, k)
    ensures var t := Exec(s, k, ws);
            forall r :: r in t.runs && !(r in s.runs && t.runs[r] == s.runs[r]) ==>
              r == Key(k.ns, t.runs[r].name) && IsWellMade(t.runs[r], ib, k)
    decreases |ws|
  {
    hide Written, IsWellMade;
    if ws != [] {
      assert ws[0] in ws;
      assert MakesWell(ws[1..], ib, k);
      NewRunsAreCreated(Apply(s, k, ws[0]), k, ws[1..], ib);
    }
  }

  lemma MakesWellPrefix(ws: seq<Write>, ib: ImageBuild, k: Key, n: nat)
    requires MakesWell(ws, ib, k) && RunWritesOnly(ws) && n <= |ws|
    ensures MakesWell(ws[..n], ib, k) && RunWritesOnly(ws[..n])
  {
    hide IsWellMade;
  }

  /** A pass that is set up, stopped anywhere. */
  lemma CreatedOnceSetUp(s: World, k: Key, n: nat)
    requires WellFormed(s, k) && SetUp(s, k)
    ensures var t := Exec(s, k, Stopped(s, k, n));
            && SetUp(t, k) && WellFormed(t, k)
            && forall r :: r in t.runs && !(r in s.runs && t.runs[r] == s.runs[r]) ==>
                 r == Key(k.ns, t.runs[r].name) && IsWellMade(t.runs[r], s.imageBuilds[k], k)
  {
    hide Reconcile, ReconcileRuns, Exec, SetUp, IsWellMade, MakesWell, RunWritesOnly, SameSetup;
    var ws := Reconcile(s, k).writes;
    SetUpWrites(s, k);
    RunsMakeRunWrites(s, k);
    RunsMakeWell(s, k);
    MakesWellPrefix(ws, s.imageBuilds[k], k, Min(n, |ws|));
    NewRunsAreCreated(s, k, Stopped(s, k, n), s.imageBuilds[k]);
    RunWritesKeepSetup(s, k, Stopped(s, k, n));
    SetupCarries(s, k, Exec(s, k, Stopped(s, k, n)));
    WritesKeepWellFormed(s, k, Stopped(s, k, n));
  }

  lemma MidMakesWell(s: World, k: Key, mid: World, run: BuildRun)
    requires WellFormed(s, k) && WellFormed(mid, k) && SameRuns(s, k, mid) && IsWellMade(run, mid.imageBuilds[k], k)
    ensures IsWellMade(run, s.imageBuilds[k], k)
  {
    assert forall f :: WantedName(mid.imageBuilds[k], k, f) == WantedName(s.imageBuilds[k], k, f);
  }

  /** What a pass creates, however early it stops: runs of one of the two families, labelled as such,
      controlled by the ImageBuild and made from its Build, which is in step by then: it is there,
      the status names it, and it says in every field what the present specification and policy
      call for. */
  lemma CreatedRunsAreWellMade(s: World, k: Key, n: nat, r: Key)
    requires WellFormed(s, k) && r in Exec(s, k, Stopped(s, k, n)).runs && r !in s.runs
    ensures var t := Exec(s, k, Stopped(s, k, n));
            && r == Key(k.ns, t.runs[r].name) && IsWellMade(t.runs[r], s.imageBuilds[k], k)
            && IsInStep(t, k) && t.runs[r].build == t.imageBuilds[k].status.buildRef
  {
    hide Reconcile, Exec, Stopped, SetUp, SetUpWorld, SetupWrites, SetupStands, SecretIsMissing, StrategyIsMissing,
         BuildIsHeld, SameRuns, WantedName, IsCalledFor;
    StandingMeans(s, k);
    if !SetupStands(s, k) {
      FailingPassKeepsRuns(s, k, n);
      assert false;
    } else if n <= |SetupWrites(s, k)| {
      StopsSooner(s, k, n);
      SameRunsMeans(s, k, Exec(s, k, Stopped(s, k, n)));
      assert false;
    } else {
      CreatedLater(s, k, n, n - |SetupWrites(s, k)|, r);
    }
  }

  lemma SameRunsMeans(s: World, k: Key, t: World)
    requires k in s.imageBuilds && k in t.imageBuilds && SameRuns(s, k, t)
    ensures t.runs == s.runs
  {
  }

  lemma CreatedLater(s: World, k: Key, n: nat, j: nat, r: Key)
    requires WellFormed(s, k) && SetupStands(s, k) && n == |SetupWrites(s, k)| + j
    requires r in Exec(s, k, Stopped(s, k, n)).runs && r !in s.runs
    ensures var t := Exec(s, k, Stopped(s, k, n));
            && r == Key(k.ns, t.runs[r].name) && IsWellMade(t.runs[r], s.imageBuilds[k], k)
            && IsInStep(t, k) && t.runs[r].build == t.imageBuilds[k].status.buildRef
  {
    hide *;
    KeyIsStored(s, k);
    var mid := SetUpWorld(s, k);
    SetupSucceeds(s, k);
    StopsLater(s, k, j);
    CreatedOnceSetUp(mid, k, j);
    CreatedFromMid(s, k, mid, Exec(mid, k, Stopped(mid, k, j)), r);
  }

  lemma KeyIsStored(s: World, k: Key)
    requires WellFormed(s, k)
    ensures k in s.imageBuilds
  {
  }

  lemma CreatedFromMid(s: World, k: Key, mid: World, t: World, r: Key)
    requires WellFormed(s, k) && WellFormed(mid, k) && SameRuns(s, k, mid)
    requires WellFormed(t, k) && SetUp(t, k) && r in t.runs && r !in s.runs
    requires forall r :: r in t.runs && !(r in mid.runs && t.runs[r] == mid.runs[r]) ==>
               r == Key(k.ns, t.runs[r].name) && IsWellMade(t.runs[r], mid.imageBuilds[k], k)
    ensures r == Key(k.ns, t.runs[r].name) && IsWellMade(t.runs[r], s.imageBuilds[k], k)
    ensures IsInStep(t, k) && t.runs[r].build == t.imageBuilds[k].status.buildRef
  {
    hide SetUp, SecretIsMissing, StrategyIsMissing, SameRuns, WantedName, IsCalledFor;
    SameRunsMeans(s, k, mid);
    MidMakesWell(s, k, mid, t.runs[r]);
    SetUpMeans(t, k);
  }

  // ---- what is reported of a run -------------------------------------------

  /** The image a successful run is reported as: by its digest if it has one, otherwise as it stands
      if it carries a tag or a digest itself, otherwise not at all. */
  function ReportedImage(tagged: string -> bool, image: string, run: BuildRun, current: string): string {
    if run.digest != "" then image + "@" + run.digest else if image != "" && tagged(image) then image else current
  }

  ghost predicate IsVerdictOn(c: Condition, run: BuildRun) {
    match run.succeeded
    case None => c.status == Unknown && c.reason == BuildRunPending
    case Some(v) =>
      && c.status == v
      && c.reason == match v case True => BuildRunSucceeded case False => BuildRunFailed case Unknown => BuildRunRunning
  }

  /** What the run last reported on has come to is reported for the present generation, and so, if it
      has succeeded, is its image. */
  ghost predicate RunIsReported(s: World, k: Key, t: World)
    requires k in s.imageBuilds && k in t.imageBuilds
  {
    var a, b := s.imageBuilds[k], t.imageBuilds[k];
    var r := Key(k.ns, b.status.lastBuildRunRef);
    b.status.lastBuildRunRef != "" && r in t.runs ==>
      && b.status.conditions.buildSucceeded != None
      && IsVerdictOn(b.status.conditions.buildSucceeded.value, t.runs[r])
      && b.status.conditions.buildSucceeded.value.observedGeneration == b.generation
      && (t.runs[r].succeeded == Some(True) ==>
            b.status.latestImage == ReportedImage(s.tagged, a.spec.output.image, t.runs[r], a.status.latestImage))
  }

  lemma VerdictOf(run: BuildRun, generation: int)
    ensures IsVerdictOn(Condition(Verdict(run).0, Verdict(run).1, generation), run)
  {
  }

  lemma ImageMeans(tagged: string -> bool, ib: ImageBuild, run: BuildRun)
    ensures var image := ComputeLatestImage(tagged, ib, run);
            ReportedImage(tagged, ib.spec.output.image, run, ib.status.latestImage) ==
              if image == "" then ib.status.latestImage else image
  {
  }

  lemma StatusReportsRun(s: World, k: Key, run: Option<BuildRun>)
    requires WellFormed(s, k)
    requires run.Some? ==> Stored(s, k, run.value)
    requires run.None? ==> LastBuildRun(s, s.imageBuilds[k]) == None
    ensures RunIsReported(s, k, ReconcileStatus(s, k, run).st)
  {
    hide ReconcileStatus, Verdict, IsReadyCurrent, ComputeLatestImage, ReportedImage, IsVerdictOn;
    StatusFacts(s, k, run);
    if run.Some? {
      VerdictOf(run.value, s.imageBuilds[k].generation);
      ImageMeans(s.tagged, s.imageBuilds[k], run.value);
    }
  }

  /** The stages before the report leave the image alone, and have a run to report on unless the last
      one is gone. */
  lemma RunToReport(s: World, k: Key)
    requires WellFormed(s, k) && ReconcileBuildRun(s, k).ret.Ok? && ReconcileBuildRun(s, k).ret.value.Use?
    ensures var r := ReconcileBuildRun(s, k);
            var run := r.ret.value.run;
            && WellFormed(r.st, k) && LatestImage.SameImage(s.imageBuilds[k], r.st.imageBuilds[k])
            && (run.Some? ==> Stored(r.st, k, run.value))
            && (run.None? ==> LastBuildRun(r.st, r.st.imageBuilds[k]) == None)
  {
    hide ReconcileOnCommitBuildRun, FallBack, LatestImage.NoImageIn, Exec, AllGuarded, LastBuildRun;
    var o := ReconcileOnCommitBuildRun(s, k);
    BuildRunObeys(s, k);
    OnCommitObeys(s, k);
    FallBackObeys(o.st, k);
    LatestImage.RunStagesLeaveImage(s, k);
    LatestImage.RunStagesLeaveImage(o.st, k);
    LatestImage.OtherWritesLeaveImage(s, k, o.writes);
    LatestImage.OtherWritesLeaveImage(o.st, k, FallBack(o.st, k).writes);
    OnCommitHasRun(s, k);
    if o.ret == Ok(Proceed) {
      FallBackFindsRun(o.st, k);
    }
  }

  lemma OnCommitHasRun(s: World, k: Key)
    requires k in s.imageBuilds
    ensures var o := ReconcileOnCommitBuildRun(s, k).ret; o.Ok? && o.value.Use? ==> o.value.run.Some?
  {
    hide Apply, RemainingWait, RunName;
  }

  lemma FallBackFindsRun(s: World, k: Key)
    requires WellFormed(s, k)
    ensures FallBack(s, k).ret.Ok? && FallBack(s, k).ret.value.Use? && FallBack(s, k).ret.value.run.None? ==>
              LastBuildRun(FallBack(s, k).st, FallBack(s, k).st.imageBuilds[k]) == None
  {
    hide ReconcileDefaultBuildRun, LastBuildRun;
    DefaultFacts(s, k);
  }

  lemma ErrorIsBlamed(s: World, k: Key)
    requires WellFormed(s, k) && ReconcileBuildRun(s, k).ret.Err?
    ensures !HasReported(ReconcileRuns(s, k), k)
  {
    hide ReconcileOnCommitBuildRun, ReconcileDefaultBuildRun, ReconcileStatus, PollAfter;
    var o := ReconcileOnCommitBuildRun(s, k);
    OnCommitObeys(s, k);
    DefaultFacts(o.st, k);
  }

  lemma BuildRunKeepsTagged(s: World, k: Key)
    requires WellFormed(s, k)
    ensures ReconcileBuildRun(s, k).st.tagged == s.tagged
  {
    hide ReconcileBuildRun, Exec, AllGuarded;
    BuildRunObeys(s, k);
    WritesKeepTime(s, k, ReconcileBuildRun(s, k).writes);
  }

  lemma WaitIsWanted(s: World, k: Key)
    requires WellFormed(s, k) && ReconcileBuildRun(s, k).ret.Ok? && ReconcileBuildRun(s, k).ret.value.Wait?
    ensures Wanted(s, k).WaitFor?
  {
    hide FallBack, RemainingWait, Wanted, RunName;
    WantedMeans(s, k);
  }

  lemma RunsReportRun(s: World, k: Key)
    requires WellFormed(s, k) && !Wanted(s, k).WaitFor? && HasReported(ReconcileRuns(s, k), k)
    ensures RunIsReported(s, k, ReconcileRuns(s, k).st)
  {
    hide ReconcileBuildRun, ReconcileStatus, Wanted, HasReported, ReportedImage, LastBuildRun;
    var r := ReconcileBuildRun(s, k);
    if r.ret.Err? {
      ErrorIsBlamed(s, k);
    } else if r.ret.value.Use? {
      RunToReport(s, k);
      BuildRunKeepsTagged(s, k);
      StatusReportsRun(r.st, k, r.ret.value.run);
    } else {
      WaitIsWanted(s, k);
    }
  }

  lemma MidReportsRun(s: World, k: Key, mid: World, t: World)
    requires WellFormed(s, k) && WellFormed(mid, k) && SameRuns(s, k, mid) && k in t.imageBuilds
    requires RunIsReported(mid, k, t)
    ensures RunIsReported(s, k, t)
  {
    hide ReportedImage;
  }

  /** After a complete pass that ends ready, and did not have to wait, the verdict on the run last
      reported on is what has become of it, and if it has succeeded its image is reported. */
  lemma OutcomeIsReported(s: World, k: Key)
    requires WellFormed(s, k) && !Wanted(s, k).WaitFor?
    ensures var t := Reconcile(s, k).st;
            var ready := t.imageBuilds[k].status.conditions.ready;
            ready != None && ready.value.status == True ==> RunIsReported(s, k, t)
  {
    hide Reconcile, ReconcileRuns, Wanted, SecretIsMissing, StrategyIsMissing, BuildIsHeld, PollAfter, IsRefused, Blame,
         SetUp, SetUpWorld, SetupWrites, SetupStands, RunIsReported, SameRuns;
    PassAnswers(s, k);
    StandingMeans(s, k);
    if SetupStands(s, k) {
      var mid := SetUpWorld(s, k);
      SetupSucceeds(s, k);
      WantedInMid(s, k, mid);
      var ready := Reconcile(s, k).st.imageBuilds[k].status.conditions.ready;
      if ready != None && ready.value.status == True {
        SameReported(Reconcile(s, k), ReconcileRuns(mid, k), k);
        RunsReportRun(mid, k);
        MidReportsRun(s, k, mid, Reconcile(s, k).st);
      }
    }
  }

  lemma WantedInMid(s: World, k: Key, mid: World)
    requires WellFormed(s, k) && WellFormed(mid, k) && SameRuns(s, k, mid)
    ensures Wanted(mid, k) == Wanted(s, k)
  {
  }

  lemma SameReported(p: Plan<Outcome>, q: Plan<Outcome>, k: Key)
    requires HasReported(p, k) && q.st == p.st && q.ret == p.ret
    ensures HasReported(q, k)
  {
  }
}
