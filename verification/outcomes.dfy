/** What a complete pass does, from any state, field by field: which runs there are afterwards, which
    one is reported on, what is counted and recorded, and what becomes of the pending push. */
module Outcomes {
  import opened ImageBuilds
  import opened Names
  import opened LastSpec
  import opened Cluster
  import opened ReconcileSpec
  import opened Guards
  import opened Convergence
  import opened Answers
  import opened Builds

  ghost predicate Stands(s: World, k: Key)
    requires k in s.imageBuilds
  {
    !SecretIsMissing(s, k) && !StrategyIsMissing(s, k) && !BuildIsHeld(s, k)
  }

  /** The pass wants a run of this family. */
  ghost predicate Wants(s: World, k: Key, f: Family)
    requires k in s.imageBuilds
  {
    Wanted(s, k) == Create(f)
  }

  ghost predicate IsFree(s: World, k: Key, f: Family)
    requires k in s.imageBuilds
  {
    WantedName(s.imageBuilds[k], k, f) !in s.runs
  }

  /** One run more if one is wanted and its name is free, and none less. */
  ghost predicate RunsAre(s: World, k: Key, t: World)
    requires k in s.imageBuilds
  {
    if Wanted(s, k).Create? && IsFree(s, k, Wanted(s, k).family) then
      var r := WantedName(s.imageBuilds[k], k, Wanted(s, k).family);
      r in t.runs && t.runs == s.runs[r := t.runs[r]] && IsWellMade(t.runs[r], s.imageBuilds[k], k)
    else t.runs == s.runs
  }

  /** The run reported on: the one wanted, unless it is somebody else's, or the one before. */
  ghost function LastRun(s: World, k: Key): string
    requires k in s.imageBuilds
  {
    if Wanted(s, k).Create? && !NameIsHeld(s, k, Wanted(s, k).family) then
      WantedName(s.imageBuilds[k], k, Wanted(s, k).family).name
    else s.imageBuilds[k].status.lastBuildRunRef
  }

  /** A spec-change run is counted if it is created, and its inputs are recorded unless its name is
      somebody else's. */
  ghost predicate RecordIs(s: World, k: Key, b: ImageBuild)
    requires k in s.imageBuilds
  {
    var a := s.imageBuilds[k];
    && b.status.buildRunCounter == (if Wants(s, k, SpecChange) && IsFree(s, k, SpecChange)
                                    then NextCounter(a.status.buildRunCounter) else a.status.buildRunCounter)
    && b.annotations == (if Wants(s, k, SpecChange) && !NameIsHeld(s, k, SpecChange)
                         then a.annotations["build.dana.io/last-build-spec" := Marshal(a.spec.Inputs())]
                         else a.annotations)
    && b.spec == a.spec
  }

  /** The push is consumed: the run created for it, its commit and the time, in whole seconds, are
      the last trigger. */
  ghost predicate IsTriggered(a: OnCommitStatus, b: OnCommitStatus, name: string, now: int)
    requires a.pending.Some?
  {
    && b.lastReceived == a.lastReceived && b.pending == None && b.triggerCounter == NextCounter(a.triggerCounter)
    && b.lastTriggered != None
    && b.lastTriggered.value.name == name && b.lastTriggered.value.commitSHA == a.pending.value.commitSHA
    && b.lastTriggered.value.triggeredAt % 1_000_000_000 == 0
    && now - 1_000_000_000 < b.lastTriggered.value.triggeredAt <= now
  }

  /** A push that has waited is consumed if a run is created for it, and dropped if it is for the
      commit last triggered.  Otherwise it is kept. */
  ghost predicate PushIs(s: World, k: Key, b: ImageBuild)
    requires k in s.imageBuilds
  {
    var a, now := s.imageBuilds[k], s.clock;
    if HasPush(a) && WaitLeft(a.status.onCommit.value, now) <= 0 && IsRepeated(a.status.onCommit.value) then
      b.status.onCommit == Some(a.status.onCommit.value.(pending := None))
    else if Wants(s, k, OnCommit) && IsFree(s, k, OnCommit) then
      && HasPush(a) && b.status.onCommit != None
      && IsTriggered(a.status.onCommit.value, b.status.onCommit.value, WantedName(a, k, OnCommit).name, now)
    else b.status.onCommit == a.status.onCommit
  }

  ghost predicate Done(s: World, k: Key, t: World)
    requires k in s.imageBuilds && k in t.imageBuilds
  {
    && RunsAre(s, k, t) && t.imageBuilds[k].status.lastBuildRunRef == LastRun(s, k)
    && RecordIs(s, k, t.imageBuilds[k]) && PushIs(s, k, t.imageBuilds[k])
  }

  /** Neither runs nor records are touched, nor the image, the record of pushes and the Builds. */
  ghost predicate Untouched(s: World, k: Key, t: World)
    requires k in s.imageBuilds && k in t.imageBuilds
  {
    var a, b := s.imageBuilds[k], t.imageBuilds[k];
    && t.runs == s.runs && t.builds == s.builds && b.spec == a.spec && b.annotations == a.annotations
    && b.status.lastBuildRunRef == a.status.lastBuildRunRef
    && b.status.buildRunCounter == a.status.buildRunCounter
    && b.status.latestImage == a.status.latestImage && b.status.onCommit == a.status.onCommit
  }

  // ---- the spec-change flow ------------------------------------------------

  lemma NewRunIsWellMade(ib: ImageBuild, k: Key, f: Family)
    requires ib.key == k
    ensures var run := NewBuildRun(ib, f, NextCounter(Counter(ib, f))).(controller := Some(OwnerOf(ib)));
            IsWellMade(run, ib, k) && RunKey(k, run.name) == WantedName(ib, k, f)
  {
    hide FormatInt;
    NewRunMeans(ib, k, f);
    NamesOfFamilies(ib, k);
  }

  lemma EnsureRunDoes(s: World, k: Key)
    requires WellFormed(s, k)
    ensures var e := EnsureBuildRun(s, k);
            var a, b := s.imageBuilds[k], e.st.imageBuilds[k];
            var r := WantedName(a, k, SpecChange);
            && b == a.(status := a.status.(buildRunCounter := b.status.buildRunCounter))
            && e.st == s.(imageBuilds := s.imageBuilds[k := b], runs := e.st.runs)
            && (e.ret.Err? <==> NameIsHeld(s, k, SpecChange))
            && (e.ret.Err? ==> e.ret == Err(AlreadyOwned))
            && (e.ret.Ok? ==> RunKey(k, e.ret.value.name) == r)
            && (if r !in s.runs then
                  && r in e.st.runs && e.st.runs == s.runs[r := e.st.runs[r]] && IsWellMade(e.st.runs[r], a, k)
                  && b.status.buildRunCounter == NextCounter(a.status.buildRunCounter)
                else e.st.runs == s.runs && b.status.buildRunCounter == a.status.buildRunCounter)
  {
    hide NextCounter, NewBuildRun, IsWellMade, WantedName;
    NewRunIsWellMade(s.imageBuilds[k], k, SpecChange);
    assert NewBuildRun(s.imageBuilds[k], SpecChange, NextCounter(s.imageBuilds[k].status.buildRunCounter)).name ==
      WantedName(s.imageBuilds[k], k, SpecChange).name;
  }

  lemma FallBackDoes(s: World, k: Key)
    requires WellFormed(s, k) && IsSpecDrifted(s.imageBuilds[k])
    ensures var f := FallBack(s, k);
            var a, b := s.imageBuilds[k], f.st.imageBuilds[k];
            var r := WantedName(a, k, SpecChange);
            && b.status.onCommit == a.status.onCommit && b.status.lastBuildRunRef == a.status.lastBuildRunRef
            && b.spec == a.spec
            && (f.ret.Err? <==> NameIsHeld(s, k, SpecChange))
            && (f.ret.Ok? ==>
                  && f.ret.value.run.Some? && RunKey(k, f.ret.value.run.value.name) == r
                  && b.annotations == a.annotations[ANNOTATION_LAST_SPEC := Marshal(a.spec.Inputs())])
            && (f.ret.Err? ==> b.annotations == a.annotations)
            && (if r !in s.runs then
                  && r in f.st.runs && f.st.runs == s.runs[r := f.st.runs[r]] && IsWellMade(f.st.runs[r], a, k)
                  && b.status.buildRunCounter == NextCounter(a.status.buildRunCounter)
                else f.st.runs == s.runs && b.status.buildRunCounter == a.status.buildRunCounter)
  {
    hide IsSpecDrifted, EnsureBuildRun, IsWellMade, WantedName, NameIsHeld, Marshal, NextCounter;
    EnsureRunDoes(s, k);
  }

  // ---- the stages up to the report -----------------------------------------

  lemma LastIsStored(s: World, k: Key)
    requires WellFormed(s, k) && LastBuildRun(s, s.imageBuilds[k]).Some?
    ensures LastBuildRun(s, s.imageBuilds[k]).value.name == s.imageBuilds[k].status.lastBuildRunRef
  {
  }

  /** What the run stages have done before the report, and which run they hand to it. */
  ghost predicate StagesDone(s: World, k: Key, r: Plan<Result<Flow>>)
    requires k in s.imageBuilds && k in r.st.imageBuilds
  {
    var a, b := s.imageBuilds[k], r.st.imageBuilds[k];
    && RunsAre(s, k, r.st) && RecordIs(s, k, b) && PushIs(s, k, b)
    && b.status.lastBuildRunRef == a.status.lastBuildRunRef
    && (r.ret.Ok? ==>
          && r.ret.value.Use?
          && (match r.ret.value.run
              case None => LastRun(s, k) == a.status.lastBuildRunRef
              case Some(run) => run.name == LastRun(s, k)))
    && (r.ret.Err? ==> LastRun(s, k) == a.status.lastBuildRunRef)
  }

  lemma ProceedDoes(s: World, k: Key)
    requires WellFormed(s, k) && FallsBack(s, s.imageBuilds[k])
    ensures var o := ReconcileOnCommitBuildRun(s, k);
            var a, b := s.imageBuilds[k], o.st.imageBuilds[k];
            && o.ret == Ok(Proceed) && WellFormed(o.st, k) && o.st.runs == s.runs
            && IsSpecDrifted(b) == IsSpecDrifted(a)
            && b == a.(status := a.status.(onCommit := b.status.onCommit))
            && b.status.onCommit == (if IsRebuildEnabled(a) then Some(a.status.onCommit.value.(pending := None))
                                     else a.status.onCommit)
            && (IsRebuildEnabled(a) ==> a.status.onCommit.Some?)
            && WantedName(b, k, SpecChange) == WantedName(a, k, SpecChange)
  {
    hide RemainingWait, RunName, Unmarshal;
  }

  /** When the spec-change flow is reached, a push that is still there has waited and is a repeated
      one. */
  lemma FallingBackMeans(s: World, k: Key)
    requires WellFormed(s, k) && FallsBack(s, s.imageBuilds[k])
    ensures var a := s.imageBuilds[k];
            && (HasPush(a) <==> IsRebuildEnabled(a))
            && (HasPush(a) ==> WaitLeft(a.status.onCommit.value, s.clock) <= 0 && IsRepeated(a.status.onCommit.value))
            && Wanted(s, k) == if IsSpecDrifted(a) then Create(SpecChange) else Report
  {
    hide RemainingWait, WaitLeft, IsRepeated, IsDuplicateCommit, IsSpecDrifted, HasDrifted, Wanted, IsRebuildEnabled,
         HasPush;
    PushMeans(s, k);
    WantedMeans(s, k);
  }

  lemma ProceedStages(s: World, k: Key)
    requires WellFormed(s, k) && FallsBack(s, s.imageBuilds[k])
    ensures StagesDone(s, k, ReconcileBuildRun(s, k))
  {
    hide FallBack, ReconcileOnCommitBuildRun, IsSpecDrifted, HasDrifted, Wanted, IsRebuildEnabled, FallsBack, HasPush,
         WaitLeft, IsRepeated, IsWellMade, WantedName, IsTriggered, Marshal, NextCounter, LastBuildRun;
    var o := ReconcileOnCommitBuildRun(s, k).st;
    ProceedDoes(s, k);
    FallingBackMeans(s, k);
    if IsSpecDrifted(s.imageBuilds[k]) {
      FallBackDoes(o, k);
      WellMadeAlike(s, k, o);
    } else {
      NoDriftDoes(o, k);
    }
  }

  lemma WellMadeAlike(s: World, k: Key, o: World)
    requires k in s.imageBuilds && k in o.imageBuilds
    requires var a, b := s.imageBuilds[k], o.imageBuilds[k];
             && b == a.(status := a.status.(onCommit := b.status.onCommit))
             && (b.status.onCommit == a.status.onCommit ||
                   (a.status.onCommit.Some? && b.status.onCommit == Some(a.status.onCommit.value.(pending := None))))
    ensures forall run :: IsWellMade(run, o.imageBuilds[k], k) ==> IsWellMade(run, s.imageBuilds[k], k)
  {
    hide FormatInt;
    assert forall f :: WantedName(o.imageBuilds[k], k, f) == WantedName(s.imageBuilds[k], k, f);
  }

  lemma NoDriftDoes(s: World, k: Key)
    requires WellFormed(s, k) && !IsSpecDrifted(s.imageBuilds[k])
    ensures var f := FallBack(s, k);
            && f.st == s && f.ret.Ok? && f.ret.value.Use?
            && (f.ret.value.run.Some? ==> f.ret.value.run.value.name == s.imageBuilds[k].status.lastBuildRunRef)
  {
    hide IsSpecDrifted;
    if LastBuildRun(s, s.imageBuilds[k]).Some? {
      LastIsStored(s, k);
    }
  }

  lemma ActiveStages(s: World, k: Key)
    requires WellFormed(s, k) && IsDue(s, s.imageBuilds[k]) && !IsDuplicateCommit(s.imageBuilds[k])
    requires GetActiveBuildRun(s, s.imageBuilds[k]).Some?
    ensures StagesDone(s, k, ReconcileBuildRun(s, k))
  {
    hide FallBack, RemainingWait, Wanted, WaitLeft, IsRepeated, IsDuplicateCommit, WantedName, IsWellMade, Marshal;
    PushMeans(s, k);
    WantedMeans(s, k);
    LastIsStored(s, k);
  }

  lemma MarkMeans(oc: OnCommitStatus, name: string, now: int)
    requires oc.pending.Some?
    ensures var mark := TriggerRecord(name, oc.pending.value.commitSHA, Stamp(now));
            var n := NextCounter(oc.triggerCounter);
            IsTriggered(oc, oc.(pending := None, triggerCounter := n, lastTriggered := Some(mark)), name, now)
  {
    hide NextCounter;
  }

  lemma TriggerDoes(s: World, k: Key)
    requires WellFormed(s, k) && HasPush(s.imageBuilds[k])
    ensures var e := EnsureOnCommitBuildRun(s, k);
            var a, b := s.imageBuilds[k], e.st.imageBuilds[k];
            var r := WantedName(a, k, OnCommit);
            && b == a.(status := a.status.(onCommit := b.status.onCommit))
            && (e.ret.Err? <==> NameIsHeld(s, k, OnCommit))
            && (e.ret.Err? ==> e.ret == Err(AlreadyOwned))
            && (e.ret.Ok? ==> e.ret.value.Use? && e.ret.value.run.Some? && RunKey(k, e.ret.value.run.value.name) == r)
            && (if r !in s.runs then
                  && r in e.st.runs && e.st.runs == s.runs[r := e.st.runs[r]] && IsWellMade(e.st.runs[r], a, k)
                  && b.status.onCommit.Some?
                  && IsTriggered(a.status.onCommit.value, b.status.onCommit.value, r.name, s.clock)
                else e.st.runs == s.runs && b.status.onCommit == a.status.onCommit)
  {
    hide NextCounter, NewBuildRun, IsWellMade, WantedName, IsTriggered, Stamp;
    NewRunIsWellMade(s.imageBuilds[k], k, OnCommit);
    MarkMeans(s.imageBuilds[k].status.onCommit.value, WantedName(s.imageBuilds[k], k, OnCommit).name, s.clock);
    assert NewBuildRun(s.imageBuilds[k], OnCommit,
                       NextCounter(s.imageBuilds[k].status.onCommit.value.triggerCounter)).name ==
      WantedName(s.imageBuilds[k], k, OnCommit).name;
  }

  lemma TriggerStages(s: World, k: Key)
    requires WellFormed(s, k) && IsDue(s, s.imageBuilds[k]) && !IsDuplicateCommit(s.imageBuilds[k])
    requires GetActiveBuildRun(s, s.imageBuilds[k]).None?
    ensures StagesDone(s, k, ReconcileBuildRun(s, k))
  {
    hide FallBack, RemainingWait, Wanted, WaitLeft, IsRepeated, IsDuplicateCommit, WantedName, IsWellMade, Marshal,
         EnsureOnCommitBuildRun, GetActiveBuildRun, IsTriggered, HasPush, NameIsHeld;
    PushMeans(s, k);
    WantedMeans(s, k);
    TriggerDoes(s, k);
  }

  lemma StagesDo(s: World, k: Key)
    requires WellFormed(s, k) && !Wanted(s, k).WaitFor?
    ensures StagesDone(s, k, ReconcileBuildRun(s, k))
  {
    hide ReconcileBuildRun, IsDue, IsDuplicateCommit, Wanted, StagesDone, GetActiveBuildRun;
    WantedMeans(s, k);
    if FallsBack(s, s.imageBuilds[k]) {
      ProceedStages(s, k);
    } else if GetActiveBuildRun(s, s.imageBuilds[k]).Some? {
      ActiveStages(s, k);
    } else {
      TriggerStages(s, k);
    }
  }

  // ---- whole passes --------------------------------------------------------

  lemma ReportDoes(s: World, k: Key, r: Plan<Result<Flow>>)
    requires k in s.imageBuilds && k in r.st.imageBuilds && StagesDone(s, k, r) && r.ret.Ok?
    ensures Done(s, k, ReconcileStatus(r.st, k, r.ret.value.run).st)
  {
    hide ReconcileStatus, Verdict, IsReadyCurrent, ComputeLatestImage, Wanted, WantedName, NameIsHeld, IsWellMade,
         IsTriggered, WaitLeft, IsRepeated, Marshal, NextCounter, HasPush, Wants, IsFree;
    StatusFacts(r.st, k, r.ret.value.run);
  }

  lemma WaitDoes(s: World, k: Key)
    requires WellFormed(s, k) && Wanted(s, k).WaitFor?
    ensures Done(s, k, ReconcileRuns(s, k).st)
  {
    hide ReconcileRuns, WaitLeft, HasDrifted, LastIsActive, IsTriggered, IsRepeated;
    WantedMeans(s, k);
    WaitRests(s, k);
    WaitIsNotOver(s, k);
  }

  lemma WaitIsNotOver(s: World, k: Key)
    requires WellFormed(s, k) && Wanted(s, k).WaitFor?
    ensures HasPush(s.imageBuilds[k]) && WaitLeft(s.imageBuilds[k].status.onCommit.value, s.clock) > 0
  {
    hide WaitLeft, HasDrifted, LastIsActive, IsRepeated;
  }

  lemma RunsDo(s: World, k: Key)
    requires WellFormed(s, k)
    ensures Done(s, k, ReconcileRuns(s, k).st)
  {
    hide ReconcileBuildRun, ReconcileStatus, Wanted, StagesDone, Done;
    if Wanted(s, k).WaitFor? {
      WaitDoes(s, k);
    } else {
      StagesDo(s, k);
      var r := ReconcileBuildRun(s, k);
      if r.ret.Ok? {
        StagesUse(s, k, r);
        ReportDoes(s, k, r);
      } else {
        RefusalDoes(s, k, r);
      }
    }
  }

  lemma StagesUse(s: World, k: Key, r: Plan<Result<Flow>>)
    requires k in s.imageBuilds && k in r.st.imageBuilds && StagesDone(s, k, r) && r.ret.Ok?
    ensures r.ret.value.Use?
  {
  }

  lemma RefusalDoes(s: World, k: Key, r: Plan<Result<Flow>>)
    requires k in s.imageBuilds && k in r.st.imageBuilds && StagesDone(s, k, r) && r.ret.Err?
    ensures Done(s, k, r.st)
  {
    hide RunsAre, RecordIs, PushIs, LastRun;
  }

  lemma DoneAlike(s: World, k: Key, mid: World, t: World)
    requires WellFormed(s, k) && WellFormed(mid, k) && SameRuns(s, k, mid) && k in t.imageBuilds && Done(mid, k, t)
    ensures Done(s, k, t)
  {
    hide Wanted, WaitLeft, IsTriggered, IsRepeated, Marshal, NextCounter, FormatInt;
    WantedInMid(s, k, mid);
    NamesAlike(s.imageBuilds[k], mid.imageBuilds[k], k);
  }

  lemma NamesAlike(a: ImageBuild, b: ImageBuild, k: Key)
    requires b.status.buildRunCounter == a.status.buildRunCounter && b.status.onCommit == a.status.onCommit
    requires b.uid == a.uid
    ensures forall f :: WantedName(b, k, f) == WantedName(a, k, f)
    ensures forall run :: IsWellMade(run, b, k) <==> IsWellMade(run, a, k)
  {
    hide FormatInt;
    assert forall f :: WantedName(b, k, f) == WantedName(a, k, f);
  }

  ghost predicate ReportsOnly(ws: seq<Write>) {
    forall w :: w in ws ==> w.SetLabel? || w.SetReady?
  }

  lemma {:induction false} ReportsTouchNothing(s: World, k: Key, ws: seq<Write>)
    requires k in s.imageBuilds && ReportsOnly(ws)
    ensures Untouched(s, k, Exec(s, k, ws))
    decreases |ws|
  {
    if ws != [] {
      assert ws[0] in ws;
      ReportsTouchNothing(Apply(s, k, ws[0]), k, ws[1..]);
    }
  }

  lemma FailingStagesReport(s: World, k: Key)
    requires WellFormed(s, k)
    ensures ReportsOnly(EnsureOnCommitLabel(s, k).writes) && ReportsOnly(ValidateWebhookSecret(s, k).writes)
    ensures ReconcileBuild(s, k).ret.Err? ==> ReportsOnly(ReconcileBuild(s, k).writes)
  {
    hide Apply, NewBuildSpec, ControlledByOther;
  }

  lemma FailingPassReports(s: World, k: Key)
    requires WellFormed(s, k) && !Stands(s, k)
    ensures ReportsOnly(Reconcile(s, k).writes)
  {
    hide EnsureOnCommitLabel, ValidateWebhookSecret, ReconcileBuild, ReconcileRuns, SecretIsMissing, StrategyIsMissing,
         BuildIsHeld, Apply;
    LabelStageAnswers(s, k);
    var l := EnsureOnCommitLabel(s, k).st;
    FailingStagesReport(s, k);
    FailingStagesReport(l, k);
    SecretStageAnswers(l, k);
    if !SecretIsMissing(s, k) {
      BuildStageAnswers(l, k);
    }
  }

  lemma FailingPassTouchesNothing(s: World, k: Key)
    requires WellFormed(s, k) && !Stands(s, k)
    ensures Untouched(s, k, Reconcile(s, k).st)
  {
    hide Reconcile, Exec, AllGuarded, Stands, Untouched;
    FailingPassReports(s, k);
    ReconcileObeys(s, k);
    ReportsTouchNothing(s, k, Reconcile(s, k).writes);
  }

  /** What a complete pass does, from any state.  With something missing, or the Build held by
      somebody else, it touches neither runs nor records.  Otherwise it creates the run it wants if
      the name is free, and no other; reports on the run it wanted, created or found, unless that is
      somebody else's; counts and records what it built; and consumes, drops or keeps the push. */
  lemma PassDoes(s: World, k: Key)
    requires WellFormed(s, k)
    ensures var t := Reconcile(s, k).st;
            if Stands(s, k) then Done(s, k, t) else Untouched(s, k, t)
  {
    hide Reconcile, ReconcileRuns, SetupStands, SetUpWorld, SetupWrites, SetUp, SecretIsMissing, StrategyIsMissing,
         BuildIsHeld, SameRuns, Done, Untouched;
    StandingMeans(s, k);
    if SetupStands(s, k) {
      SetupSucceeds(s, k);
      var mid := SetUpWorld(s, k);
      RunsDo(mid, k);
      DoneAlike(s, k, mid, Reconcile(s, k).st);
    } else {
      FailingPassTouchesNothing(s, k);
    }
  }
}
