/** Edits and builds, over runs whose passes all complete: every edit of the build inputs is built,
    for the inputs as they are, and nothing is built without one. */
module Edits {
  import opened ImageBuilds
  import opened Names
  import opened LastSpec
  import opened Cluster
  import opened ReconcileSpec
  import opened Guards
  import opened Protocol
  import opened Safety
  import opened CompletePasses
  import opened LatestImage
  import Convergence
  import Answers
  import Objects = Builds

  // ---- nothing is built without an edit ------------------------------------

  /** The pass has either not counted a spec-change run, and caused no drift, or it has counted one
      and done away with a drift. */
  ghost predicate Spends(a: ImageBuild, b: ImageBuild) {
    if b.status.buildRunCounter == a.status.buildRunCounter then IsSpecDrifted(b) ==> IsSpecDrifted(a)
    else
      && b.status.buildRunCounter == NextCounter(a.status.buildRunCounter)
      && IsSpecDrifted(a) && !IsSpecDrifted(b)
  }

  /** The counter, the record, the specification and the last run are the same. */
  ghost predicate SameBuilt(a: ImageBuild, b: ImageBuild) {
    && b.status.buildRunCounter == a.status.buildRunCounter && b.annotations == a.annotations && b.spec == a.spec
    && b.status.lastBuildRunRef == a.status.lastBuildRunRef
  }

  predicate IsOnCommitWrite(w: Write) {
    w.CreateRun? || w.MarkTriggered? || w.ClearPending?
  }

  lemma {:induction false} OnCommitWritesKeepBuilt(s: World, k: Key, ws: seq<Write>)
    requires k in s.imageBuilds && forall w :: w in ws ==> IsOnCommitWrite(w)
    ensures SameBuilt(s.imageBuilds[k], Exec(s, k, ws).imageBuilds[k])
    decreases |ws|
  {
    if ws != [] {
      assert ws[0] in ws;
      OnCommitWritesKeepBuilt(Apply(s, k, ws[0]), k, ws[1..]);
    }
  }

  lemma OnCommitWrites(s: World, k: Key)
    requires WellFormed(s, k)
    ensures var o := ReconcileOnCommitBuildRun(s, k);
            && (forall w :: w in o.writes ==> IsOnCommitWrite(w))
            && (o.ret.Ok? && o.ret.value.Use? ==> o.ret.value.run.Some? && o.ret.value.run.value.name != "")
  {
    hide RemainingWait, FormatInt, IsActive, IsDuplicateCommit, Apply;
  }

  lemma OnCommitSpendsNothing(s: World, k: Key)
    requires WellFormed(s, k)
    ensures SameBuilt(s.imageBuilds[k], ReconcileOnCommitBuildRun(s, k).st.imageBuilds[k])
  {
    hide ReconcileOnCommitBuildRun, Exec, AllGuarded;
    OnCommitObeys(s, k);
    OnCommitWrites(s, k);
    OnCommitWritesKeepBuilt(s, k, ReconcileOnCommitBuildRun(s, k).writes);
  }

  lemma EnsureSpends(s: World, k: Key)
    requires WellFormed(s, k)
    ensures var a, b := s.imageBuilds[k], EnsureBuildRun(s, k).st.imageBuilds[k];
            || b.status.buildRunCounter == a.status.buildRunCounter
            || b.status.buildRunCounter == NextCounter(a.status.buildRunCounter)
  {
    hide RunName;
  }

  lemma DefaultSpends(s: World, k: Key)
    requires WellFormed(s, k)
    ensures var a, b := s.imageBuilds[k], ReconcileDefaultBuildRun(s, k).st.imageBuilds[k];
            || b.status.buildRunCounter == a.status.buildRunCounter
            || b.status.buildRunCounter == NextCounter(a.status.buildRunCounter)
  {
    hide EnsureBuildRun, IsSpecDrifted, Marshal;
    EnsureSpends(s, k);
  }

  lemma SameBuiltSpends(a: ImageBuild, b: ImageBuild)
    requires SameBuilt(a, b)
    ensures Spends(a, b) && IsSpecDrifted(b) == IsSpecDrifted(a)
  {
    hide IsSpecDrifted;
    Convergence.SameDrift(a, b);
  }

  lemma SpendsFrom(a: ImageBuild, b: ImageBuild, c: ImageBuild)
    requires SameBuilt(a, b) && Spends(b, c)
    ensures Spends(a, c)
  {
    hide IsSpecDrifted;
    Convergence.SameDrift(a, b);
  }

  /** A report on a named run leaves what is not drifted so. */
  lemma ReportSpends(s: World, k: Key, run: Option<BuildRun>)
    requires k in s.imageBuilds && (run.Some? ==> run.value.name != "")
    ensures var a, b := s.imageBuilds[k], ReconcileStatus(s, k, run).st.imageBuilds[k];
            && b.status.buildRunCounter == a.status.buildRunCounter
            && (IsSpecDrifted(b) ==> IsSpecDrifted(a))
            && (IsRecorded(a) && run.Some? ==> !IsSpecDrifted(b))
  {
    hide ReconcileStatus, IsSpecDrifted, Marshal, Verdict, ComputeLatestImage, IsReadyCurrent;
    Convergence.StatusFacts(s, k, run);
    var a, b := s.imageBuilds[k], ReconcileStatus(s, k, run).st.imageBuilds[k];
    if !IsSpecDrifted(a) {
      UndriftedIsNamed(a);
      DriftByInputs(a, b);
    }
    if IsRecorded(a) && run.Some? {
      Convergence.DriftIsExact(b, a.spec.Inputs());
    }
  }

  lemma FallBackSpends(s: World, k: Key)
    requires WellFormed(s, k) && !IsRebuildEnabled(s.imageBuilds[k])
    ensures Spends(s.imageBuilds[k], ReconcileRuns(s, k).st.imageBuilds[k])
  {
    hide ReconcileRuns, ReconcileStatus, ReconcileDefaultBuildRun, IsSpecDrifted, Marshal;
    var a, d := s.imageBuilds[k], ReconcileDefaultBuildRun(s, k);
    FlowOfDefault(s, k);
    Convergence.DefaultFacts(s, k);
    DefaultSpends(s, k);
    if d.ret.Err? {
      SameBuiltSpends(a, ReconcileRuns(s, k).st.imageBuilds[k]);
    } else {
      LastRunIsNamed(s, k);
      ReportSpends(d.st, k, d.ret.value);
    }
  }

  lemma LastRunIsNamed(s: World, k: Key)
    requires WellFormed(s, k)
    ensures var run := LastBuildRun(s, s.imageBuilds[k]); run.Some? ==> run.value.name != ""
  {
  }

  lemma RunsSpend(s: World, k: Key)
    requires WellFormed(s, k)
    ensures Spends(s.imageBuilds[k], ReconcileRuns(s, k).st.imageBuilds[k])
  {
    hide ReconcileOnCommitBuildRun, ReconcileStatus, FallBack, IsSpecDrifted, Spends, SameBuilt, AllGuarded, Exec,
         RemainingWait;
    var o := ReconcileOnCommitBuildRun(s, k);
    OnCommitSpendsNothing(s, k);
    OnCommitWrites(s, k);
    OnCommitObeys(s, k);
    if o.ret.Err? {
      FailureSpends(s.imageBuilds[k], o.st, k);
    } else if o.ret.value.Proceed? {
      ProceedIsUncalled(s, k);
      RunsAfterProceed(s, k);
      FallBackSpends(o.st, k);
      SpendsFrom(s.imageBuilds[k], o.st.imageBuilds[k], ReconcileRuns(s, k).st.imageBuilds[k]);
    } else if o.ret.value.Use? {
      UseSpends(s.imageBuilds[k], o.st, k, o.ret.value.run);
    } else {
      SameBuiltSpends(s.imageBuilds[k], o.st.imageBuilds[k]);
    }
  }

  lemma FailureSpends(a: ImageBuild, s: World, k: Key)
    requires k in s.imageBuilds && SameBuilt(a, s.imageBuilds[k])
    ensures forall reason :: Spends(a, Apply(s, k, SetReady(False, reason)).imageBuilds[k])
  {
    hide IsSpecDrifted;
    forall reason
      ensures Spends(a, Apply(s, k, SetReady(False, reason)).imageBuilds[k])
    {
      SameBuiltSpends(a, Apply(s, k, SetReady(False, reason)).imageBuilds[k]);
    }
  }

  lemma UseSpends(a: ImageBuild, s: World, k: Key, run: Option<BuildRun>)
    requires k in s.imageBuilds && SameBuilt(a, s.imageBuilds[k]) && run.Some? && run.value.name != ""
    ensures Spends(a, ReconcileStatus(s, k, run).st.imageBuilds[k])
  {
    hide IsSpecDrifted, ReconcileStatus;
    ReportSpends(s, k, run);
    SpendsFrom(a, s.imageBuilds[k], ReconcileStatus(s, k, run).st.imageBuilds[k]);
  }

  lemma ProceedIsUncalled(s: World, k: Key)
    requires WellFormed(s, k) && ReconcileOnCommitBuildRun(s, k).ret == Ok(Proceed)
    ensures !IsRebuildEnabled(ReconcileOnCommitBuildRun(s, k).st.imageBuilds[k])
  {
    hide RemainingWait, RunName;
  }

  lemma RunsAfterProceed(s: World, k: Key)
    requires WellFormed(s, k) && ReconcileOnCommitBuildRun(s, k).ret == Ok(Proceed)
    requires !IsRebuildEnabled(ReconcileOnCommitBuildRun(s, k).st.imageBuilds[k])
    ensures ReconcileRuns(s, k).st == ReconcileRuns(ReconcileOnCommitBuildRun(s, k).st, k).st
  {
    hide FallBack, ReconcileStatus, RemainingWait;
    var m := ReconcileOnCommitBuildRun(s, k).st;
    assert ReconcileOnCommitBuildRun(m, k) == Return(m, Ok(Proceed));
    hide ReconcileOnCommitBuildRun;
    assert ReconcileBuildRun(s, k).st == ReconcileBuildRun(m, k).st;
    assert ReconcileBuildRun(s, k).ret == ReconcileBuildRun(m, k).ret;
  }

  /** A complete pass, from any state. */
  lemma PassSpends(s: World, k: Key)
    requires WellFormed(s, k)
    ensures Spends(s.imageBuilds[k], Reconcile(s, k).st.imageBuilds[k])
  {
    hide Reconcile, ReconcileRuns, ReconcileBuild, IsSpecDrifted, Spends, Convergence.SetUp;
    var mid, failure := Convergence.PassSplits(s, k);
    if failure.Some? {
      FailureSpends(s.imageBuilds[k], mid, k);
    } else {
      RunsSpend(mid, k);
      SpendsFrom(s.imageBuilds[k], mid.imageBuilds[k], ReconcileRuns(mid, k).st.imageBuilds[k]);
    }
  }

  /** How many steps of the environment change the build inputs. */
  ghost function Edits(x: System, k: Key, acts: seq<Action>): nat
    requires k in x.w.imageBuilds && LegalRun(x, k, acts)
    decreases |acts|
  {
    if acts == [] then 0
    else
      var y := After(x, k, Events(x, k, acts[0]));
      (if acts[0].Other? && y.w.imageBuilds[k].spec.Inputs() != x.w.imageBuilds[k].spec.Inputs() then 1 else 0)
      + Edits(y, k, acts[1..])
  }

  /** Builds counted, and the one that is due. */
  ghost function Builds(ib: ImageBuild): int {
    ib.status.buildRunCounter + if IsSpecDrifted(ib) then 1 else 0
  }

  lemma SpendingKeepsBuilds(a: ImageBuild, b: ImageBuild)
    requires Spends(a, b) && 0 <= a.status.buildRunCounter < MAX_INT64
    ensures Builds(b) <= Builds(a)
  {
    hide IsSpecDrifted;
  }

  lemma EnvironmentBuilds(s: World, k: Key, t: World)
    requires WellFormed(s, k) && EnvStep(s, k, t)
    ensures var a, b := s.imageBuilds[k], t.imageBuilds[k];
            Builds(b) <= Builds(a) + if b.spec.Inputs() != a.spec.Inputs() then 1 else 0
  {
    hide IsSpecDrifted;
    var a, b := s.imageBuilds[k], t.imageBuilds[k];
    if !IsSpecDrifted(a) && b.spec.Inputs() == a.spec.Inputs() {
      UndriftedIsNamed(a);
      DriftByInputs(a, b);
    }
  }

  lemma DeliveryBuilds(s: World, k: Key, e: PushRecord)
    requires k in s.imageBuilds
    ensures Builds(Cluster.Deliver(s, k, e).imageBuilds[k]) == Builds(s.imageBuilds[k])
  {
    hide IsSpecDrifted;
    Convergence.SameDrift(s.imageBuilds[k], Cluster.Deliver(s, k, e).imageBuilds[k]);
  }

  lemma ActionBuilds(x: System, k: Key, a: Action)
    requires WellFormed(x.w, k) && IsComplete(a) && Legal(x, k, Events(x, k, a))
    requires 0 <= x.w.imageBuilds[k].status.buildRunCounter < MAX_INT64
    ensures var p, q := x.w.imageBuilds[k], After(x, k, Events(x, k, a)).w.imageBuilds[k];
            Builds(q) <= Builds(p) + if a.Other? && q.spec.Inputs() != p.spec.Inputs() then 1 else 0
  {
    hide Legal, After, Events, Reconcile, Spends, Builds, EnvStep;
    CompleteAction(x, k, a);
    match a
    case Pass(_) =>
      PassSpends(x.w, k);
      SpendingKeepsBuilds(x.w.imageBuilds[k], Reconcile(x.w, k).st.imageBuilds[k]);
    case Deliver(ref, sha) => DeliveryBuilds(x.w, k, PushRecord(ref, sha, Stamp(x.w.clock)));
    case Other(t) => EnvironmentBuilds(x.w, k, t);
  }

  lemma CounterInRange(x: System, k: Key, steps: nat)
    requires Inv(x, k, steps) && steps < MAX_INT64
    ensures WellFormed(x.w, k) && 0 <= x.w.imageBuilds[k].status.buildRunCounter < MAX_INT64
  {
    hide PushesKept, TriggersRecorded, TimesInOrder, TriggersSpaced, GenerationsOrdered, ReportsOwnRun, Indices;
  }

  lemma {:induction false} RunsBuild(x: System, k: Key, acts: seq<Action>, steps: nat)
    requires Inv(x, k, steps) && k in x.w.imageBuilds && LegalRun(x, k, acts)
    requires steps + MAX_WRITES * |acts| < MAX_INT64 && forall a :: a in acts ==> IsComplete(a)
    ensures Builds(Play(x, k, acts).w.imageBuilds[k]) <= Builds(x.w.imageBuilds[k]) + Edits(x, k, acts)
    decreases |acts|
  {
    hide Inv, Legal, After, Events, Builds;
    if acts != [] {
      var es := Events(x, k, acts[0]);
      assert acts[0] in acts;
      EventsAreShort(x, k, acts[0]);
      CounterInRange(x, k, steps);
      ActionBuilds(x, k, acts[0]);
      RunKeepsInv(x, k, es, steps);
      RunsBuild(After(x, k, es), k, acts[1..], steps + |es|);
    }
  }

  /** Nothing is built without an edit.  Over every run of complete passes, pushes and whatever else
      happens, the spec-change runs ever created are at most one more than the edits of the build
      inputs; the one more is for the specification the ImageBuild came with. */
  lemma EditsBoundBuilds(x: System, k: Key, acts: seq<Action>)
    requires IsRun(x, k, acts) && MAX_WRITES * |acts| < MAX_INT64 && forall a :: a in acts ==> IsComplete(a)
    ensures var y := Play(x, k, acts);
            var n := y.w.imageBuilds[k].status.buildRunCounter;
            IsUpTo(Indices(y.h, SpecChange), n) && n <= 1 + Edits(x, k, acts)
  {
    hide Inv, LegalRun, Play, Edits, Indices, IsUpTo, IsSpecDrifted;
    InitInv(x, k);
    RunsBuild(x, k, acts, 0);
    CountersAreExact(x, k, acts);
  }

  // ---- every edit is built -------------------------------------------------

  /** A run was made for the present inputs, reported on, and put on record. */
  ghost predicate IsBuilt(s: World, k: Key, t: World)
    requires k in s.imageBuilds && k in t.imageBuilds
  {
    var a, b, name := s.imageBuilds[k], t.imageBuilds[k], NextName(s.imageBuilds[k], SpecChange);
    var r := RunKey(k, name);
    && r !in s.runs && r in t.runs && t.runs[r].controller == Some(OwnerOf(a))
    && b.status.lastBuildRunRef == name && b.spec == a.spec && IsRecorded(b) && !IsSpecDrifted(b)
  }

  lemma DefaultOwns(s: World, k: Key)
    requires WellFormed(s, k) && IsSpecDrifted(s.imageBuilds[k])
    requires !OwnsRun(s, s.imageBuilds[k], NextName(s.imageBuilds[k], SpecChange))
    ensures var d := ReconcileDefaultBuildRun(s, k);
            var a, b := s.imageBuilds[k], d.st.imageBuilds[k];
            var r := RunKey(k, NextName(a, SpecChange));
            && (d.ret.Ok? <==> r !in s.runs)
            && (d.ret.Ok? ==>
                  && d.ret.value.Some? && d.ret.value.value.name == NextName(a, SpecChange)
                  && r in d.st.runs && d.st.runs[r].controller == Some(OwnerOf(a)) && b.spec == a.spec)
  {
    hide IsSpecDrifted, RunName, Marshal;
  }

  lemma FallBackBuilds(s: World, k: Key)
    requires WellFormed(s, k) && !IsRebuildEnabled(s.imageBuilds[k]) && IsSpecDrifted(s.imageBuilds[k])
    requires !OwnsRun(s, s.imageBuilds[k], NextName(s.imageBuilds[k], SpecChange))
    ensures var t := ReconcileRuns(s, k).st;
            && (IsReadyCurrent(t.imageBuilds[k]) ==> IsBuilt(s, k, t))
            && (RunKey(k, NextName(s.imageBuilds[k], SpecChange)) !in s.runs ==> IsReadyCurrent(t.imageBuilds[k]))
  {
    hide ReconcileRuns, ReconcileStatus, ReconcileDefaultBuildRun, IsSpecDrifted, Marshal, RunName, OwnsRun, Verdict,
         ComputeLatestImage;
    var d := ReconcileDefaultBuildRun(s, k);
    FlowOfDefault(s, k);
    Convergence.DefaultFacts(s, k);
    DefaultOwns(s, k);
    if d.ret.Ok? {
      Convergence.StatusFacts(d.st, k, d.ret.value);
      ReportSpends(d.st, k, d.ret.value);
    }
  }

  lemma FallsBackProceeds(s: World, k: Key)
    requires WellFormed(s, k) && FallsBack(s, s.imageBuilds[k])
    ensures var o := ReconcileOnCommitBuildRun(s, k);
            var a, b := s.imageBuilds[k], o.st.imageBuilds[k];
            && o.ret == Ok(Proceed) && WellFormed(o.st, k) && o.st.runs == s.runs && !IsRebuildEnabled(b)
            && SameBuilt(a, b) && b.uid == a.uid && b.key == a.key
  {
    hide RemainingWait;
  }

  lemma SameBuiltOwns(s: World, a: ImageBuild, t: World, b: ImageBuild)
    requires SameBuilt(a, b) && b.uid == a.uid && b.key == a.key && t.runs == s.runs
    ensures NextName(b, SpecChange) == NextName(a, SpecChange) && IsSpecDrifted(b) == IsSpecDrifted(a)
    ensures OwnsRun(t, b, NextName(b, SpecChange)) == OwnsRun(s, a, NextName(a, SpecChange))
    ensures OwnerOf(b) == OwnerOf(a)
  {
    hide IsSpecDrifted, RunName;
    Convergence.SameDrift(a, b);
  }

  /** The same, from a world that is set up or whose setup a pass has done. */
  lemma RunsFallBackBuild(s: World, k: Key)
    requires WellFormed(s, k) && FallsBack(s, s.imageBuilds[k]) && IsSpecDrifted(s.imageBuilds[k])
    requires !OwnsRun(s, s.imageBuilds[k], NextName(s.imageBuilds[k], SpecChange))
    ensures var t := ReconcileRuns(s, k).st;
            && (IsReadyCurrent(t.imageBuilds[k]) ==> IsBuilt(s, k, t))
            && (RunKey(k, NextName(s.imageBuilds[k], SpecChange)) !in s.runs ==> IsReadyCurrent(t.imageBuilds[k]))
  {
    hide ReconcileRuns, ReconcileOnCommitBuildRun, IsSpecDrifted, RunName, OwnsRun, FallsBack, IsReadyCurrent,
         IsRebuildEnabled, IsRecorded, NextName, OwnerOf;
    var m := ReconcileOnCommitBuildRun(s, k).st;
    FallsBackProceeds(s, k);
    RunsAfterProceed(s, k);
    SameBuiltOwns(s, s.imageBuilds[k], m, m.imageBuilds[k]);
    FallBackBuilds(m, k);
  }

  lemma MidIsBuilt(s: World, k: Key, mid: World)
    requires WellFormed(s, k) && WellFormed(mid, k) && Convergence.SameRuns(s, k, mid)
    ensures var a, b := s.imageBuilds[k], mid.imageBuilds[k];
            && SameBuilt(a, b) && b.uid == a.uid && b.key == a.key && mid.runs == s.runs
            && FallsBack(mid, b) == FallsBack(s, a)
  {
  }

  lemma IsBuiltFrom(s: World, k: Key, mid: World, t: World)
    requires k in s.imageBuilds && k in mid.imageBuilds && k in t.imageBuilds && IsBuilt(mid, k, t)
    requires mid.runs == s.runs && mid.imageBuilds[k].spec == s.imageBuilds[k].spec
    requires NextName(mid.imageBuilds[k], SpecChange) == NextName(s.imageBuilds[k], SpecChange)
    requires OwnerOf(mid.imageBuilds[k]) == OwnerOf(s.imageBuilds[k])
    ensures IsBuilt(s, k, t)
  {
    hide IsSpecDrifted, NextName, OwnerOf, IsRecorded;
  }

  lemma MidBuilds(s: World, k: Key, mid: World)
    requires WellFormed(s, k) && WellFormed(mid, k) && Convergence.SameRuns(s, k, mid)
    requires FallsBack(s, s.imageBuilds[k]) && IsSpecDrifted(s.imageBuilds[k])
    requires !OwnsRun(s, s.imageBuilds[k], NextName(s.imageBuilds[k], SpecChange))
    ensures var t := ReconcileRuns(mid, k).st;
            && (IsReadyCurrent(t.imageBuilds[k]) ==> IsBuilt(s, k, t))
            && (RunKey(k, NextName(s.imageBuilds[k], SpecChange)) !in s.runs ==> IsReadyCurrent(t.imageBuilds[k]))
  {
    hide ReconcileRuns, IsSpecDrifted, OwnsRun, FallsBack, IsReadyCurrent, NextName, OwnerOf, Convergence.SameRuns,
         IsBuilt;
    MidIsBuilt(s, k, mid);
    SameBuiltOwns(s, s.imageBuilds[k], mid, mid.imageBuilds[k]);
    RunsFallBackBuild(mid, k);
    var t := ReconcileRuns(mid, k).st;
    if IsReadyCurrent(t.imageBuilds[k]) {
      IsBuiltFrom(s, k, mid, t);
    }
  }

  lemma PassBuilds(s: World, k: Key)
    requires WellFormed(s, k) && FallsBack(s, s.imageBuilds[k]) && IsSpecDrifted(s.imageBuilds[k])
    requires !OwnsRun(s, s.imageBuilds[k], NextName(s.imageBuilds[k], SpecChange))
    ensures var t := Reconcile(s, k).st;
            && (IsReadyCurrent(t.imageBuilds[k]) ==> IsBuilt(s, k, t))
            && (Convergence.SetupStands(s, k) && RunKey(k, NextName(s.imageBuilds[k], SpecChange)) !in s.runs ==>
                  IsReadyCurrent(t.imageBuilds[k]))
  {
    hide Reconcile, ReconcileRuns, ReconcileBuild, IsSpecDrifted, OwnsRun, FallsBack, NextName, OwnerOf,
         Convergence.SetUp, Convergence.SetupStands, Convergence.SetUpWorld, Convergence.SetupWrites, IsBuilt;
    var mid, failure := Convergence.PassSplits(s, k);
    if failure.None? {
      MidBuilds(s, k, mid);
    }
    if Convergence.SetupStands(s, k) {
      Convergence.SetupSucceeds(s, k);
      MidBuilds(s, k, Convergence.SetUpWorld(s, k));
    }
  }

  /** A run was made from the Build for the present inputs, under the next name, reported on, and its
      inputs put on record. */
  ghost predicate IsBuiltAnew(s: World, k: Key, t: World)
    requires k in s.imageBuilds && k in t.imageBuilds
  {
    var a, b := s.imageBuilds[k], t.imageBuilds[k];
    var r := Answers.WantedName(a, k, SpecChange);
    && r !in s.runs && r in t.runs && Objects.IsWellMade(t.runs[r], a, k)
    && b.spec == a.spec && Objects.IsInStep(t, k) && t.runs[r].build == b.status.buildRef
    && b.status.lastBuildRunRef == t.runs[r].name
    && "build.dana.io/last-build-spec" in b.annotations
    && Unmarshal(b.annotations["build.dana.io/last-build-spec"]) ==
         Some(BuildInputs(a.spec.source, a.spec.buildFile, a.spec.output))
  }

  ghost predicate IsReady(t: World, k: Key)
    requires k in t.imageBuilds
  {
    var ready := t.imageBuilds[k].status.conditions.ready;
    ready != None && ready.value.status == True
  }

  /** Nothing is missing, and neither the Build nor the name of the next run is taken. */
  ghost predicate IsFree(s: World, k: Key)
    requires k in s.imageBuilds
  {
    && !Answers.SecretIsMissing(s, k) && !Answers.StrategyIsMissing(s, k) && !Answers.BuildIsHeld(s, k)
    && Answers.WantedName(s.imageBuilds[k], k, SpecChange) !in s.runs
  }

  lemma WantMeans(s: World, k: Key)
    requires WellFormed(s, k)
    ensures Answers.Wanted(s, k) == Answers.Create(SpecChange) <==>
              FallsBack(s, s.imageBuilds[k]) && IsSpecDrifted(s.imageBuilds[k])
    ensures Answers.WantedName(s.imageBuilds[k], k, SpecChange) == RunKey(k, NextName(s.imageBuilds[k], SpecChange))
  {
    hide IsSpecDrifted, Answers.Wanted, RunName, Answers.WantedName, GetActiveBuildRun, IsDuplicateCommit;
    Answers.WantedMeans(s, k);
    Answers.WantedNameIsNext(s, k, SpecChange);
  }

  lemma RecordMeans(ib: ImageBuild)
    requires IsRecorded(ib)
    ensures "build.dana.io/last-build-spec" in ib.annotations
    ensures Unmarshal(ib.annotations["build.dana.io/last-build-spec"]) ==
              Some(BuildInputs(ib.spec.source, ib.spec.buildFile, ib.spec.output))
  {
    hide Marshal, Unmarshal;
    MarshalRoundTrip(ib.spec.Inputs());
  }

  lemma ReadyMeansCurrent(s: World, k: Key)
    requires WellFormed(s, k) && !Answers.Wanted(s, k).WaitFor?
    ensures var t := Reconcile(s, k).st; IsReady(t, k) <==> IsReadyCurrent(t.imageBuilds[k])
  {
    hide Reconcile, Answers.Wanted;
    Objects.ReadyIsCurrent(s, k);
  }

  lemma PassBuildsAnew(s: World, k: Key)
    requires WellFormed(s, k) && Answers.Wanted(s, k) == Answers.Create(SpecChange)
    requires IsBuilt(s, k, Reconcile(s, k).st)
    ensures IsBuiltAnew(s, k, Reconcile(s, k).st)
  {
    hide Reconcile, Exec, Stopped, IsSpecDrifted, Answers.Wanted, Answers.WantedName, NextName, OwnerOf, IsRecorded,
         Objects.IsWellMade, Objects.IsInStep;
    var t := Reconcile(s, k).st;
    var r := RunKey(k, NextName(s.imageBuilds[k], SpecChange));
    WantMeans(s, k);
    RecordMeans(t.imageBuilds[k]);
    CompleteIsStopped(s, k);
    Objects.CreatedRunsAreWellMade(s, k, |Reconcile(s, k).writes|, r);
  }

  lemma CompleteIsStopped(s: World, k: Key)
    requires WellFormed(s, k)
    ensures Exec(s, k, Stopped(s, k, |Reconcile(s, k).writes|)) == Reconcile(s, k).st
  {
    hide Reconcile, Exec, AllGuarded;
    ReconcileObeys(s, k);
    var ws := Reconcile(s, k).writes;
    assert ws[..|ws|] == ws;
  }

  /** Every edit is built.  After every run of complete passes, pushes and whatever else happens, a
      pass that goes on to the spec-change flow, finds a drift and ends ready has created a run from
      the Build for the present inputs, reported on it and put the inputs on record; and it does end
      ready if the setup stands and nobody else holds the name. */
  lemma EveryEditIsBuilt(x: System, k: Key, acts: seq<Action>)
    requires IsRun(x, k, acts) && MAX_WRITES * |acts| < MAX_INT64 && forall a :: a in acts ==> IsComplete(a)
    requires Answers.Wanted(Play(x, k, acts).w, k) == Answers.Create(SpecChange)
    ensures var s := Play(x, k, acts).w;
            var t := Reconcile(s, k).st;
            && (IsReady(t, k) ==> IsBuiltAnew(s, k, t))
            && (IsFree(s, k) ==> IsReady(t, k))
  {
    hide Reconcile, LegalRun, Play, IsSpecDrifted, OwnsRun, FallsBack, NextName, Convergence.SetupStands, IsBuilt,
         IsBuiltAnew, IsReady, IsReadyCurrent, Answers.Wanted, Answers.WantedName, Answers.SecretIsMissing,
         Answers.StrategyIsMissing, Answers.BuildIsHeld;
    var s := Play(x, k, acts).w;
    NextIsFreeAfter(x, k, acts, SpecChange);
    WantMeans(s, k);
    PassBuilds(s, k);
    Answers.StandingMeans(s, k);
    ReadyMeansCurrent(s, k);
    if IsBuilt(s, k, Reconcile(s, k).st) {
      PassBuildsAnew(s, k);
    }
  }
}
