/** What stopping costs the spec-change flow: when a specification is built twice, when its build is
    never reported on, and when two builds of it are active together. */
module DriftLimits {
  import opened ImageBuilds
  import opened Names
  import opened LastSpec
  import opened Cluster
  import opened ReconcileSpec
  import opened Guards
  import opened Protocol
  import opened Safety
  import opened CompletePasses
  import opened Convergence
  import opened Example
  import opened LatestImage
  import opened Limits

  /** The name of the spec-change run after the next. */
  function SecondName(ib: ImageBuild): string {
    RunName(ib.key.name, SpecChange, NextCounter(NextCounter(ib.status.buildRunCounter)))
  }

  /** The specification has drifted, nothing stands in the way of a pass, and nobody holds the next
      name. */
  ghost predicate Drifting(s: World, k: Key) {
    && WellFormed(s, k) && SetupStands(s, k)
    && var ib := s.imageBuilds[k];
       && !IsRebuildEnabled(ib) && IsSpecDrifted(ib)
       && RunKey(k, NextName(ib, SpecChange)) !in s.runs
       && 0 <= ib.status.buildRunCounter < MAX_INT64 - 1
  }

  /** And the Build is in step already: the world after the setup writes of such a pass. */
  ghost predicate DriftingSetUp(s: World, k: Key) {
    Drifting(s, k) && SetUp(s, k)
  }

  /** The run such a pass creates. */
  function NewRun(ib: ImageBuild): BuildRun {
    NewBuildRun(ib, SpecChange, NextCounter(ib.status.buildRunCounter)).(controller := Some(OwnerOf(ib)))
  }

  /** The pass as far as its fourth write; after that it may still set Ready. */
  function FirstWrites(ib: ImageBuild): seq<Write> {
    [CreateRun(NewRun(ib)), SetCounter(NextCounter(ib.status.buildRunCounter)), RecordSpec,
     SetBuildSucceeded(NextName(ib, SpecChange), Unknown, BuildRunPending)]
  }

  lemma DefaultWrites(s: World, k: Key)
    requires WellFormed(s, k) && !IsRebuildEnabled(s.imageBuilds[k]) && IsSpecDrifted(s.imageBuilds[k])
    requires RunKey(k, NextName(s.imageBuilds[k], SpecChange)) !in s.runs
    ensures var d := ReconcileDefaultBuildRun(s, k);
            d.writes == FirstWrites(s.imageBuilds[k])[..3] && d.ret == Ok(Some(NewRun(s.imageBuilds[k])))
  {
    hide FormatInt, Apply, IsSpecDrifted;
    var e := EnsureBuildRun(s, k);
    assert e.writes == FirstWrites(s.imageBuilds[k])[..2];
  }

  lemma StatusWrites(s: World, k: Key, run: BuildRun)
    requires k in s.imageBuilds && run.succeeded == None
    ensures var ws := ReconcileStatus(s, k, Some(run)).writes;
            var w := SetBuildSucceeded(run.name, Unknown, BuildRunPending);
            ws == [w] || ws == [w, SetReady(True, Reconciled)]
  {
    hide Apply, IsReadyCurrent;
  }

  lemma DriftWrites(s: World, k: Key)
    requires DriftingSetUp(s, k)
    ensures var ws := Reconcile(s, k).writes;
            || ws == FirstWrites(s.imageBuilds[k])
            || ws == FirstWrites(s.imageBuilds[k]) + [SetReady(True, Reconciled)]
  {
    hide Reconcile, SetUp, ReconcileDefaultBuildRun, ReconcileStatus, FormatInt, Apply, IsSpecDrifted;
    SetUpWrites(s, k);
    DefaultWrites(s, k);
    var d := ReconcileDefaultBuildRun(s, k);
    StatusWrites(d.st, k, d.ret.value.value);
    assert ReconcileRuns(s, k).writes == d.writes + ReconcileStatus(d.st, k, d.ret.value).writes;
  }

  // ---- where such a pass stops ---------------------------------------------

  /** The world after the first n writes. */
  ghost predicate StoppedAt(s: World, k: Key, n: nat, t: World)
    requires k in s.imageBuilds
  {
    && WellFormed(t, k) && SameSetup(s, k, t)
    && var a, b := s.imageBuilds[k], t.imageBuilds[k];
       && b.status.onCommit == a.status.onCommit && b.status.latestImage == a.status.latestImage
       && t.runs == (if n == 0 then s.runs else s.runs[RunKey(k, NextName(a, SpecChange)) := NewRun(a)])
       && b.status.buildRunCounter ==
            (if n < 2 then a.status.buildRunCounter else NextCounter(a.status.buildRunCounter))
       && b.annotations ==
            (if n < 3 then a.annotations else a.annotations[ANNOTATION_LAST_SPEC := Marshal(a.spec.Inputs())])
       && b.status.lastBuildRunRef == if n < 4 then a.status.lastBuildRunRef else NextName(a, SpecChange)
  }

  lemma StoppedStep(s: World, k: Key, n: nat, t: World, w: Write)
    requires WellFormed(s, k) && StoppedAt(s, k, n, t)
    requires w == if n < 4 then FirstWrites(s.imageBuilds[k])[n] else SetReady(True, Reconciled)
    ensures StoppedAt(s, k, n + 1, Apply(t, k, w))
  {
    hide RunName, Marshal, SameSetup, StoppedAt;
    StoppedMeans(s, k, n, t);
    RunWriteKeepsSetup(t, k, w);
    WriteKeepsWellFormed(t, k, w);
    SetupIsTransitive(s, k, t, Apply(t, k, w));
    SameSetupMeans(s, k, t);
    StoppedFields(s, k, n, t, w);
  }

  lemma StoppedMeans(s: World, k: Key, n: nat, t: World)
    requires k in s.imageBuilds && StoppedAt(s, k, n, t)
    ensures WellFormed(t, k) && SameSetup(s, k, t)
  {
    hide SameSetup, RunName, Marshal;
  }

  lemma StoppedFields(s: World, k: Key, n: nat, t: World, w: Write)
    requires WellFormed(s, k) && StoppedAt(s, k, n, t)
    requires w == if n < 4 then FirstWrites(s.imageBuilds[k])[n] else SetReady(True, Reconciled)
    requires t.imageBuilds[k].spec == s.imageBuilds[k].spec
    requires WellFormed(Apply(t, k, w), k) && SameSetup(s, k, Apply(t, k, w))
    ensures StoppedAt(s, k, n + 1, Apply(t, k, w))
  {
    hide RunName, Marshal, SameSetup;
  }

  lemma {:induction false} StoppedWorlds(s: World, k: Key, n: nat)
    requires DriftingSetUp(s, k)
    ensures StoppedAt(s, k, n, Exec(s, k, Stopped(s, k, n)))
  {
    hide Reconcile, SetUp, IsSpecDrifted, RunName, Apply, StoppedAt;
    var ws := Reconcile(s, k).writes;
    DriftWrites(s, k);
    if n == 0 {
      NotStarted(s, k);
    } else if n > |ws| {
      StoppedWorlds(s, k, n - 1);
      assert Stopped(s, k, n) == Stopped(s, k, n - 1);
      LaterIsSame(s, k, n - 1, Exec(s, k, Stopped(s, k, n)));
    } else {
      StoppedWorlds(s, k, n - 1);
      var t := Exec(s, k, Stopped(s, k, n - 1));
      ExecSnoc(s, k, ws, n - 1);
      StoppedStep(s, k, n - 1, t, ws[n - 1]);
    }
  }

  lemma NotStarted(s: World, k: Key)
    requires WellFormed(s, k)
    ensures StoppedAt(s, k, 0, s)
  {
    hide RunName, Marshal;
  }

  lemma LaterIsSame(s: World, k: Key, n: nat, t: World)
    requires k in s.imageBuilds && n >= 4 && StoppedAt(s, k, n, t)
    ensures StoppedAt(s, k, n + 1, t)
  {
    hide RunName, Marshal;
  }

  lemma OneMore<T>(s: seq<T>, i: nat)
    requires i < |s|
    ensures s[..i + 1] == s[..i] + [s[i]]
  {
  }

  lemma ExecSnoc(s: World, k: Key, ws: seq<Write>, i: nat)
    requires k in s.imageBuilds && i < |ws|
    ensures Exec(s, k, ws[..i + 1]) == Apply(Exec(s, k, ws[..i]), k, ws[i])
  {
    hide *;
    OneMore(ws, i);
    ExecLast(s, k, ws[..i], ws[i], ws[..i + 1]);
  }

  lemma ExecLast(s: World, k: Key, a: seq<Write>, w: Write, ws: seq<Write>)
    requires k in s.imageBuilds && ws == a + [w]
    ensures Exec(s, k, ws) == Apply(Exec(s, k, a), k, w)
  {
    hide *;
    ExecThen(s, k, a, w);
  }

  lemma ExecThen(s: World, k: Key, ws: seq<Write>, w: Write)
    requires k in s.imageBuilds
    ensures Exec(s, k, ws + [w]) == Apply(Exec(s, k, ws), k, w)
  {
    hide *;
    ExecAppend(s, k, ws, [w]);
    ExecOne(Exec(s, k, ws), k, w);
  }

  // ---- the pass after ------------------------------------------------------

  lemma FlowCreates(s: World, k: Key)
    requires WellFormed(s, k) && SetUp(s, k) && !IsRebuildEnabled(s.imageBuilds[k]) && IsSpecDrifted(s.imageBuilds[k])
    requires RunKey(k, NextName(s.imageBuilds[k], SpecChange)) !in s.runs
    ensures var t, r := Reconcile(s, k).st, RunKey(k, NextName(s.imageBuilds[k], SpecChange));
            && t.runs.Keys == s.runs.Keys + {r}
            && IsActive(t.runs[r]) && IsControlledBy(t.runs[r].controller, s.imageBuilds[k])
  {
    hide Reconcile, ReconcileStatus, FormatInt, IsSpecDrifted, SetUp;
    SetUpPass(s, k);
    var d := ReconcileDefaultBuildRun(s, k);
    StatusFacts(d.st, k, d.ret.value);
  }

  /** Without drift the last run is reported on, and nothing created. */
  lemma UndriftedPass(s: World, k: Key)
    requires WellFormed(s, k) && SetUp(s, k) && !IsRebuildEnabled(s.imageBuilds[k]) && !IsSpecDrifted(s.imageBuilds[k])
    ensures var run := LastBuildRun(s, s.imageBuilds[k]);
            Reconcile(s, k).st == ReconcileStatus(s, k, run).st && Reconcile(s, k).st.runs == s.runs
  {
    hide Reconcile, ReconcileRuns, ReconcileStatus, IsSpecDrifted, SetUp, IsReadyCurrent, Verdict, ComputeLatestImage;
    SetUpPass(s, k);
    FlowOfDefault(s, k);
    NoDriftFlow(s, k);
    StatusFacts(s, k, LastBuildRun(s, s.imageBuilds[k]));
  }

  lemma StoppedIsSetUp(s: World, k: Key, n: nat, t: World)
    requires DriftingSetUp(s, k) && StoppedAt(s, k, n, t)
    ensures WellFormed(t, k) && SetUp(t, k) && !IsRebuildEnabled(t.imageBuilds[k])
    ensures n < 3 ==> IsSpecDrifted(t.imageBuilds[k])
    ensures n >= 3 ==> IsRecorded(t.imageBuilds[k])
    ensures n >= 3 ==> (IsSpecDrifted(t.imageBuilds[k]) <==> n == 3 && s.imageBuilds[k].status.lastBuildRunRef == "")
  {
    hide SetUp, IsSpecDrifted, FormatInt, Marshal, SameSetup;
    SetupCarries(s, k, t);
    var a, b := s.imageBuilds[k], t.imageBuilds[k];
    SameSetupMeans(s, k, t);
    if n < 3 {
      SameDrift(a, b);
    } else if b.status.lastBuildRunRef == "" {
      UnnamedIsDrifted(b);
    } else {
      RecordedIsUndrifted(b);
    }
  }

  lemma SameSetupMeans(s: World, k: Key, t: World)
    requires k in s.imageBuilds && k in t.imageBuilds && SameSetup(s, k, t)
    ensures var a, b := s.imageBuilds[k], t.imageBuilds[k]; b.spec == a.spec && b.key == a.key && b.uid == a.uid
  {
  }

  lemma UnnamedIsDrifted(ib: ImageBuild)
    requires ib.status.lastBuildRunRef == ""
    ensures IsSpecDrifted(ib)
  {
  }

  lemma NamesDiffer(ib: ImageBuild)
    requires 0 <= ib.status.buildRunCounter < MAX_INT64 - 1
    ensures NextName(ib, SpecChange) != SecondName(ib)
  {
    var m, n := NextCounter(ib.status.buildRunCounter), NextCounter(NextCounter(ib.status.buildRunCounter));
    if NextName(ib, SpecChange) == SecondName(ib) {
      RunNameInjective(ib.key.name, SpecChange, m, ib.key.name, SpecChange, n);
    }
  }

  lemma BuiltTwiceOnceSetUp(s: World, k: Key, n: nat)
    requires DriftingSetUp(s, k)
    ensures var ib := s.imageBuilds[k];
            var u := Reconcile(Exec(s, k, Stopped(s, k, n)), k).st;
            var first, second := RunKey(k, NextName(ib, SpecChange)), RunKey(k, SecondName(ib));
            u.runs.Keys == s.runs.Keys + {first} +
                           if n == 2 || (n == 3 && ib.status.lastBuildRunRef == "") then {second} else {}
  {
    hide Reconcile, Exec, Stopped, SetUp, IsSpecDrifted, RunName, StoppedAt;
    StoppedWorlds(s, k, n);
    if n == 1 {
      RetryFinds(s, k, Exec(s, k, Stopped(s, k, n)));
    } else {
      RetryCreates(s, k, n, Exec(s, k, Stopped(s, k, n)));
    }
  }

  lemma RetryFinds(s: World, k: Key, t: World)
    requires DriftingSetUp(s, k) && StoppedAt(s, k, 1, t)
    ensures Reconcile(t, k).st.runs.Keys == s.runs.Keys + {RunKey(k, NextName(s.imageBuilds[k], SpecChange))}
  {
    hide Reconcile, SetUp, IsSpecDrifted, RunName, Stranded, IsReadyCurrent, IsRecorded;
    StoppedIsSetUp(s, k, 1, t);
    NewRunStrands(s, k, t);
    StrandedDriftIsSwallowed(t, k);
  }

  lemma RetryCreates(s: World, k: Key, n: nat, t: World)
    requires DriftingSetUp(s, k) && StoppedAt(s, k, n, t) && n != 1
    ensures var ib := s.imageBuilds[k];
            var first, second := RunKey(k, NextName(ib, SpecChange)), RunKey(k, SecondName(ib));
            Reconcile(t, k).st.runs.Keys == s.runs.Keys + {first} +
                           if n == 2 || (n == 3 && ib.status.lastBuildRunRef == "") then {second} else {}
  {
    hide Reconcile, SetUp, IsSpecDrifted, RunName, IsReadyCurrent, Marshal, SameSetup;
    StoppedIsSetUp(s, k, n, t);
    NamesDiffer(s.imageBuilds[k]);
    SameSetupMeans(s, k, t);
    if !IsSpecDrifted(t.imageBuilds[k]) {
      UndriftedPass(t, k);
    } else if RunKey(k, NextName(t.imageBuilds[k], SpecChange)) !in t.runs {
      FlowCreates(t, k);
    } else {
      TakenNameCreatesNone(t, k);
    }
  }

  /** With the next name taken, none is created. */
  lemma TakenNameCreatesNone(s: World, k: Key)
    requires WellFormed(s, k) && !IsRebuildEnabled(s.imageBuilds[k])
    requires RunKey(k, NextName(s.imageBuilds[k], SpecChange)) in s.runs
    ensures Reconcile(s, k).st.runs.Keys == s.runs.Keys
  {
    hide Reconcile, RunName, WouldTrigger;
    NotCalledFor(s, s.imageBuilds[k]);
    OneRunPerPass(s, k);
    assert s.runs.Keys + {RunKey(k, NextName(s.imageBuilds[k], SpecChange))} == s.runs.Keys;
  }

  lemma NewRunStrands(s: World, k: Key, t: World)
    requires DriftingSetUp(s, k) && StoppedAt(s, k, 1, t)
    ensures Stranded(t, k, SpecChange)
  {
    hide SetUp, IsSpecDrifted, FormatInt, Marshal;
  }

  lemma FirstStopOnceSetUp(s: World, k: Key)
    requires DriftingSetUp(s, k)
    ensures var t := Exec(s, k, Stopped(s, k, 1));
            && t.runs.Keys == s.runs.Keys + {RunKey(k, NextName(s.imageBuilds[k], SpecChange))}
            && Stranded(t, k, SpecChange) && IsSpecDrifted(t.imageBuilds[k])
  {
    hide Reconcile, Exec, Stopped, SetUp, IsSpecDrifted, RunName, Stranded;
    StoppedWorlds(s, k, 1);
    StoppedIsSetUp(s, k, 1, Exec(s, k, Stopped(s, k, 1)));
    NewRunStrands(s, k, Exec(s, k, Stopped(s, k, 1)));
  }

  lemma SecondStopOnceSetUp(s: World, k: Key)
    requires DriftingSetUp(s, k)
    requires RunKey(k, SecondName(s.imageBuilds[k])) !in s.runs
    ensures var t := Exec(s, k, Stopped(s, k, 2));
            var u := Reconcile(t, k).st;
            && t.imageBuilds[k].spec == s.imageBuilds[k].spec
            && t.runs.Keys == s.runs.Keys + {RunKey(k, NextName(s.imageBuilds[k], SpecChange))}
            && u.runs.Keys == t.runs.Keys + {RunKey(k, NextName(t.imageBuilds[k], SpecChange))}
            && u.runs.Keys > t.runs.Keys
  {
    hide Reconcile, Exec, Stopped, SetUp, IsSpecDrifted, RunName, Marshal;
    var t := Exec(s, k, Stopped(s, k, 2));
    StoppedWorlds(s, k, 2);
    StoppedIsSetUp(s, k, 2, t);
    NamesDiffer(s.imageBuilds[k]);
    FlowCreates(t, k);
  }

  // ---- a run that is never reported on -------------------------------------

  lemma ThirdStopOnceSetUp(s: World, k: Key)
    requires DriftingSetUp(s, k) && s.imageBuilds[k].status.lastBuildRunRef != ""
    ensures var t := Exec(s, k, Stopped(s, k, 3));
            var u := Reconcile(t, k).st;
            var a, b := s.imageBuilds[k], u.imageBuilds[k];
            var r := RunKey(k, a.status.lastBuildRunRef);
            && RunKey(k, NextName(a, SpecChange)) in t.runs && u.runs == t.runs
            && b.status.lastBuildRunRef == a.status.lastBuildRunRef && b.spec == a.spec && !IsSpecDrifted(b)
            && Reconcile(u, k).st == u
            && (r in s.runs && IsSuccessful(s.runs[r]) && s.runs[r].digest != "" ==>
                  b.status.latestImage == Digested(a.spec.Inputs(), s.runs[r]))
  {
    hide Reconcile, Exec, Stopped, SetUp, IsSpecDrifted, RunName, StoppedAt;
    var t := Exec(s, k, Stopped(s, k, 3));
    StoppedWorlds(s, k, 3);
    HiddenRun(s, k, t);
  }

  lemma HiddenRun(s: World, k: Key, t: World)
    requires DriftingSetUp(s, k) && s.imageBuilds[k].status.lastBuildRunRef != "" && StoppedAt(s, k, 3, t)
    ensures var u := Reconcile(t, k).st;
            var a, b := s.imageBuilds[k], u.imageBuilds[k];
            var r := RunKey(k, a.status.lastBuildRunRef);
            && RunKey(k, NextName(a, SpecChange)) in t.runs && u.runs == t.runs
            && b.status.lastBuildRunRef == a.status.lastBuildRunRef && b.spec == a.spec && !IsSpecDrifted(b)
            && Reconcile(u, k).st == u
            && (r in s.runs && IsSuccessful(s.runs[r]) && s.runs[r].digest != "" ==>
                  b.status.latestImage == Digested(a.spec.Inputs(), s.runs[r]))
  {
    hide Reconcile, SetUp, IsSpecDrifted, RunName, IsReadyCurrent, Marshal, SameSetup, ReconcileStatus, Verdict;
    var a := s.imageBuilds[k];
    StoppedIsSetUp(s, k, 3, t);
    SameSetupMeans(s, k, t);
    UndriftedPass(t, k);
    var run := LastBuildRun(t, t.imageBuilds[k]);
    StatusFacts(t, k, run);
    SameDrift(t.imageBuilds[k], Reconcile(t, k).st.imageBuilds[k]);
    NotCalledFor(t, t.imageBuilds[k]);
    PassRests(t, k);
  }

  lemma NotCalledFor(t: World, ib: ImageBuild)
    requires !IsRebuildEnabled(ib)
    ensures !WouldTrigger(t, ib)
  {
    hide RemainingWait;
  }

  lemma RecordOnceSetUp(s: World, k: Key, n: nat, made: Made)
    requires DriftingSetUp(s, k) && AnnotationIsTrue(s.imageBuilds[k], made)
    requires s.imageBuilds[k].status.lastBuildRunRef != NextName(s.imageBuilds[k], SpecChange)
    ensures var t := Exec(s, k, Stopped(s, k, n));
            AnnotationIsTrue(t.imageBuilds[k], MadeIn(s, k, t, made)) <==>
              !(n == 3 && s.imageBuilds[k].status.lastBuildRunRef != "")
  {
    hide Reconcile, Exec, Stopped, SetUp, IsSpecDrifted, RunName, Marshal, SameSetup;
    var a, t := s.imageBuilds[k], Exec(s, k, Stopped(s, k, n));
    StoppedWorlds(s, k, n);
    SameSetupMeans(s, k, t);
    if a.status.lastBuildRunRef != "" {
      var before := made[RunKey(k, a.status.lastBuildRunRef)];
      DriftIsExact(a, before);
      MarshalRoundTrip(before);
      MarshalRoundTrip(a.spec.Inputs());
    }
  }

  // ---- two active runs -----------------------------------------------------

  predicate IsActiveRun(t: World, ib: ImageBuild, r: Key) {
    r in t.runs && IsControlledBy(t.runs[r].controller, ib) && IsActive(t.runs[r])
  }

  ghost predicate TwoActive(t: World, ib: ImageBuild) {
    exists a, b :: IsActiveRun(t, ib, a) && IsActiveRun(t, ib, b) && a != b
  }

  /** Without an active run to begin with, or without a new one, there are no two. */
  lemma OneNewIsOne(s: World, k: Key, t: World, r: Key)
    requires WellFormed(s, k) && k in t.imageBuilds && t.imageBuilds[k].uid == s.imageBuilds[k].uid
    requires OnlyActive(s, s.imageBuilds[k], s.imageBuilds[k].status.lastBuildRunRef) && KeepsRuns(s, t)
    requires RunKey(k, "") !in s.runs
    requires t.runs.Keys == s.runs.Keys ||
             (GetActiveBuildRun(s, s.imageBuilds[k]) == None && t.runs.Keys <= s.runs.Keys + {r})
    ensures !TwoActive(t, t.imageBuilds[k])
  {
    hide IsActive;
    var ib := s.imageBuilds[k];
    forall x | IsActiveRun(t, t.imageBuilds[k], x) && x in s.runs
      ensures x == RunKey(k, ib.status.lastBuildRunRef) && GetActiveBuildRun(s, ib).Some?
    {
      assert IsControlledBy(s.runs[x].controller, ib) && IsActive(s.runs[x]);
    }
  }

  /** Falling back is a pass over the world without the duplicate. */
  lemma FallBackWorld(s: World, k: Key) returns (m: World)
    requires WellFormed(s, k) && SetUp(s, k) && FallsBack(s, s.imageBuilds[k])
    ensures WellFormed(m, k) && SetUp(m, k) && !IsRebuildEnabled(m.imageBuilds[k])
    ensures Reconcile(s, k).st == Reconcile(m, k).st && m.runs == s.runs
    ensures IsSpecDrifted(m.imageBuilds[k]) == IsSpecDrifted(s.imageBuilds[k])
    ensures NextName(m.imageBuilds[k], SpecChange) == NextName(s.imageBuilds[k], SpecChange)
    ensures m.imageBuilds[k].uid == s.imageBuilds[k].uid
  {
    hide Reconcile, SetUp, IsSpecDrifted, RunName, FallBack, RemainingWait;
    m := s;
    if IsRebuildEnabled(s.imageBuilds[k]) {
      m := Apply(s, k, ClearPending);
      WriteKeepsWellFormed(s, k, ClearPending);
      RunWriteKeepsSetup(s, k, ClearPending);
      SetupCarries(s, k, m);
      SameDrift(s.imageBuilds[k], m.imageBuilds[k]);
      assert ReconcileRuns(s, k).st == ReconcileRuns(m, k).st;
      SetUpPass(s, k);
      SetUpPass(m, k);
    }
  }

  lemma FallBackCreatesSecond(s: World, k: Key)
    requires WellFormed(s, k) && SetUp(s, k) && FallsBack(s, s.imageBuilds[k]) && IsSpecDrifted(s.imageBuilds[k])
    requires GetActiveBuildRun(s, s.imageBuilds[k]).Some?
    requires RunKey(k, NextName(s.imageBuilds[k], SpecChange)) !in s.runs
    ensures TwoActive(Reconcile(s, k).st, s.imageBuilds[k])
  {
    hide Reconcile, SetUp, IsSpecDrifted, RunName, IsActive, FallsBack, AllGuarded, Exec;
    var m := FallBackWorld(s, k);
    FlowCreates(m, k);
    ReconcileObeys(s, k);
    PlanKeepsRuns(s, k, Reconcile(s, k).writes);
    var t, ib := Reconcile(s, k).st, s.imageBuilds[k];
    assert IsActiveRun(t, ib, RunKey(k, ib.status.lastBuildRunRef));
    assert IsActiveRun(t, ib, RunKey(k, NextName(ib, SpecChange)));
  }

  lemma ActiveRunKeepsRuns(s: World, k: Key)
    requires WellFormed(s, k) && SetUp(s, k) && !FallsBack(s, s.imageBuilds[k])
    requires GetActiveBuildRun(s, s.imageBuilds[k]).Some?
    ensures Reconcile(s, k).st.runs == s.runs
  {
    hide Reconcile, SetUp, RemainingWait, ReconcileStatus, IsActive;
    var run := GetActiveBuildRun(s, s.imageBuilds[k]);
    SetUpPass(s, k);
    if IsDue(s, s.imageBuilds[k]) {
      FlowOfUse(s, k, run);
      StatusFacts(s, k, run);
    } else {
      WaitRests(s, k);
    }
  }

  /** Any other pass with an active run creates none. */
  lemma OthersCreateNone(s: World, k: Key)
    requires WellFormed(s, k) && SetUp(s, k) && GetActiveBuildRun(s, s.imageBuilds[k]).Some?
    requires !(&& FallsBack(s, s.imageBuilds[k]) && IsSpecDrifted(s.imageBuilds[k])
               && RunKey(k, NextName(s.imageBuilds[k], SpecChange)) !in s.runs)
    ensures Reconcile(s, k).st.runs.Keys == s.runs.Keys
  {
    hide Reconcile, SetUp, IsSpecDrifted, RunName, FallsBack, IsDue, IsDuplicateCommit;
    if !FallsBack(s, s.imageBuilds[k]) {
      ActiveRunKeepsRuns(s, k);
    } else if !IsSpecDrifted(s.imageBuilds[k]) {
      var m := FallBackWorld(s, k);
      UndriftedPass(m, k);
    } else {
      OneRunPerPass(s, k);
      assert s.runs.Keys + {RunKey(k, NextName(s.imageBuilds[k], SpecChange))} == s.runs.Keys;
    }
  }

  lemma TwoActiveOnceSetUp(s: World, k: Key)
    requires WellFormed(s, k) && SetUp(s, k) && RunKey(k, "") !in s.runs
    requires OnlyActive(s, s.imageBuilds[k], s.imageBuilds[k].status.lastBuildRunRef)
    ensures var t, ib := Reconcile(s, k).st, s.imageBuilds[k];
            TwoActive(t, t.imageBuilds[k]) <==>
              && FallsBack(s, ib) && IsSpecDrifted(ib) && GetActiveBuildRun(s, ib).Some?
              && RunKey(k, NextName(ib, SpecChange)) !in s.runs
  {
    hide Reconcile, SetUp, IsSpecDrifted, RunName, FallsBack, AllGuarded, Exec, OnlyActive, GetActiveBuildRun,
         KeepsRuns, WouldTrigger, TwoActive;
    var t, ib := Reconcile(s, k).st, s.imageBuilds[k];
    ReconcileObeys(s, k);
    PlanKeepsRuns(s, k, Reconcile(s, k).writes);
    PassKeepsIdentity(s, k);
    if GetActiveBuildRun(s, ib).None? {
      OneRunPerPass(s, k);
      OneNewIsOne(s, k, t, RunKey(k, NextName(ib, if WouldTrigger(s, ib) then OnCommit else SpecChange)));
    } else if FallsBack(s, ib) && IsSpecDrifted(ib) && RunKey(k, NextName(ib, SpecChange)) !in s.runs {
      FallBackCreatesSecond(s, k);
      SameOwner(t, ib, t.imageBuilds[k]);
    } else {
      OthersCreateNone(s, k);
      OneNewIsOne(s, k, t, k);
    }
  }

  lemma PassKeepsIdentity(s: World, k: Key)
    requires WellFormed(s, k)
    ensures Reconcile(s, k).st.imageBuilds[k].uid == s.imageBuilds[k].uid
  {
    hide Reconcile, AllGuarded, Exec;
    ReconcileObeys(s, k);
    WritesRespectOwners(s, k, Reconcile(s, k).writes);
  }

  lemma SameOwner(t: World, a: ImageBuild, b: ImageBuild)
    requires b.uid == a.uid && TwoActive(t, a)
    ensures TwoActive(t, b)
  {
    hide IsActive;
    var x, y :| IsActiveRun(t, a, x) && IsActiveRun(t, a, y) && x != y;
    assert IsActiveRun(t, b, x) && IsActiveRun(t, b, y);
  }

  // ---- passes that set up first --------------------------------------------

  lemma MidMeans(s: World, k: Key, t: World)
    requires WellFormed(s, k) && WellFormed(t, k) && SameRuns(s, k, t)
    ensures var a, b := s.imageBuilds[k], t.imageBuilds[k];
            && IsRebuildEnabled(b) == IsRebuildEnabled(a) && IsSpecDrifted(b) == IsSpecDrifted(a)
            && NextName(b, SpecChange) == NextName(a, SpecChange) && SecondName(b) == SecondName(a)
            && t.runs == s.runs && b.key == a.key && b.uid == a.uid && b.spec == a.spec
            && b.annotations == a.annotations
            && b.status.lastBuildRunRef == a.status.lastBuildRunRef
            && b.status.buildRunCounter == a.status.buildRunCounter
            && b.status.onCommit == a.status.onCommit
  {
    hide RunName;
    SameDrift(s.imageBuilds[k], t.imageBuilds[k]);
  }

  lemma StillDrifting(s: World, k: Key, t: World)
    requires Drifting(s, k) && WellFormed(t, k) && SameRuns(s, k, t) && SetupStands(t, k)
    ensures Drifting(t, k)
  {
    hide SetupStands, RunName, IsSpecDrifted, SameRuns, IsRebuildEnabled;
    MidMeans(s, k, t);
  }

  /** The world such a pass sets up first. */
  lemma MidDrifts(s: World, k: Key)
    requires Drifting(s, k)
    ensures var mid := SetUpWorld(s, k);
            && DriftingSetUp(mid, k) && SameRuns(s, k, mid) && Reconcile(s, k).st == Reconcile(mid, k).st
  {
    hide SetupStands, RunName, IsSpecDrifted, SameRuns, IsRebuildEnabled, SetUp, SetUpWorld, Reconcile, SetupWrites;
    SetupSucceeds(s, k);
    SetUpIsDone(SetUpWorld(s, k), k);
    StillDrifting(s, k, SetUpWorld(s, k));
  }

  /** A complete pass over a drift. */
  lemma DriftingPass(s: World, k: Key)
    requires Drifting(s, k)
    ensures Reconcile(s, k).st.runs.Keys == s.runs.Keys + {RunKey(k, NextName(s.imageBuilds[k], SpecChange))}
  {
    hide SetupStands, RunName, IsSpecDrifted, SameRuns, IsRebuildEnabled, SetUp, SetUpWorld, Reconcile, SetupWrites;
    var mid := SetUpWorld(s, k);
    MidDrifts(s, k);
    MidMeans(s, k, mid);
    FlowCreates(mid, k);
  }

  /** When a specification is built twice, exactly: if the pass stops between counting the run and
      recording its inputs, or between recording them and reporting on the run if none had been
      reported on before; the second run has the following name, which somebody else may hold.
      Wherever else it stops, in its setup or later, the next complete pass finds the run or creates
      it. */
  lemma BuiltTwiceExactly(s: World, k: Key, n: nat)
    requires Drifting(s, k)
    ensures var ib, m := s.imageBuilds[k], |SetupWrites(s, k)|;
            var u := Reconcile(Exec(s, k, Stopped(s, k, n)), k).st;
            var first, second := RunKey(k, NextName(ib, SpecChange)), RunKey(k, SecondName(ib));
            u.runs.Keys == s.runs.Keys + {first} +
                           if n == m + 2 || (n == m + 3 && ib.status.lastBuildRunRef == "") then {second} else {}
  {
    hide *;
    DriftingMeans(s, k);
    var m := |SetupWrites(s, k)|;
    if n < m {
      BuiltOnceAfter(s, k, n);
    } else {
      BuiltTwiceAfter(s, k, n, n - m);
    }
  }

  /** A pass that stops after its setup. */
  lemma BuiltTwiceAfter(s: World, k: Key, n: nat, j: nat)
    requires Drifting(s, k) && n == |SetupWrites(s, k)| + j
    ensures var ib := s.imageBuilds[k];
            var u := Reconcile(Exec(s, k, Stopped(s, k, n)), k).st;
            var first, second := RunKey(k, NextName(ib, SpecChange)), RunKey(k, SecondName(ib));
            u.runs.Keys == s.runs.Keys + {first} +
                           if j == 2 || (j == 3 && ib.status.lastBuildRunRef == "") then {second} else {}
  {
    hide *;
    DriftingMeans(s, k);
    var mid := SetUpWorld(s, k);
    MidDrifts(s, k);
    StopsLater(s, k, j);
    DriftingSetUpMeans(mid, k);
    MidMeans(s, k, mid);
    BuiltTwiceOnceSetUp(mid, k, j);
  }

  lemma DriftingSetUpMeans(s: World, k: Key)
    requires DriftingSetUp(s, k)
    ensures WellFormed(s, k)
  {
    hide SetUp;
  }

  lemma DriftingMeans(s: World, k: Key)
    requires Drifting(s, k)
    ensures WellFormed(s, k) && k in s.imageBuilds && s.imageBuilds[k].key == k && SetupStands(s, k)
  {
    hide SetupStands, RunName, IsSpecDrifted;
  }

  /** A pass that stops in its setup. */
  lemma BuiltOnceAfter(s: World, k: Key, n: nat)
    requires Drifting(s, k) && n <= |SetupWrites(s, k)|
    ensures Reconcile(Exec(s, k, Stopped(s, k, n)), k).st.runs.Keys
         == s.runs.Keys + {RunKey(k, NextName(s.imageBuilds[k], SpecChange))}
  {
    hide Reconcile, Exec, Stopped, SetUp, SetUpWorld, SetupWrites, SetupStands, IsSpecDrifted, RunName, SameRuns,
         IsRebuildEnabled;
    var t := Exec(s, k, Stopped(s, k, n));
    StopsSooner(s, k, n);
    StillDrifting(s, k, t);
    MidMeans(s, k, t);
    DriftingPass(t, k);
  }

  /** A pass that stops right after creating a spec-change run leaves the drift, and a run under the
      name it needs. */
  lemma StopAfterCreateStrandsDrift(s: World, k: Key)
    requires Drifting(s, k)
    ensures var t := Exec(s, k, Stopped(s, k, |SetupWrites(s, k)| + 1));
            && t.runs.Keys == s.runs.Keys + {RunKey(k, NextName(s.imageBuilds[k], SpecChange))}
            && Stranded(t, k, SpecChange) && IsSpecDrifted(t.imageBuilds[k])
  {
    hide Reconcile, Exec, Stopped, SetUp, SetUpWorld, SetupWrites, SetupStands, IsSpecDrifted, RunName, SameRuns,
         IsRebuildEnabled, Stranded;
    var mid := SetUpWorld(s, k);
    MidDrifts(s, k);
    StopsLater(s, k, 1);
    MidMeans(s, k, mid);
    FirstStopOnceSetUp(mid, k);
  }

  /** A pass that stops between counting a spec-change run and recording its inputs makes the next
      pass create a second run, under the following name, for the same specification. */
  lemma StopBeforeRecordRepeats(s: World, k: Key)
    requires Drifting(s, k)
    requires RunKey(k, SecondName(s.imageBuilds[k])) !in s.runs
    ensures var t := Exec(s, k, Stopped(s, k, |SetupWrites(s, k)| + 2));
            var u := Reconcile(t, k).st;
            && t.imageBuilds[k].spec == s.imageBuilds[k].spec
            && t.runs.Keys == s.runs.Keys + {RunKey(k, NextName(s.imageBuilds[k], SpecChange))}
            && u.runs.Keys == t.runs.Keys + {RunKey(k, NextName(t.imageBuilds[k], SpecChange))}
            && u.runs.Keys > t.runs.Keys
  {
    hide Reconcile, Exec, Stopped, SetUp, SetUpWorld, SetupWrites, SetupStands, IsSpecDrifted, RunName, SameRuns,
         IsRebuildEnabled, NextName, SecondName;
    var mid := SetUpWorld(s, k);
    MidDrifts(s, k);
    StopsLater(s, k, 2);
    MidMeans(s, k, mid);
    SecondStopOnceSetUp(mid, k);
  }

  /** A pass that stops between recording the inputs and reporting on their run leaves an ImageBuild
      that had another run reported on before in peace: the next pass sees no drift, goes on
      reporting on the other run, and changes nothing any more.  If that run has succeeded with a
      digest, its image is reported as the output of the specification it was not made for; and
      this without any rebuild on commit. */
  lemma StopBeforeReportHidesRun(s: World, k: Key)
    requires Drifting(s, k) && s.imageBuilds[k].status.lastBuildRunRef != ""
    ensures var t := Exec(s, k, Stopped(s, k, |SetupWrites(s, k)| + 3));
            var u := Reconcile(t, k).st;
            var a, b := s.imageBuilds[k], u.imageBuilds[k];
            var r := RunKey(k, a.status.lastBuildRunRef);
            && RunKey(k, NextName(a, SpecChange)) in t.runs && u.runs == t.runs
            && b.status.lastBuildRunRef == a.status.lastBuildRunRef && b.spec == a.spec && !IsSpecDrifted(b)
            && Reconcile(u, k).st == u
            && (r in s.runs && IsSuccessful(s.runs[r]) && s.runs[r].digest != "" ==>
                  b.status.latestImage == Digested(a.spec.Inputs(), s.runs[r]))
  {
    hide Reconcile, Exec, Stopped, SetUp, SetUpWorld, SetupWrites, SetupStands, IsSpecDrifted, RunName, SameRuns,
         IsRebuildEnabled, NextName;
    var mid := SetUpWorld(s, k);
    MidDrifts(s, k);
    StopsLater(s, k, 3);
    MidMeans(s, k, mid);
    ThirdStopOnceSetUp(mid, k);
  }

  lemma SameRecordSame(s: World, k: Key, t: World, made: Made)
    requires WellFormed(s, k) && WellFormed(t, k) && SameRuns(s, k, t)
    ensures MadeIn(s, k, t, made) == made
    ensures AnnotationIsTrue(t.imageBuilds[k], made) == AnnotationIsTrue(s.imageBuilds[k], made)
    ensures forall u :: MadeIn(t, k, u, made) == MadeIn(s, k, u, made)
  {
    hide Marshal;
  }

  /** Where the record of the inputs survives a pass that stops, exactly: everywhere but between
      recording the new inputs and reporting on their run, when another was reported on before. */
  lemma RecordSurvivesExactly(s: World, k: Key, n: nat, made: Made)
    requires Drifting(s, k) && AnnotationIsTrue(s.imageBuilds[k], made)
    requires s.imageBuilds[k].status.lastBuildRunRef != NextName(s.imageBuilds[k], SpecChange)
    ensures var t := Exec(s, k, Stopped(s, k, n));
            AnnotationIsTrue(t.imageBuilds[k], MadeIn(s, k, t, made)) <==>
              !(n == |SetupWrites(s, k)| + 3 && s.imageBuilds[k].status.lastBuildRunRef != "")
  {
    hide Reconcile, Exec, Stopped, SetUp, SetUpWorld, SetupWrites, SetupStands, IsSpecDrifted, RunName, SameRuns,
         IsRebuildEnabled, NextName, AnnotationIsTrue, MadeIn;
    var m, mid := |SetupWrites(s, k)|, SetUpWorld(s, k);
    MidDrifts(s, k);
    if n < m {
      StopsSooner(s, k, n);
      SameRecordSame(s, k, Exec(s, k, Stopped(s, k, n)), made);
    } else {
      StopsLater(s, k, n - m);
      MidMeans(s, k, mid);
      SameRecordSame(s, k, mid, made);
      RecordOnceSetUp(mid, k, n - m, made);
    }
  }

  // ---- two active runs after a pass that sets up first ---------------------

  lemma MidIsAlike(s: World, k: Key, t: World)
    requires WellFormed(s, k) && WellFormed(t, k) && SameRuns(s, k, t)
    ensures var a, b := s.imageBuilds[k], t.imageBuilds[k];
            && FallsBack(t, b) == FallsBack(s, a) && GetActiveBuildRun(t, b) == GetActiveBuildRun(s, a)
            && (forall name :: OnlyActive(t, b, name) == OnlyActive(s, a, name))
  {
    hide IsActive;
  }

  /** When two runs of an ImageBuild are active after a pass, exactly, if before it none but the one
      last reported on could be: the pass goes on to the spec-change flow, which finds a drift and a
      free name, and does not look whether that run is still active. */
  lemma TwoActiveExactly(s: World, k: Key)
    requires WellFormed(s, k) && SetupStands(s, k) && RunKey(k, "") !in s.runs
    requires OnlyActive(s, s.imageBuilds[k], s.imageBuilds[k].status.lastBuildRunRef)
    ensures var t, ib := Reconcile(s, k).st, s.imageBuilds[k];
            TwoActive(t, t.imageBuilds[k]) <==>
              && FallsBack(s, ib) && IsSpecDrifted(ib) && GetActiveBuildRun(s, ib).Some?
              && RunKey(k, NextName(ib, SpecChange)) !in s.runs
  {
    hide Reconcile, SetUp, SetUpWorld, SetupWrites, SetupStands, IsSpecDrifted, RunName, SameRuns, FallsBack,
         OnlyActive, GetActiveBuildRun, TwoActive, NextName, IsRebuildEnabled;
    var mid := SetUpWorld(s, k);
    SetupSucceeds(s, k);
    MidMeans(s, k, mid);
    MidIsAlike(s, k, mid);
    TwoActiveOnceSetUp(mid, k);
  }

  /** So an edit starts a second run beside an active one. */
  lemma EditStartsSecondRun(s: World, k: Key)
    requires WellFormed(s, k) && SetupStands(s, k)
    requires !IsRebuildEnabled(s.imageBuilds[k]) && IsSpecDrifted(s.imageBuilds[k])
    requires RunKey(k, NextName(s.imageBuilds[k], SpecChange)) !in s.runs
    requires GetActiveBuildRun(s, s.imageBuilds[k]).Some?
    ensures TwoActive(Reconcile(s, k).st, Reconcile(s, k).st.imageBuilds[k])
  {
    hide Reconcile, SetUp, SetUpWorld, SetupWrites, SetupStands, IsSpecDrifted, RunName, SameRuns, GetActiveBuildRun,
         TwoActive, NextName, IsRebuildEnabled, IsDue, IsDuplicateCommit;
    var mid := SetUpWorld(s, k);
    SetupSucceeds(s, k);
    MidMeans(s, k, mid);
    MidIsAlike(s, k, mid);
    FallBackCreatesSecond(mid, k);
    PassKeepsIdentity(mid, k);
    SameOwner(Reconcile(mid, k).st, mid.imageBuilds[k], Reconcile(mid, k).st.imageBuilds[k]);
  }

  // ---- on a concrete cluster -----------------------------------------------

  lemma EditedIsDrifting(succeeded: Option<ConditionStatus>, digest: string)
    ensures Drifting(Edited(None, None, FirstRun(succeeded, digest)), APP)
  {
    hide RunName, Marshal, SetupStands, IsSpecDrifted, Verdict, SetUp;
    EditedStands(None, None, succeeded, digest);
    OtherNames(SpecChange, 2);
    OtherNames(SpecChange, 3);
  }

  /** Stopped after four writes, of which two set up, the pass over the edited specification is
      repeated by the next, with a second run for registry/two. */
  lemma ExampleBuildsTwice()
    ensures var s := Edited(None, None, FirstRun(Some(True), "sha256:a"));
            var u := Reconcile(Exec(s, APP, Stopped(s, APP, 4)), APP).st;
            && RunKey(APP, RunName("app", SpecChange, 2)) in u.runs
            && RunKey(APP, RunName("app", SpecChange, 3)) in u.runs
  {
    hide *;
    EditedIsDrifting(Some(True), "sha256:a");
    EditedSetup(Some(True), "sha256:a");
    EditedNames(Some(True), "sha256:a");
    BuiltTwiceExactly(Edited(None, None, FirstRun(Some(True), "sha256:a")), APP, 4);
  }

  lemma EditedNames(succeeded: Option<ConditionStatus>, digest: string)
    ensures var s := Edited(None, None, FirstRun(succeeded, digest));
            var ib := s.imageBuilds[APP];
            && APP in s.imageBuilds
            && RunKey(APP, NextName(ib, SpecChange)) == RunKey(APP, RunName("app", SpecChange, 2))
            && RunKey(APP, SecondName(ib)) == RunKey(APP, RunName("app", SpecChange, 3))
            && ib.status.lastBuildRunRef == FIRST_RUN != ""
            && RunKey(APP, FIRST_RUN) in s.runs && s.runs[RunKey(APP, FIRST_RUN)] == FirstRun(succeeded, digest)
            && ib.spec.Inputs().output.image == "registry/two"
  {
    hide FormatInt, Marshal, Verdict;
  }

  /** Stopped after five, it is never reported on: the image of the first run, built for
      registry/one, is reported as registry/two for good. */
  lemma ExampleHidesRun()
    ensures var s := Edited(None, None, FirstRun(Some(True), "sha256:a"));
            var u := Reconcile(Exec(s, APP, Stopped(s, APP, 5)), APP).st;
            && u.imageBuilds[APP].status.latestImage == "registry/two" + "@" + "sha256:a"
            && Reconcile(u, APP).st == u
  {
    hide *;
    EditedIsDrifting(Some(True), "sha256:a");
    EditedSetup(Some(True), "sha256:a");
    EditedNames(Some(True), "sha256:a");
    var s := Edited(None, None, FirstRun(Some(True), "sha256:a"));
    StopBeforeReportHidesRun(s, APP);
    FirstRunSucceeded(s.imageBuilds[APP].spec.Inputs(), FirstRun(Some(True), "sha256:a"));
  }

  lemma FirstRunSucceeded(inputs: BuildInputs, run: BuildRun)
    requires run == FirstRun(Some(True), "sha256:a") && inputs.output.image == "registry/two"
    ensures IsSuccessful(run) && run.digest != "" && Digested(inputs, run) == "registry/two" + "@" + "sha256:a"
  {
  }

  /** With the first run still active, the pass after the edit makes it two. */
  lemma ExampleTwoActive()
    ensures var t := Reconcile(Edited(None, None, FirstRun(Some(Unknown), "")), APP).st;
            APP in t.imageBuilds && TwoActive(t, t.imageBuilds[APP])
  {
    hide Reconcile, RunName, Marshal, SetupStands, SetUp, TwoActive, IsSpecDrifted, Verdict;
    EditedIsDrifting(Some(Unknown), "");
    EditedNames(Some(Unknown), "");
    EditStartsSecondRun(Edited(None, None, FirstRun(Some(Unknown), "")), APP);
  }
}
