/** Runs whose passes all complete: the counters are exact, at most one build is active, and the
    reported image is the one that was built. */
module CompletePasses {
  import opened ImageBuilds
  import opened Names
  import opened LastSpec
  import opened Cluster
  import opened ReconcileSpec
  import opened Guards
  import opened Protocol
  import opened Safety
  import Convergence

  predicate IsComplete(a: Action) {
    a.Pass? ==> a.stopAfter >= MAX_WRITES
  }

  /** The world after one action of such a run. */
  lemma CompleteAction(x: System, k: Key, a: Action)
    requires WellFormed(x.w, k) && IsComplete(a) && Legal(x, k, Events(x, k, a))
    ensures var y := After(x, k, Events(x, k, a));
            && (a.Pass? ==> y.w == Reconcile(x.w, k).st)
            && (a.Deliver? ==> y.w == Cluster.Deliver(x.w, k, PushRecord(a.ref, a.commitSHA, Stamp(x.w.clock))))
            && (a.Other? ==> y.w == a.next && EnvStep(x.w, k, a.next))
            && WellFormed(y.w, k)
  {
    hide Reconcile, AllGuarded, Exec, Guard;
    match a
    case Pass(n) =>
      hide Legal, After;
      ReconcileObeys(x.w, k);
      PassIsShort(x.w, k);
      StoppedPassIsLegal(x, k, n);
      assert Stopped(x.w, k, n) == Reconcile(x.w, k).writes;
      Convergence.PassKeepsWellFormed(x.w, k);
    case Deliver(ref, sha) =>
      OneEvent(x, k, Push(ref, sha));
    case Other(s) =>
      OneEvent(x, k, Environment(s));
  }

  // ---- counters ------------------------------------------------------------

  /** Creations less counts among some writes. */
  function Uncounted(ws: seq<Write>): int {
    if ws == [] then 0
    else (match ws[0] case CreateRun(_) => 1 case MarkTriggered(_, _, _) => -1 case SetCounter(_) => -1 case _ => 0)
         + Uncounted(ws[1..])
  }

  lemma {:induction false} UncountedAppend(a: seq<Write>, b: seq<Write>)
    ensures Uncounted(a + b) == Uncounted(a) + Uncounted(b)
  {
    if a == [] {
      assert a + b == b;
    } else {
      assert (a + b)[0] == a[0] && (a + b)[1..] == a[1..] + b;
      UncountedAppend(a[1..], b);
    }
  }

  lemma GetOrCreateUncounted(s: World, k: Key, desired: BuildRun)
    requires k in s.imageBuilds
    ensures var g := GetOrCreateBuildRun(s, k, desired);
            Uncounted(g.writes) == if g.ret.Ok? && g.ret.value.1 then 1 else 0
  {
    hide Apply;
  }

  lemma OnCommitIsCounted(s: World, k: Key)
    requires k in s.imageBuilds
    ensures Uncounted(ReconcileOnCommitBuildRun(s, k).writes) == 0
  {
    hide Apply, RemainingWait, GetOrCreateBuildRun, FormatInt;
    var ib := s.imageBuilds[k];
    if IsDue(s, ib) && !IsDuplicateCommit(ib) && GetActiveBuildRun(s, ib) == None {
      var oc := ib.status.onCommit.value;
      var counter := NextCounter(oc.triggerCounter);
      var desired := NewBuildRun(ib, OnCommit, counter);
      var g := GetOrCreateBuildRun(s, k, desired);
      GetOrCreateUncounted(s, k, desired);
      UncountedAppend(g.writes, []);
      UncountedAppend(g.writes, [MarkTriggered(counter, desired.name, oc.pending.value.commitSHA)]);
    }
  }

  lemma FallBackIsCounted(s: World, k: Key)
    requires k in s.imageBuilds
    ensures Uncounted(FallBack(s, k).writes) == 0
  {
    hide Apply, IsSpecDrifted, GetOrCreateBuildRun, FormatInt;
    var ib := s.imageBuilds[k];
    var counter := NextCounter(ib.status.buildRunCounter);
    var g := GetOrCreateBuildRun(s, k, NewBuildRun(ib, SpecChange, counter));
    GetOrCreateUncounted(s, k, NewBuildRun(ib, SpecChange, counter));
    UncountedAppend(g.writes, []);
    UncountedAppend(g.writes, [SetCounter(counter)]);
    var e := EnsureBuildRun(s, k);
    assert Uncounted(e.writes) == 0;
    UncountedAppend(e.writes, []);
    UncountedAppend(e.writes, [RecordSpec]);
    var d := ReconcileDefaultBuildRun(s, k);
    assert Uncounted(d.writes) == 0;
    UncountedAppend(d.writes, []);
    UncountedAppend(d.writes, [SetReady(False, BuildRunConflict)]);
    UncountedAppend(d.writes, [SetReady(False, BuildRunReconcileFailed)]);
  }

  lemma StatusIsCounted(s: World, k: Key, run: Option<BuildRun>)
    requires k in s.imageBuilds
    ensures Uncounted(ReconcileStatus(s, k, run).writes) == 0
  {
    hide Apply, Verdict, ComputeLatestImage, IsReadyCurrent;
    var a := ReportRun(s, k, run);
    var b := ReportReady(a.st, k);
    var c := ReportImage(b.st, k, run);
    UncountedAppend(a.writes, b.writes);
    UncountedAppend(a.writes + b.writes, c.writes);
    UncountedAppend(a.writes + b.writes + c.writes, []);
  }

  lemma RunsAreCounted(s: World, k: Key)
    requires k in s.imageBuilds
    ensures Uncounted(ReconcileRuns(s, k).writes) == 0
  {
    hide Apply, ReconcileOnCommitBuildRun, FallBack, ReconcileStatus, Uncounted;
    var o := ReconcileOnCommitBuildRun(s, k);
    OnCommitIsCounted(s, k);
    FallBackIsCounted(o.st, k);
    UncountedAppend(o.writes, FallBack(o.st, k).writes);
    UncountedAppend(o.writes, [SetReady(False, BuildRunReconcileFailed)]);
    NotReadyIsCounted(BuildRunReconcileFailed);
    var r := ReconcileBuildRun(s, k);
    assert Uncounted(r.writes) == 0;
    assert r.writes + [] == r.writes;
    if r.ret.Ok? && r.ret.value.Use? {
      var t := ReconcileStatus(r.st, k, r.ret.value.run);
      StatusIsCounted(r.st, k, r.ret.value.run);
      UncountedAppend(r.writes, t.writes);
      assert r.writes + t.writes + [] == r.writes + t.writes;
    }
  }

  lemma NotReadyIsCounted(reason: Reason)
    ensures Uncounted([SetReady(False, reason)]) == 0
  {
  }

  lemma SetupIsCounted(s: World, k: Key)
    requires k in s.imageBuilds
    ensures Uncounted(EnsureOnCommitLabel(s, k).writes) == 0
    ensures Uncounted(ValidateWebhookSecret(s, k).writes) == 0
    ensures Uncounted(ReconcileBuild(s, k).writes) == 0
  {
    hide Apply, NewBuildSpec;
    if s.policy.Some? {
      var e := EnsureBuild(s, k, s.policy.value, SelectedStrategy(s.imageBuilds[k], s.policy.value));
      assert Uncounted(e.writes) == 0;
      if e.ret.Err? {
        UncountedAppend(e.writes, [SetReady(False, BuildFailureReason(e.ret.error))]);
      } else {
        UncountedAppend(e.writes, PatchBuildRef(e.st, k).writes);
      }
    }
  }

  /** A complete pass counts every run it creates. */
  lemma PassIsCounted(s: World, k: Key)
    requires k in s.imageBuilds
    ensures Uncounted(Reconcile(s, k).writes) == 0
  {
    hide Apply, EnsureOnCommitLabel, ValidateWebhookSecret, ReconcileBuild, ReconcileRuns, Uncounted;
    var l := EnsureOnCommitLabel(s, k);
    SetupIsCounted(s, k);
    var v := ValidateWebhookSecret(l.st, k);
    SetupIsCounted(l.st, k);
    UncountedAppend(l.writes, v.writes);
    assert l.writes + v.writes + [] == l.writes + v.writes;
    if v.ret.Ok? {
      var b := ReconcileBuild(v.st, k);
      SetupIsCounted(v.st, k);
      UncountedAppend(l.writes + v.writes, b.writes);
      assert l.writes + v.writes + b.writes + [] == l.writes + v.writes + b.writes;
      RunsAreCounted(b.st, k);
      UncountedAppend(l.writes + v.writes + b.writes, ReconcileRuns(b.st, k).writes);
    }
  }

  /** How many creations are not counted yet. */
  function Excess(x: System, k: Key): int
    requires k in x.w.imageBuilds
  {
    var ib := x.w.imageBuilds[k];
    |x.h.created| - Counter(ib, SpecChange) - Counter(ib, OnCommit)
  }

  lemma WriteChangesExcess(x: System, k: Key, w: Write, steps: nat)
    requires Inv(x, k, steps) && steps < MAX_INT64 && Guard(x.w, k, w)
    ensures Excess(Next(x, k, Reconciler(w)), k) == Excess(x, k) + Uncounted([w])
  {
    hide PushesKept, TriggersSpaced, TriggersRecorded, TimesInOrder, ReportsOwnRun, RemainingWait, RunName, OwnsRun,
         CountersAgree, GenerationsOrdered;
    CountersNonNegative(x, k);
    assert [w][1..] == [];
    if w.MarkTriggered? {
      PendingWasReceived(x.h, x.w.imageBuilds[k].status.onCommit);
    }
  }

  lemma {:induction false} WritesChangeExcess(x: System, k: Key, ws: seq<Write>, steps: nat)
    requires Inv(x, k, steps) && k in x.w.imageBuilds && AllGuarded(x.w, k, ws) && steps + |ws| <= MAX_INT64
    requires Legal(x, k, AsEvents(ws))
    ensures Excess(After(x, k, AsEvents(ws)), k) == Excess(x, k) + Uncounted(ws)
    decreases |ws|
  {
    hide Inv, Guard, Apply, Recorded, Excess;
    if ws != [] {
      var es := AsEvents(ws);
      assert es[0] == Reconciler(ws[0]) && es[1..] == AsEvents(ws[1..]);
      WriteChangesExcess(x, k, ws[0], steps);
      StepKeepsInv(x, k, es[0], steps);
      WritesChangeExcess(Next(x, k, es[0]), k, ws[1..], steps + 1);
      UncountedAppend([ws[0]], ws[1..]);
      assert [ws[0]] + ws[1..] == ws;
    }
  }

  lemma ActionKeepsExcess(x: System, k: Key, a: Action, steps: nat)
    requires Inv(x, k, steps) && k in x.w.imageBuilds && IsComplete(a) && Legal(x, k, Events(x, k, a))
    requires steps + MAX_WRITES <= MAX_INT64
    ensures Excess(After(x, k, Events(x, k, a)), k) == Excess(x, k)
  {
    hide Inv;
    match a
    case Pass(n) =>
      hide Legal, After, Excess, Reconcile, Stopped;
      PassKeepsExcess(x, k, n, steps);
    case Deliver(ref, sha) =>
      OneEvent(x, k, Push(ref, sha));
    case Other(s) =>
      OneEvent(x, k, Environment(s));
  }

  lemma PassKeepsExcess(x: System, k: Key, n: nat, steps: nat)
    requires Inv(x, k, steps) && k in x.w.imageBuilds && n >= MAX_WRITES && steps + MAX_WRITES <= MAX_INT64
    requires Legal(x, k, AsEvents(Stopped(x.w, k, n)))
    ensures Excess(After(x, k, AsEvents(Stopped(x.w, k, n))), k) == Excess(x, k)
  {
    hide Reconcile, AllGuarded, Exec, Legal, After, Excess, Inv;
    InvParts(x, k, steps);
    ReconcileObeys(x.w, k);
    PassIsShort(x.w, k);
    PassIsCounted(x.w, k);
    assert Stopped(x.w, k, n) == Reconcile(x.w, k).writes;
    WritesChangeExcess(x, k, Reconcile(x.w, k).writes, steps);
  }

  lemma {:induction false} RunsKeepExcess(x: System, k: Key, acts: seq<Action>, steps: nat)
    requires Inv(x, k, steps) && k in x.w.imageBuilds && LegalRun(x, k, acts)
    requires steps + MAX_WRITES * |acts| <= MAX_INT64
    requires forall a :: a in acts ==> IsComplete(a)
    ensures Excess(Play(x, k, acts), k) == Excess(x, k)
    decreases |acts|
  {
    hide Inv, Legal, After, Events, Excess;
    if acts != [] {
      var es := Events(x, k, acts[0]);
      assert acts[0] in acts;
      EventsAreShort(x, k, acts[0]);
      ActionKeepsExcess(x, k, acts[0], steps);
      RunKeepsInv(x, k, es, steps);
      RunsKeepExcess(After(x, k, es), k, acts[1..], steps + |es|);
    }
  }

  lemma {:induction false} SizeUpTo(s: set<int>, n: nat)
    requires IsUpTo(s, n)
    ensures |s| == n
  {
    if n == 0 {
      assert forall i: int :: i in s <==> 1 <= i <= 0;
      assert s == {};
    } else {
      SizeUpTo(s - {n}, n - 1);
      assert s == s - {n} + {n};
    }
  }

  lemma {:induction false} IndicesAreFew(h: History)
    ensures |Indices(h, SpecChange)| + |Indices(h, OnCommit)| <= |h.created|
    decreases |h.created|
  {
    if |h.created| == 0 {
      assert Indices(h, SpecChange) == {} && Indices(h, OnCommit) == {};
    } else {
      var n := |h.created| - 1;
      var g := h.(created := h.created[..n]);
      assert h == g.(created := g.created + [h.created[n]]);
      IndicesAppend(g, h.created[n], SpecChange);
      IndicesAppend(g, h.created[n], OnCommit);
      IndicesAreFew(g);
    }
  }

  lemma ExactFromExcess(x: System, k: Key)
    requires k in x.w.imageBuilds && CountersAgree(x, k) && Excess(x, k) == 0
    ensures var ib := x.w.imageBuilds[k];
            && IsUpTo(Indices(x.h, SpecChange), Counter(ib, SpecChange))
            && IsUpTo(Indices(x.h, OnCommit), Counter(ib, OnCommit))
  {
    hide Indices;
    var ib := x.w.imageBuilds[k];
    var s, o := Indices(x.h, SpecChange), Indices(x.h, OnCommit);
    var m, n := Counter(ib, SpecChange), Counter(ib, OnCommit);
    IndicesAreFew(x.h);
    SizeUpTo(s, if IsUpTo(s, m) then m else m + 1);
    SizeUpTo(o, if IsUpTo(o, n) then n else n + 1);
  }

  /** When passes complete, the counters are exact: in either family the runs ever created have
      the indices 1 up to the counter, and there were as many creations as the counters say, so
      none was made twice. */
  lemma CountersAreExact(x: System, k: Key, acts: seq<Action>)
    requires IsRun(x, k, acts) && forall a :: a in acts ==> IsComplete(a)
    ensures var y := Play(x, k, acts);
            var ib := y.w.imageBuilds[k];
            && IsUpTo(Indices(y.h, SpecChange), ib.status.buildRunCounter)
            && IsUpTo(Indices(y.h, OnCommit), TriggerCounter(ib.status.onCommit))
            && |y.h.created| == ib.status.buildRunCounter + TriggerCounter(ib.status.onCommit)
  {
    hide Inv, LegalRun, Play, Indices, IsUpTo;
    InitInv(x, k);
    var n := RunsAreSafe(x, k, acts);
    RunsKeepExcess(x, k, acts, 0);
    InvPushes(Play(x, k, acts), k, n);
    ExactFromExcess(Play(x, k, acts), k);
  }

  lemma InvParts(x: System, k: Key, steps: nat)
    requires Inv(x, k, steps)
    ensures WellFormed(x.w, k) && CountersAgree(x, k)
    ensures forall f :: Counter(x.w.imageBuilds[k], f) <= steps
  {
  }

  /** Between complete passes, the ImageBuild controls no run under the next name of a family. */
  lemma NextIsFree(x: System, k: Key, f: Family)
    requires k in x.w.imageBuilds && x.w.imageBuilds[k].key == k && CountersAgree(x, k) && Excess(x, k) == 0
    requires Counter(x.w.imageBuilds[k], f) < MAX_INT64
    ensures !OwnsRun(x.w, x.w.imageBuilds[k], NextName(x.w.imageBuilds[k], f))
  {
    hide OwnsRun, Indices, RunName;
    ExactFromExcess(x, k);
  }

  lemma NextIsFreeAfter(x: System, k: Key, acts: seq<Action>, f: Family)
    requires IsRun(x, k, acts) && MAX_WRITES * |acts| < MAX_INT64 && forall a :: a in acts ==> IsComplete(a)
    ensures var s := Play(x, k, acts).w;
            WellFormed(s, k) && !OwnsRun(s, s.imageBuilds[k], NextName(s.imageBuilds[k], f))
  {
    hide Inv, LegalRun, Play, Excess, CountersAgree, OwnsRun, RunName, AllEvents, Counter, After, Legal;
    var y := Play(x, k, acts);
    InitInv(x, k);
    FreshExcess(x, k);
    RunsKeepExcess(x, k, acts, 0);
    RunsAreEvents(x, k, acts);
    RunKeepsInv(x, k, AllEvents(x, k, acts), 0);
    InvParts(y, k, |AllEvents(x, k, acts)|);
    NextIsFree(y, k, f);
  }

  lemma FreshExcess(x: System, k: Key)
    requires Init(x, k)
    ensures Excess(x, k) == 0
  {
  }

  // ---- one active run ------------------------------------------------------

  /** A BuildRun of the ImageBuild that is still active has this name. */
  ghost predicate OnlyActive(s: World, ib: ImageBuild, name: string) {
    forall r :: r in s.runs && IsControlledBy(s.runs[r].controller, ib) && IsActive(s.runs[r]) ==>
      r == RunKey(ib.key, name)
  }

  /** The build inputs are those last built, and a BuildRun of the ImageBuild that is still active
      is the one last reported on. */
  ghost predicate OneActive(s: World, k: Key)
    requires k in s.imageBuilds
  {
    var ib := s.imageBuilds[k];
    !IsSpecDrifted(ib) && OnlyActive(s, ib, ib.status.lastBuildRunRef)
  }

  /** The environment leaves the build inputs alone, and no run that has finished starts again. */
  ghost predicate KeepsInputs(s: World, k: Key, t: World)
    requires k in s.imageBuilds && k in t.imageBuilds
  {
    && t.imageBuilds[k].spec.Inputs() == s.imageBuilds[k].spec.Inputs()
    && forall r :: r in s.runs && r in t.runs && IsActive(t.runs[r]) ==> IsActive(s.runs[r])
  }

  ghost predicate KeepsInputsThroughout(x: System, k: Key, acts: seq<Action>)
    requires k in x.w.imageBuilds && LegalRun(x, k, acts)
    decreases |acts|
  {
    acts == [] ||
    (var y := After(x, k, Events(x, k, acts[0]));
     (acts[0].Other? ==> KeepsInputs(x.w, k, y.w)) && KeepsInputsThroughout(y, k, acts[1..]))
  }

  lemma DriftByInputs(a: ImageBuild, b: ImageBuild)
    requires b.spec.Inputs() == a.spec.Inputs() && SameRecord(a, b)
    requires !IsSpecDrifted(a) && b.status.lastBuildRunRef != ""
    ensures !IsSpecDrifted(b)
  {
    hide Unmarshal;
  }

  lemma UndriftedIsNamed(ib: ImageBuild)
    requires !IsSpecDrifted(ib)
    ensures ib.status.lastBuildRunRef != ""
  {
    hide Unmarshal;
  }

  /** With no run to wait for, no run of the ImageBuild is active. */
  lemma NoneActive(s: World, k: Key, name: string)
    requires WellFormed(s, k) && OneActive(s, k) && GetActiveBuildRun(s, s.imageBuilds[k]) == None
    ensures OnlyActive(s, s.imageBuilds[k], name)
  {
    hide IsSpecDrifted, IsActive;
    UndriftedIsNamed(s.imageBuilds[k]);
  }

  /** Reporting on the only run that may be active. */
  lemma ReportKeepsOneActive(s: World, k: Key, run: Option<BuildRun>)
    requires WellFormed(s, k) && !IsSpecDrifted(s.imageBuilds[k])
    requires OnlyActive(s, s.imageBuilds[k],
                        if run.Some? then run.value.name else s.imageBuilds[k].status.lastBuildRunRef)
    requires run.Some? ==> run.value.name != ""
    ensures OneActive(ReconcileStatus(s, k, run).st, k)
  {
    hide ReconcileStatus, IsSpecDrifted, IsReadyCurrent, Verdict, ComputeLatestImage, IsActive;
    Convergence.StatusFacts(s, k, run);
    UndriftedIsNamed(s.imageBuilds[k]);
    DriftByInputs(s.imageBuilds[k], ReconcileStatus(s, k, run).st.imageBuilds[k]);
  }

  lemma ProceedKeepsOneActive(s: World, k: Key)
    requires WellFormed(s, k) && OneActive(s, k) && ReconcileOnCommitBuildRun(s, k).ret == Ok(Proceed)
    ensures var m := ReconcileOnCommitBuildRun(s, k).st; WellFormed(m, k) && OneActive(m, k)
  {
    hide RemainingWait, IsSpecDrifted, IsActive, RunName;
    UndriftedIsNamed(s.imageBuilds[k]);
    DriftByInputs(s.imageBuilds[k], ReconcileOnCommitBuildRun(s, k).st.imageBuilds[k]);
  }

  /** The spec-change flow without drift. */
  lemma UndriftedFallBack(s: World, k: Key)
    requires WellFormed(s, k) && OneActive(s, k) && ReconcileOnCommitBuildRun(s, k).ret == Ok(Proceed)
    ensures OneActive(ReconcileRuns(s, k).st, k)
  {
    hide ReconcileStatus, ReconcileOnCommitBuildRun, IsSpecDrifted, ReconcileDefaultBuildRun, IsActive, OnlyActive;
    var m := ReconcileOnCommitBuildRun(s, k).st;
    ProceedKeepsOneActive(s, k);
    UndriftedIsNamed(m.imageBuilds[k]);
    Convergence.NoDriftFlow(m, k);
    ReportKeepsOneActive(m, k, LastBuildRun(m, m.imageBuilds[k]));
  }

  lemma NamesAreNotEmpty(ib: ImageBuild, f: Family)
    ensures NextName(ib, f) != ""
  {
    hide FormatInt;
  }

  /** The on-commit flow with a run, existing or new. */
  lemma OnCommitRunFacts(s: World, k: Key)
    requires WellFormed(s, k) && OneActive(s, k) && HasPending(s.imageBuilds[k])
    requires GetActiveBuildRun(s, s.imageBuilds[k]) == None && EnsureOnCommitBuildRun(s, k).ret.Ok?
    ensures var e := EnsureOnCommitBuildRun(s, k);
            var a, b := s.imageBuilds[k], e.st.imageBuilds[k];
            && e.ret.value.Use? && e.ret.value.run.Some?
            && e.ret.value.run.value.name == NextName(a, OnCommit) != ""
            && OnlyActive(e.st, b, NextName(a, OnCommit)) && !IsSpecDrifted(b)
  {
    hide IsSpecDrifted, RunName, IsActive;
    var ib, e := s.imageBuilds[k], EnsureOnCommitBuildRun(s, k);
    NamesAreNotEmpty(ib, OnCommit);
    NoneActive(s, k, NextName(ib, OnCommit));
    assert !IsSpecDrifted(e.st.imageBuilds[k]) by {
      UndriftedIsNamed(ib);
      DriftByInputs(ib, e.st.imageBuilds[k]);
    }
  }

  lemma OnCommitRunKeepsOneActive(s: World, k: Key)
    requires WellFormed(s, k) && OneActive(s, k)
    requires IsDue(s, s.imageBuilds[k]) && !IsDuplicateCommit(s.imageBuilds[k])
    requires GetActiveBuildRun(s, s.imageBuilds[k]) == None && EnsureOnCommitBuildRun(s, k).ret.Ok?
    ensures OneActive(ReconcileRuns(s, k).st, k)
  {
    hide ReconcileStatus, RemainingWait, IsSpecDrifted, EnsureOnCommitBuildRun, RunName, OnlyActive, OneActive,
         GetActiveBuildRun, FallBack;
    var e := EnsureOnCommitBuildRun(s, k);
    EnsureOnCommitObeys(s, k);
    OnCommitRunFacts(s, k);
    ReportKeepsOneActive(e.st, k, e.ret.value.run);
  }

  lemma RunsKeepOneActive(s: World, k: Key)
    requires WellFormed(s, k) && OneActive(s, k)
    ensures OneActive(ReconcileRuns(s, k).st, k)
  {
    hide ReconcileStatus, RemainingWait, IsSpecDrifted, FormatInt, IsActive, IsReadyCurrent, EnsureOnCommitBuildRun,
         FallBack;
    var ib := s.imageBuilds[k];
    UndriftedIsNamed(ib);
    if !IsRebuildEnabled(ib) || (IsDue(s, ib) && IsDuplicateCommit(ib)) {
      UndriftedFallBack(s, k);
    } else if !IsDue(s, ib) {
      Convergence.WaitRests(s, k);
    } else if GetActiveBuildRun(s, ib).Some? {
      ReportKeepsOneActive(s, k, GetActiveBuildRun(s, ib));
      Convergence.FlowOfUse(s, k, GetActiveBuildRun(s, ib));
    } else if EnsureOnCommitBuildRun(s, k).ret.Ok? {
      OnCommitRunKeepsOneActive(s, k);
    } else {
      ConflictKeepsOneActive(s, k);
    }
  }

  lemma ConflictKeepsOneActive(s: World, k: Key)
    requires WellFormed(s, k) && OneActive(s, k)
    requires IsDue(s, s.imageBuilds[k]) && !IsDuplicateCommit(s.imageBuilds[k])
    requires GetActiveBuildRun(s, s.imageBuilds[k]) == None && EnsureOnCommitBuildRun(s, k).ret.Err?
    ensures OneActive(ReconcileRuns(s, k).st, k)
  {
    hide ReconcileStatus, RemainingWait, IsSpecDrifted, FormatInt, IsActive;
    UndriftedIsNamed(s.imageBuilds[k]);
    DriftByInputs(s.imageBuilds[k], ReconcileRuns(s, k).st.imageBuilds[k]);
  }

  lemma PassKeepsOneActive(s: World, k: Key)
    requires WellFormed(s, k) && OneActive(s, k)
    ensures OneActive(Reconcile(s, k).st, k)
  {
    hide Reconcile, ReconcileRuns, ReconcileBuild, IsSpecDrifted, IsActive;
    var mid, failure := Convergence.PassSplits(s, k);
    UndriftedIsNamed(s.imageBuilds[k]);
    DriftByInputs(s.imageBuilds[k], mid.imageBuilds[k]);
    if failure.Some? {
      DriftByInputs(s.imageBuilds[k], Reconcile(s, k).st.imageBuilds[k]);
    } else {
      RunsKeepOneActive(mid, k);
    }
  }

  lemma EnvironmentKeepsOneActive(s: World, k: Key, t: World)
    requires WellFormed(s, k) && OneActive(s, k) && EnvStep(s, k, t) && KeepsInputs(s, k, t)
    ensures OneActive(t, k)
  {
    hide IsSpecDrifted;
    UndriftedIsNamed(s.imageBuilds[k]);
    DriftByInputs(s.imageBuilds[k], t.imageBuilds[k]);
  }

  lemma DeliveryKeepsOneActive(s: World, k: Key, e: PushRecord)
    requires k in s.imageBuilds && OneActive(s, k)
    ensures OneActive(Cluster.Deliver(s, k, e), k)
  {
    hide IsSpecDrifted;
    UndriftedIsNamed(s.imageBuilds[k]);
    DriftByInputs(s.imageBuilds[k], Cluster.Deliver(s, k, e).imageBuilds[k]);
  }

  /** While the build inputs are not edited, all an ImageBuild's active BuildRuns are the one it
      last reported on: for any pushes, completions, deletions, other edits and delays, no two
      builds of it are ever active together. */
  lemma {:induction false} OneActiveRun(x: System, k: Key, acts: seq<Action>)
    requires WellFormed(x.w, k) && OneActive(x.w, k)
    requires LegalRun(x, k, acts) && KeepsInputsThroughout(x, k, acts)
    requires forall a :: a in acts ==> IsComplete(a)
    ensures OneActive(Play(x, k, acts).w, k)
    decreases |acts|
  {
    hide Legal, After, Events, OneActive, EnvStep;
    if acts != [] {
      var a := acts[0];
      var y := After(x, k, Events(x, k, a));
      assert a in acts;
      CompleteAction(x, k, a);
      match a {
        case Pass(_) => PassKeepsOneActive(x.w, k);
        case Deliver(ref, sha) => DeliveryKeepsOneActive(x.w, k, PushRecord(ref, sha, Stamp(x.w.clock)));
        case Other(t) => EnvironmentKeepsOneActive(x.w, k, t);
      }
      OneActiveRun(y, k, acts[1..]);
    }
  }
}
