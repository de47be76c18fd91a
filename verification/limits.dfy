/** What stopping between two writes costs: where the guarantees of complete passes end, and
    exactly on what they depend. */
module Limits {
  import opened ImageBuilds
  import opened Names
  import opened Cluster
  import opened ReconcileSpec
  import opened Guards
  import opened Protocol
  import opened Safety
  import opened CompletePasses
  import opened Convergence
  import opened Progress
  import LatestImage

  /** The ImageBuild already controls a run under the next name of a family: the run whose creation
      was not followed by its count. */
  predicate Stranded(s: World, k: Key, f: Family)
    requires k in s.imageBuilds
  {
    OwnsRun(s, s.imageBuilds[k], NextName(s.imageBuilds[k], f))
  }

  /** What the triggers of a family leave behind in the status. */
  ghost predicate SameTriggers(a: ImageBuild, b: ImageBuild, f: Family) {
    && b.key == a.key && b.uid == a.uid && Counter(b, f) == Counter(a, f)
    && (f == OnCommit ==> LastTriggered(b.status.onCommit) == LastTriggered(a.status.onCommit))
  }

  // ---- stops and the setup -------------------------------------------------

  lemma TakeMore<T>(a: seq<T>, b: seq<T>, n: nat)
    ensures (a + b)[..Min(|a| + n, |a + b|)] == a + b[..Min(n, |b|)]
  {
  }

  /** A pass that stops n writes after its setup has done what a pass over the world set up does in n
      writes. */
  lemma StopsLater(s: World, k: Key, n: nat)
    requires WellFormed(s, k) && SetupStands(s, k)
    ensures Exec(s, k, Stopped(s, k, |SetupWrites(s, k)| + n))
         == Exec(SetUpWorld(s, k), k, Stopped(SetUpWorld(s, k), k, n))
  {
    hide Reconcile, Exec, SetupWrites, SetUpWorld, SetupStands, SetUp, AllGuarded;
    var mid, ws := SetUpWorld(s, k), SetupWrites(s, k);
    SetupSucceeds(s, k);
    SetupObeys(s, k);
    TakeMore(ws, Reconcile(mid, k).writes, n);
    ExecAppend(s, k, ws, Stopped(mid, k, n));
  }

  /** A pass that stops within its setup leaves the setup standing and the runs as they were. */
  lemma StopsSooner(s: World, k: Key, n: nat)
    requires WellFormed(s, k) && SetupStands(s, k) && n <= |SetupWrites(s, k)|
    ensures var t := Exec(s, k, Stopped(s, k, n)); WellFormed(t, k) && SetupStands(t, k) && SameRuns(s, k, t)
  {
    hide Reconcile, Exec, SetupWrites, SetUpWorld, SetupStands, SetUp, AllGuarded, SetupWritesOnly;
    var ws := SetupWrites(s, k);
    SetupSucceeds(s, k);
    SetupObeys(s, k);
    SetupMakesSetupWrites(s, k);
    assert Stopped(s, k, n) == ws[..n];
    GuardedPrefix(s, k, ws, n);
    SomeSetupWrites(ws, n);
    SetupWritesKeepStanding(s, k, ws[..n]);
  }

  lemma SomeSetupWrites(ws: seq<Write>, n: nat)
    requires n <= |ws| && SetupWritesOnly(ws)
    ensures SetupWritesOnly(ws[..n])
  {
  }

  /** There is no setup to do for an ImageBuild that is set up. */
  lemma SetUpIsDone(s: World, k: Key)
    requires WellFormed(s, k) && SetUp(s, k)
    ensures SetupStands(s, k) && SetupWrites(s, k) == [] && SetUpWorld(s, k) == s
  {
    hide NewBuildSpec;
    var b := s.builds[BuildKey(k)];
    assert b.labels[LABEL_PARENT := s.imageBuilds[k].key.name] == b.labels;
  }

  // ---- a trigger cut short -------------------------------------------------

  function NewOnCommitRun(ib: ImageBuild): BuildRun {
    NewBuildRun(ib, OnCommit, NextCounter(Counter(ib, OnCommit))).(controller := Some(OwnerOf(ib)))
  }

  lemma TriggerWrites(s: World, k: Key)
    requires WellFormed(s, k) && WouldTrigger(s, s.imageBuilds[k])
    ensures var ws := ReconcileRuns(s, k).writes; |ws| > 1 && ws[0] == CreateRun(NewOnCommitRun(s.imageBuilds[k]))
  {
    hide ReconcileStatus, RemainingWait, FormatInt, Apply;
  }

  lemma CreateStrands(s: World, k: Key)
    requires WellFormed(s, k)
    ensures var t := Apply(s, k, CreateRun(NewOnCommitRun(s.imageBuilds[k])));
            && t.imageBuilds == s.imageBuilds
            && t.runs.Keys == s.runs.Keys + {RunKey(k, NextName(s.imageBuilds[k], OnCommit))}
            && Stranded(t, k, OnCommit)
  {
    hide RunName;
  }

  lemma FirstWriteStrands(s: World, k: Key)
    requires WellFormed(s, k) && SetUp(s, k) && WouldTrigger(s, s.imageBuilds[k])
    ensures var t := Exec(s, k, Stopped(s, k, 1));
            && t.imageBuilds == s.imageBuilds
            && t.runs.Keys == s.runs.Keys + {RunKey(k, NextName(s.imageBuilds[k], OnCommit))}
            && Stranded(t, k, OnCommit)
  {
    hide Reconcile, ReconcileRuns, RunName, Apply, Exec, Stranded, SetUp, WouldTrigger;
    SetUpWrites(s, k);
    TriggerWrites(s, k);
    var ws := Reconcile(s, k).writes;
    assert Stopped(s, k, 1) == [ws[0]];
    ExecOne(s, k, ws[0]);
    CreateStrands(s, k);
  }

  lemma MidWouldTrigger(s: World, k: Key, mid: World)
    requires WellFormed(s, k) && WellFormed(mid, k) && SameRuns(s, k, mid)
    ensures WouldTrigger(mid, mid.imageBuilds[k]) == WouldTrigger(s, s.imageBuilds[k])
    ensures HasPending(mid.imageBuilds[k]) == HasPending(s.imageBuilds[k])
    ensures forall f :: NextName(mid.imageBuilds[k], f) == NextName(s.imageBuilds[k], f)
  {
    hide RunName;
    SameTrigger(s, k, mid);
  }

  /** A pass that stops between creating an on-commit run and marking the trigger leaves the push
      pending, and a run under the name that the push would need. */
  lemma StopAfterCreateStrands(s: World, k: Key)
    requires WellFormed(s, k) && SetupStands(s, k) && WouldTrigger(s, s.imageBuilds[k])
    ensures var t := Exec(s, k, Stopped(s, k, |SetupWrites(s, k)| + 1));
            && t.imageBuilds == SetUpWorld(s, k).imageBuilds && HasPending(t.imageBuilds[k])
            && t.runs.Keys == s.runs.Keys + {RunKey(k, NextName(s.imageBuilds[k], OnCommit))}
            && Stranded(t, k, OnCommit)
  {
    hide Reconcile, Exec, Stopped, SetupWrites, SetUpWorld, SetupStands, SetUp, WouldTrigger, RunName, Stranded;
    var mid := SetUpWorld(s, k);
    SetupSucceeds(s, k);
    StopsLater(s, k, 1);
    MidWouldTrigger(s, k, mid);
    FirstWriteStrands(mid, k);
    WouldTriggerMeans(s, s.imageBuilds[k]);
  }

  lemma WouldTriggerMeans(s: World, ib: ImageBuild)
    requires WouldTrigger(s, ib)
    ensures HasPending(ib)
  {
  }

  // ---- stranded for good ---------------------------------------------------

  predicate IsCount(w: Write, f: Family) {
    match f
    case SpecChange => w.SetCounter?
    case OnCommit => w.MarkTriggered?
  }

  ghost predicate NoCountIn(ws: seq<Write>, f: Family) {
    forall w :: w in ws ==> !IsCount(w, f)
  }

  lemma OtherWriteKeepsTriggers(ib: ImageBuild, now: int, w: Write, f: Family)
    requires !IsCount(w, f)
    ensures SameTriggers(ib, Written(ib, now, w), f)
  {
  }

  lemma {:induction false} OtherWritesKeepTriggers(s: World, k: Key, ws: seq<Write>, f: Family)
    requires k in s.imageBuilds && NoCountIn(ws, f)
    ensures SameTriggers(s.imageBuilds[k], Exec(s, k, ws).imageBuilds[k], f)
    decreases |ws|
  {
    hide Written;
    if ws != [] {
      assert ws[0] in ws;
      OtherWriteKeepsTriggers(s.imageBuilds[k], s.clock, ws[0], f);
      OtherWritesKeepTriggers(Apply(s, k, ws[0]), k, ws[1..], f);
    }
  }

  lemma OnCommitDoesNotTrigger(s: World, k: Key)
    requires WellFormed(s, k) && Stranded(s, k, OnCommit)
    ensures NoCountIn(ReconcileOnCommitBuildRun(s, k).writes, OnCommit)
  {
    hide RemainingWait, RunName, Apply, IsDuplicateCommit, GetActiveBuildRun;
  }

  lemma OnCommitDoesNotCount(s: World, k: Key)
    requires k in s.imageBuilds
    ensures NoCountIn(ReconcileOnCommitBuildRun(s, k).writes, SpecChange)
  {
    hide RemainingWait, RunName, Apply, IsDuplicateCommit, GetActiveBuildRun;
  }

  lemma FallBackDoesNotTrigger(s: World, k: Key)
    requires k in s.imageBuilds
    ensures NoCountIn(FallBack(s, k).writes, OnCommit)
  {
    hide RunName, Apply, IsSpecDrifted;
  }

  lemma FallBackDoesNotCount(s: World, k: Key)
    requires WellFormed(s, k) && Stranded(s, k, SpecChange)
    ensures NoCountIn(FallBack(s, k).writes, SpecChange)
  {
    hide RunName, Apply, IsSpecDrifted;
  }

  lemma StagesDoNotCount(s: World, k: Key, f: Family)
    requires WellFormed(s, k) && Stranded(s, k, f)
    ensures NoCountIn(ReconcileOnCommitBuildRun(s, k).writes, f) && NoCountIn(FallBack(s, k).writes, f)
  {
    hide ReconcileOnCommitBuildRun, FallBack, Stranded, NoCountIn;
    match f
    case SpecChange =>
      OnCommitDoesNotCount(s, k);
      FallBackDoesNotCount(s, k);
    case OnCommit =>
      OnCommitDoesNotTrigger(s, k);
      FallBackDoesNotTrigger(s, k);
  }

  lemma StatusDoesNotCount(s: World, k: Key, run: Option<BuildRun>, f: Family)
    requires k in s.imageBuilds
    ensures NoCountIn(ReconcileStatus(s, k, run).writes, f)
  {
    hide Verdict, Apply, ComputeLatestImage, IsReadyCurrent;
  }

  lemma RunsDoNotCount(s: World, k: Key, f: Family)
    requires WellFormed(s, k) && Stranded(s, k, f)
    ensures NoCountIn(ReconcileRuns(s, k).writes, f)
  {
    hide ReconcileOnCommitBuildRun, FallBack, ReconcileStatus, Stranded, AllGuarded, Exec, KeepsRuns, Apply;
    var o := ReconcileOnCommitBuildRun(s, k);
    OnCommitObeys(s, k);
    PlanKeepsRuns(s, k, o.writes);
    StagesDoNotCount(s, k, f);
    OtherWritesKeepTriggers(s, k, o.writes, f);
    StillStranded(s, k, o.st, f);
    StagesDoNotCount(o.st, k, f);
    var r := ReconcileBuildRun(s, k);
    assert NoCountIn(r.writes, f);
    if r.ret.Ok? && r.ret.value.Use? {
      StatusDoesNotCount(r.st, k, r.ret.value.run, f);
    }
  }

  lemma SetupDoesNotCount(s: World, k: Key, f: Family)
    requires k in s.imageBuilds
    ensures NoCountIn(EnsureOnCommitLabel(s, k).writes, f)
    ensures NoCountIn(ValidateWebhookSecret(s, k).writes, f)
    ensures NoCountIn(ReconcileBuild(s, k).writes, f)
  {
    hide Apply, NewBuildSpec;
  }

  lemma MidIsStranded(s: World, k: Key, mid: World, f: Family)
    requires WellFormed(s, k) && WellFormed(mid, k) && SameRuns(s, k, mid) && Stranded(s, k, f)
    ensures Stranded(mid, k, f)
  {
    hide RunName;
  }

  /** A pass over a stranded ImageBuild has no count of the family in its plan. */
  lemma PlanDoesNotCount(s: World, k: Key, f: Family)
    requires WellFormed(s, k) && Stranded(s, k, f)
    ensures NoCountIn(Reconcile(s, k).writes, f)
  {
    hide EnsureOnCommitLabel, ValidateWebhookSecret, ReconcileBuild, ReconcileRuns, Stranded, Apply;
    var l := EnsureOnCommitLabel(s, k);
    SetupDoesNotCount(s, k, f);
    LabelStage(s, k);
    var v := ValidateWebhookSecret(l.st, k);
    SetupDoesNotCount(l.st, k, f);
    if v.ret.Ok? {
      SecretStage(l.st, k);
      var b := ReconcileBuild(v.st, k);
      SetupDoesNotCount(v.st, k, f);
      if b.ret.Ok? {
        MidIsStranded(s, k, l.st, f);
        BuildStage(l.st, k);
        MidIsStranded(l.st, k, b.st, f);
        RunsDoNotCount(b.st, k, f);
      }
    }
  }

  lemma SecretStage(s: World, k: Key)
    requires k in s.imageBuilds && ValidateWebhookSecret(s, k).ret.Ok?
    ensures ValidateWebhookSecret(s, k).st == s
  {
  }

  /** Runs are kept as they are. */
  ghost predicate KeepsRuns(s: World, t: World) {
    forall r :: r in s.runs ==> r in t.runs && t.runs[r] == s.runs[r]
  }

  lemma StillStranded(s: World, k: Key, t: World, f: Family)
    requires k in s.imageBuilds && k in t.imageBuilds && Stranded(s, k, f)
    requires KeepsRuns(s, t) && SameTriggers(s.imageBuilds[k], t.imageBuilds[k], f)
    ensures Stranded(t, k, f)
  {
    hide RunName;
  }

  lemma PlanKeepsRuns(s: World, k: Key, ws: seq<Write>)
    requires WellFormed(s, k) && AllGuarded(s, k, ws)
    ensures KeepsRuns(s, Exec(s, k, ws))
  {
    hide AllGuarded, Exec;
    WritesRespectOwners(s, k, ws);
  }

  /** What was created since is of the other family. */
  ghost predicate OnlyOthersCreated(h: History, h': History, f: Family) {
    && h.created <= h'.created
    && forall c :: c in h'.created[|h.created|..] ==> c.family != f
  }

  lemma OthersCreatedTransitive(h: History, h': History, h'': History, f: Family)
    requires OnlyOthersCreated(h, h', f) && OnlyOthersCreated(h', h'', f)
    ensures OnlyOthersCreated(h, h'', f)
  {
    assert h''.created[|h.created|..] == h'.created[|h.created|..] + h''.created[|h'.created|..];
  }

  /** Still stranded, at the same count, with no new run of the family. */
  ghost predicate StaysStranded(x: System, k: Key, y: System, f: Family)
    requires k in x.w.imageBuilds && k in y.w.imageBuilds
  {
    && WellFormed(y.w, k) && Stranded(y.w, k, f)
    && SameTriggers(x.w.imageBuilds[k], y.w.imageBuilds[k], f)
    && OnlyOthersCreated(x.h, y.h, f)
  }

  lemma StaysTransitive(x: System, k: Key, y: System, z: System, f: Family)
    requires k in x.w.imageBuilds && k in y.w.imageBuilds && k in z.w.imageBuilds
    requires StaysStranded(x, k, y, f) && StaysStranded(y, k, z, f)
    ensures StaysStranded(x, k, z, f)
  {
    hide Stranded;
    OthersCreatedTransitive(x.h, y.h, z.h, f);
  }

  /** A creation under the guard has the next name of its family, which is not taken. */
  lemma CreationIsOther(x: System, k: Key, r: BuildRun, f: Family)
    requires WellFormed(x.w, k) && Stranded(x.w, k, f) && Guard(x.w, k, CreateRun(r))
    ensures OnlyOthersCreated(x.h, Recorded(x, k, CreateRun(r)), f)
  {
    hide RemainingWait, IsDuplicateCommit, GetActiveBuildRun, IsSpecDrifted, RunName;
    var h := Recorded(x, k, CreateRun(r));
    assert h.created[|x.h.created|..] == [h.created[|x.h.created|]];
  }

  lemma WriteStrands(x: System, k: Key, w: Write, f: Family)
    requires WellFormed(x.w, k) && Stranded(x.w, k, f) && Guard(x.w, k, w) && !IsCount(w, f)
    ensures StaysStranded(x, k, Next(x, k, Reconciler(w)), f)
  {
    hide Guard, Stranded, Apply, RunName, Written, SameTriggers, Safety.RespectsOwners;
    var t := Apply(x.w, k, w);
    WriteKeepsWellFormed(x.w, k, w);
    WriteKeepsRuns(x.w, k, w);
    ApplyKeepsTriggers(x.w, k, w, f);
    StillStranded(x.w, k, t, f);
    if w.CreateRun? {
      CreationIsOther(x, k, w.run, f);
    }
  }

  lemma WriteKeepsRuns(s: World, k: Key, w: Write)
    requires WellFormed(s, k) && Guard(s, k, w)
    ensures KeepsRuns(s, Apply(s, k, w))
  {
    hide Guard, Apply;
    WriteRespectsOwners(s, k, w);
  }

  lemma ApplyKeepsTriggers(s: World, k: Key, w: Write, f: Family)
    requires k in s.imageBuilds && !IsCount(w, f)
    ensures SameTriggers(s.imageBuilds[k], Apply(s, k, w).imageBuilds[k], f)
  {
    hide Written;
    OtherWriteKeepsTriggers(s.imageBuilds[k], s.clock, w, f);
  }

  lemma {:induction false} WritesStrand(x: System, k: Key, ws: seq<Write>, f: Family)
    requires WellFormed(x.w, k) && Stranded(x.w, k, f) && AllGuarded(x.w, k, ws) && NoCountIn(ws, f)
    requires Legal(x, k, AsEvents(ws))
    ensures StaysStranded(x, k, After(x, k, AsEvents(ws)), f)
    decreases |ws|
  {
    hide Guard, Apply, Recorded, Stranded, SameTriggers;
    if ws == [] {
      NothingStrands(x, k, f);
    } else {
      hide StaysStranded;
      var es := AsEvents(ws);
      var y := Next(x, k, es[0]);
      assert ws[0] in ws && es[0] == Reconciler(ws[0]) && es[1..] == AsEvents(ws[1..]);
      WriteStrands(x, k, ws[0], f);
      StaysMeans(x, k, y, f);
      WritesStrand(y, k, ws[1..], f);
      StaysTransitive(x, k, y, After(x, k, es), f);
    }
  }

  lemma StaysMeans(x: System, k: Key, y: System, f: Family)
    requires k in x.w.imageBuilds && k in y.w.imageBuilds && StaysStranded(x, k, y, f)
    ensures WellFormed(y.w, k) && Stranded(y.w, k, f) && SameTriggers(x.w.imageBuilds[k], y.w.imageBuilds[k], f)
  {
    hide Stranded;
  }

  lemma NothingStrands(x: System, k: Key, f: Family)
    requires WellFormed(x.w, k) && Stranded(x.w, k, f)
    ensures StaysStranded(x, k, x, f)
  {
    hide Stranded;
  }

  /** Nobody deletes the run. */
  ghost predicate KeepsRun(x: System, k: Key, acts: seq<Action>, r: Key)
    requires k in x.w.imageBuilds && LegalRun(x, k, acts)
    decreases |acts|
  {
    acts == [] ||
    (var y := After(x, k, Events(x, k, acts[0]));
     (acts[0].Other? ==> r in y.w.runs) && KeepsRun(y, k, acts[1..], r))
  }

  lemma PassStrands(x: System, k: Key, n: nat, f: Family)
    requires WellFormed(x.w, k) && Stranded(x.w, k, f)
    requires Legal(x, k, Events(x, k, Pass(n)))
    ensures StaysStranded(x, k, After(x, k, Events(x, k, Pass(n))), f)
  {
    hide Legal, After, Reconcile, Stranded, StaysStranded, AllGuarded, Exec;
    ReconcileObeys(x.w, k);
    var ws := Reconcile(x.w, k).writes;
    GuardedPrefix(x.w, k, ws, Min(n, |ws|));
    PlanDoesNotCount(x.w, k, f);
    WritesStrand(x, k, Stopped(x.w, k, n), f);
  }

  lemma ActionStrands(x: System, k: Key, a: Action, f: Family)
    requires WellFormed(x.w, k) && Stranded(x.w, k, f) && Legal(x, k, Events(x, k, a))
    requires a.Other? ==> RunKey(k, NextName(x.w.imageBuilds[k], f)) in After(x, k, Events(x, k, a)).w.runs
    ensures StaysStranded(x, k, After(x, k, Events(x, k, a)), f)
  {
    if a.Pass? {
      hide Legal, After, Events, Stranded, StaysStranded;
      PassStrands(x, k, a.stopAfter, f);
    } else {
      hide Stranded, StaysStranded, Enabled;
      StepStrands(x, k, if a.Deliver? then Push(a.ref, a.commitSHA) else Environment(a.next), f);
    }
  }

  lemma StepStrands(x: System, k: Key, e: Event, f: Family)
    requires WellFormed(x.w, k) && Stranded(x.w, k, f) && !e.Reconciler? && Legal(x, k, [e])
    requires e.Environment? ==> RunKey(k, NextName(x.w.imageBuilds[k], f)) in After(x, k, [e]).w.runs
    ensures StaysStranded(x, k, After(x, k, [e]), f)
  {
    hide RunName, Legal, After;
    OneEvent(x, k, e);
  }

  /** Once an ImageBuild is stranded, no pass helps, complete or stopped, nor do further pushes or
      edits: as long as the run is there, the family's counter stays, no push is triggered, and no
      further run of the family is created.  So passes repeated after a stop make only one run per
      counter value; and until somebody deletes the run a pending push waits, while a drift does not
      even do that (see StrandedDriftIsSwallowed). */
  lemma {:induction false} StrandedForGood(x: System, k: Key, acts: seq<Action>, f: Family)
    requires WellFormed(x.w, k) && Stranded(x.w, k, f) && LegalRun(x, k, acts)
    requires KeepsRun(x, k, acts, RunKey(k, NextName(x.w.imageBuilds[k], f)))
    ensures var y := Play(x, k, acts);
            && SameTriggers(x.w.imageBuilds[k], y.w.imageBuilds[k], f) && Stranded(y.w, k, f)
            && OnlyOthersCreated(x.h, y.h, f)
    decreases |acts|
  {
    hide Legal, After, Events, RunName, Stranded;
    if acts != [] {
      var y := After(x, k, Events(x, k, acts[0]));
      ActionStrands(x, k, acts[0], f);
      StrandedForGood(y, k, acts[1..], f);
      OthersCreatedTransitive(x.h, y.h, Play(x, k, acts).h, f);
    }
  }

  /** A complete pass that finds the push due, not a duplicate and no run active consumes the push
      exactly if the next on-commit name is free. */
  lemma ConsumedExactlyIfFree(s: World, k: Key)
    requires WellFormed(s, k) && Admissible(s, k)
    requires IsDue(s, s.imageBuilds[k]) && !IsDuplicateCommit(s.imageBuilds[k]) && !IsPolling(s, k)
    ensures !HasPending(Reconcile(s, k).st.imageBuilds[k]) <==> NameIsFree(s, k)
  {
    hide Reconcile, ReconcileRuns, RemainingWait, FormatInt;
    if NameIsFree(s, k) {
      PassOutcome(s, k);
    } else {
      var mid := SetUpWorld(s, k);
      SetupSucceeds(s, k);
      SameOutcome(s, k, mid);
      TakenNameKeepsPush(mid, k);
    }
  }

  lemma TakenNameKeepsPush(s: World, k: Key)
    requires WellFormed(s, k) && IsDue(s, s.imageBuilds[k]) && !IsDuplicateCommit(s.imageBuilds[k])
    requires !IsPolling(s, k) && !NameIsFree(s, k)
    ensures HasPending(ReconcileRuns(s, k).st.imageBuilds[k])
  {
    hide ReconcileStatus, RemainingWait, FormatInt, FallBack;
    var e := EnsureOnCommitBuildRun(s, k);
    assert e.st == s;
    if e.ret.Ok? {
      StatusFacts(s, k, e.ret.value.run);
    }
  }

  // ---- a drift that is swallowed -------------------------------------------

  lemma RunsSwallow(s: World, k: Key)
    requires WellFormed(s, k) && !IsRebuildEnabled(s.imageBuilds[k])
    requires Stranded(s, k, SpecChange) && IsSpecDrifted(s.imageBuilds[k])
    ensures var t := ReconcileRuns(s, k).st;
            var b := t.imageBuilds[k];
            && t.runs == s.runs && b.status.lastBuildRunRef == NextName(s.imageBuilds[k], SpecChange)
            && LatestImage.IsRecorded(b) && IsReadyCurrent(b) && b.spec == s.imageBuilds[k].spec
  {
    hide ReconcileStatus, IsSpecDrifted, FormatInt, IsReadyCurrent, Verdict, ComputeLatestImage, ReconcileRuns;
    LatestImage.FlowOfDefault(s, k);
    var d := ReconcileDefaultBuildRun(s, k);
    assert d.writes == [RecordSpec];
    StatusFacts(d.st, k, d.ret.value);
  }

  /** A drift over a stranded count is recorded as built, without a build.  A complete pass that ends
      ready creates no run, reports on the run that was not counted, whatever inputs that was made
      for, and puts the present inputs on record, so that no later pass finds any drift.  The same
      goes for every edit after that, for the ImageBuild stays stranded. */
  lemma StrandedDriftIsSwallowed(s: World, k: Key)
    requires WellFormed(s, k) && !IsRebuildEnabled(s.imageBuilds[k])
    requires Stranded(s, k, SpecChange) && IsSpecDrifted(s.imageBuilds[k])
    ensures var t := Reconcile(s, k).st;
            var a, b := s.imageBuilds[k], t.imageBuilds[k];
            && (SetupStands(s, k) ==> IsReadyCurrent(b))
            && (IsReadyCurrent(b) ==>
                  && t.runs == s.runs && b.status.lastBuildRunRef == NextName(a, SpecChange)
                  && b.spec == a.spec && LatestImage.IsRecorded(b) && !IsSpecDrifted(b))
  {
    hide Reconcile, ReconcileRuns, ReconcileBuild, IsSpecDrifted, FormatInt, SetUp, Stranded, LatestImage.IsRecorded;
    var mid, failure := PassSplits(s, k);
    var b := Reconcile(s, k).st.imageBuilds[k];
    if SetupStands(s, k) {
      SetupSucceeds(s, k);
      SameDrift(s.imageBuilds[k], SetUpWorld(s, k).imageBuilds[k]);
      MidIsStranded(s, k, SetUpWorld(s, k), SpecChange);
      MidWouldTrigger(s, k, SetUpWorld(s, k));
      RunsSwallow(SetUpWorld(s, k), k);
    }
    if failure.None? {
      SameDrift(s.imageBuilds[k], mid.imageBuilds[k]);
      MidIsStranded(s, k, mid, SpecChange);
      RunsSwallow(mid, k);
      RecordedIsUndrifted(b);
    }
  }

  lemma RecordedIsUndrifted(ib: ImageBuild)
    requires LatestImage.IsRecorded(ib) && ib.status.lastBuildRunRef != ""
    ensures !IsSpecDrifted(ib)
  {
    DriftIsExact(ib, ib.spec.Inputs());
  }
}
