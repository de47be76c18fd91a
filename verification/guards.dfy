/** The rule each API write of a reconcile pass obeys, and the proof that every write of every
    pass obeys its rule in the world it is made in, wherever the pass stops. */
module Guards {
  import opened ImageBuilds
  import opened Names
  import opened Cluster
  import opened ReconcileSpec

  /** Objects are stored under their own names. */
  ghost predicate WellFormed(s: World, k: Key) {
    && k in s.imageBuilds
    && s.imageBuilds[k].key == k
    && forall r :: r in s.runs ==> s.runs[r].name == r.name
  }

  /** The build inputs on record are the same.  Other annotations are no concern of the operator. */
  predicate SameRecord(a: ImageBuild, b: ImageBuild) {
    && (ANNOTATION_LAST_SPEC in b.annotations <==> ANNOTATION_LAST_SPEC in a.annotations)
    && (ANNOTATION_LAST_SPEC in a.annotations ==>
          b.annotations[ANNOTATION_LAST_SPEC] == a.annotations[ANNOTATION_LAST_SPEC])
  }

  predicate Stored(s: World, k: Key, run: BuildRun) {
    RunKey(k, run.name) in s.runs && s.runs[RunKey(k, run.name)] == run
  }

  predicate OwnsRun(s: World, ib: ImageBuild, name: string) {
    RunKey(ib.key, name) in s.runs && IsControlledBy(s.runs[RunKey(ib.key, name)].controller, ib)
  }

  /** The pending push has waited out both windows. */
  predicate IsDue(s: World, ib: ImageBuild) {
    IsRebuildEnabled(ib) && RemainingWait(ib, s.clock) == None
  }

  /** The on-commit flow goes on to the spec-change flow. */
  predicate FallsBack(s: World, ib: ImageBuild) {
    !IsRebuildEnabled(ib) || (IsDue(s, ib) && IsDuplicateCommit(ib))
  }

  /** The counter behind each family of names. */
  function Counter(ib: ImageBuild, f: Family): int {
    match f
    case SpecChange => ib.status.buildRunCounter
    case OnCommit => if ib.status.onCommit.Some? then ib.status.onCommit.value.triggerCounter else 0
  }

  /** The name of an ImageBuild's next run of a family. */
  function NextName(ib: ImageBuild, f: Family): string {
    RunName(ib.key.name, f, NextCounter(Counter(ib, f)))
  }

  predicate MayCreate(s: World, ib: ImageBuild, name: string) {
    || (&& IsDue(s, ib)
        && !IsDuplicateCommit(ib)
        && GetActiveBuildRun(s, ib) == None
        && name == RunName(ib.key.name, OnCommit, NextCounter(ib.status.onCommit.value.triggerCounter)))
    || (&& IsSpecDrifted(ib)
        && name == RunName(ib.key.name, SpecChange, NextCounter(ib.status.buildRunCounter)))
  }

  predicate Guard(s: World, k: Key, w: Write)
    requires k in s.imageBuilds
  {
    var ib := s.imageBuilds[k];
    match w
    case SetLabel(v) => v == DesiredLabel(ib.spec)
    case SetReady(status, reason) => status == True ==> reason == Reconciled
    case PutBuild(b) =>
      && b.controller == Some(OwnerOf(ib))
      && (BuildKey(k) in s.builds ==> !ControlledByOther(s.builds[BuildKey(k)].controller, ib))
    case SetBuildRef => true
    case ClearPending => IsDue(s, ib) && IsDuplicateCommit(ib)
    case CreateRun(r) =>
      && RunKey(k, r.name) !in s.runs
      && r.controller == Some(OwnerOf(ib))
      && r.succeeded == None
      && MayCreate(s, ib, r.name)
    case MarkTriggered(counter, name, sha) =>
      && IsDue(s, ib)
      && !IsDuplicateCommit(ib)
      && sha == ib.status.onCommit.value.pending.value.commitSHA
      && counter == NextCounter(ib.status.onCommit.value.triggerCounter)
      && name == RunName(ib.key.name, OnCommit, counter)
      && OwnsRun(s, ib, name)
    case SetCounter(counter) =>
      && counter == NextCounter(ib.status.buildRunCounter)
      && OwnsRun(s, ib, RunName(ib.key.name, SpecChange, counter))
    case RecordSpec => IsSpecDrifted(ib)
    case SetBuildSucceeded(name, status, reason) =>
      && RunKey(k, name) in s.runs
      && (status, reason) == Verdict(s.runs[RunKey(k, name)])
      && (name == ib.status.lastBuildRunRef || OwnsRun(s, ib, name))
    case SetLatestImage(image) => image != ""
  }

  predicate AllGuarded(s: World, k: Key, ws: seq<Write>)
    requires k in s.imageBuilds
    decreases |ws|
  {
    ws == [] || (Guard(s, k, ws[0]) && AllGuarded(Apply(s, k, ws[0]), k, ws[1..]))
  }

  ghost predicate Obeys<R>(s: World, k: Key, p: Plan<R>)
    requires k in s.imageBuilds
  {
    p.st == Exec(s, k, p.writes) && AllGuarded(s, k, p.writes)
  }

  lemma {:induction false} GuardedAppend(s: World, k: Key, a: seq<Write>, b: seq<Write>)
    requires k in s.imageBuilds
    requires AllGuarded(s, k, a) && AllGuarded(Exec(s, k, a), k, b)
    ensures AllGuarded(s, k, a + b) && Exec(s, k, a + b) == Exec(Exec(s, k, a), k, b)
    decreases |a|
  {
    if a == [] {
      assert a + b == b;
    } else {
      assert (a + b)[0] == a[0] && (a + b)[1..] == a[1..] + b;
      GuardedAppend(Apply(s, k, a[0]), k, a[1..], b);
    }
  }

  lemma OneGuarded(s: World, k: Key, w: Write)
    requires k in s.imageBuilds && Guard(s, k, w)
    ensures AllGuarded(s, k, [w]) && Exec(s, k, [w]) == Apply(s, k, w)
  {
    assert [w][1..] == [];
    assert AllGuarded(Apply(s, k, w), k, []);
  }

  lemma NoneGuarded(s: World, k: Key)
    requires k in s.imageBuilds
    ensures AllGuarded(s, k, []) && Exec(s, k, []) == s
  {
  }

  lemma WriteKeepsWellFormed(s: World, k: Key, w: Write)
    requires WellFormed(s, k)
    ensures WellFormed(Apply(s, k, w), k)
  {
  }

  /** A run a pass reports on is in the store, and is either the one last reported on or owned. */
  predicate Reportable(s: World, k: Key, run: Option<BuildRun>)
    requires k in s.imageBuilds
  {
    run.Some? ==>
      && Stored(s, k, run.value)
      && (run.value.name == s.imageBuilds[k].status.lastBuildRunRef || OwnsRun(s, s.imageBuilds[k], run.value.name))
  }

  lemma GetOrCreateObeys(s: World, k: Key, desired: BuildRun)
    requires WellFormed(s, k) && desired.succeeded == None
    requires MayCreate(s, s.imageBuilds[k], desired.name)
    ensures var g := GetOrCreateBuildRun(s, k, desired);
            && Obeys(s, k, g) && WellFormed(g.st, k)
            && g.st.imageBuilds == s.imageBuilds && g.st.clock == s.clock
            && (g.ret.Ok? ==> g.ret.value.0.name == desired.name && Stored(g.st, k, g.ret.value.0)
                              && OwnsRun(g.st, g.st.imageBuilds[k], desired.name))
  {
    if RunKey(k, desired.name) !in s.runs {
      OneGuarded(s, k, CreateRun(desired.(controller := Some(OwnerOf(s.imageBuilds[k])))));
    }
  }

  lemma EnsureOnCommitObeys(s: World, k: Key)
    requires WellFormed(s, k)
    requires var ib := s.imageBuilds[k]; IsDue(s, ib) && !IsDuplicateCommit(ib) && GetActiveBuildRun(s, ib) == None
    ensures var o := EnsureOnCommitBuildRun(s, k);
            && Obeys(s, k, o) && WellFormed(o.st, k)
            && (o.ret.Ok? ==> o.ret.value.Use? && Reportable(o.st, k, o.ret.value.run))
  {
    var ib := s.imageBuilds[k];
    var oc := ib.status.onCommit.value;
    var counter := NextCounter(oc.triggerCounter);
    var desired := NewBuildRun(ib, OnCommit, counter);
    var g := GetOrCreateBuildRun(s, k, desired);
    GetOrCreateObeys(s, k, desired);
    if g.ret.Ok? && g.ret.value.1 {
      var w := MarkTriggered(counter, desired.name, oc.pending.value.commitSHA);
      OneGuarded(g.st, k, w);
      GuardedAppend(s, k, g.writes, [w]);
    } else {
      GuardedAppend(s, k, g.writes, []);
    }
  }

  lemma OnCommitObeys(s: World, k: Key)
    requires WellFormed(s, k)
    ensures var o := ReconcileOnCommitBuildRun(s, k);
            && Obeys(s, k, o) && WellFormed(o.st, k)
            && (o.ret.Ok? && o.ret.value.Use? ==> Reportable(o.st, k, o.ret.value.run))
  {
    var ib := s.imageBuilds[k];
    if IsDue(s, ib) {
      if IsDuplicateCommit(ib) {
        OneGuarded(s, k, ClearPending);
      } else if GetActiveBuildRun(s, ib) == None {
        EnsureOnCommitObeys(s, k);
      }
    }
  }

  lemma EnsureBuildRunObeys(s: World, k: Key)
    requires WellFormed(s, k) && IsSpecDrifted(s.imageBuilds[k])
    ensures var e := EnsureBuildRun(s, k);
            && Obeys(s, k, e) && WellFormed(e.st, k) && IsSpecDrifted(e.st.imageBuilds[k])
            && (e.ret.Ok? ==> Reportable(e.st, k, Some(e.ret.value)))
  {
    var ib := s.imageBuilds[k];
    var counter := NextCounter(ib.status.buildRunCounter);
    var g := GetOrCreateBuildRun(s, k, NewBuildRun(ib, SpecChange, counter));
    GetOrCreateObeys(s, k, NewBuildRun(ib, SpecChange, counter));
    if g.ret.Ok? && g.ret.value.1 {
      OneGuarded(g.st, k, SetCounter(counter));
      GuardedAppend(s, k, g.writes, [SetCounter(counter)]);
    } else {
      GuardedAppend(s, k, g.writes, []);
    }
  }

  lemma DefaultObeys(s: World, k: Key)
    requires WellFormed(s, k)
    ensures var d := ReconcileDefaultBuildRun(s, k);
            && Obeys(s, k, d) && WellFormed(d.st, k)
            && (d.ret.Ok? ==> Reportable(d.st, k, d.ret.value))
  {
    hide EnsureBuildRun, IsSpecDrifted, Exec, AllGuarded;
    if IsSpecDrifted(s.imageBuilds[k]) {
      var e := EnsureBuildRun(s, k);
      EnsureBuildRunObeys(s, k);
      if e.ret.Ok? {
        OneGuarded(e.st, k, RecordSpec);
        GuardedAppend(s, k, e.writes, [RecordSpec]);
      } else {
        NoneGuarded(e.st, k);
        GuardedAppend(s, k, e.writes, []);
      }
    } else {
      NoneGuarded(s, k);
    }
  }

  lemma FallBackObeys(s: World, k: Key)
    requires WellFormed(s, k)
    ensures var r := FallBack(s, k);
            && Obeys(s, k, r) && WellFormed(r.st, k)
            && (r.ret.Ok? ==> r.ret.value.Use? && Reportable(r.st, k, r.ret.value.run))
  {
    hide ReconcileDefaultBuildRun, Apply, AllGuarded, Exec, Guard;
    var d := ReconcileDefaultBuildRun(s, k);
    DefaultObeys(s, k);
    assert d.writes + [] == d.writes;
    if d.ret.Err? && d.ret.error.BuildRunError? {
      var reason := if d.ret.error.cause == AlreadyOwned then BuildRunConflict else BuildRunReconcileFailed;
      NotReadyObeys(d.st, k, reason);
      GuardedAppend(s, k, d.writes, [SetReady(False, reason)]);
    }
  }

  lemma BuildRunObeys(s: World, k: Key)
    requires WellFormed(s, k)
    ensures var r := ReconcileBuildRun(s, k);
            && Obeys(s, k, r) && WellFormed(r.st, k)
            && (r.ret.Ok? ==> !r.ret.value.Proceed?)
            && (r.ret.Ok? && r.ret.value.Use? ==> Reportable(r.st, k, r.ret.value.run))
  {
    hide FallBack, ReconcileOnCommitBuildRun, Apply, AllGuarded, Exec, Guard;
    var o := ReconcileOnCommitBuildRun(s, k);
    OnCommitObeys(s, k);
    if o.ret.Err? {
      NotReadyObeys(o.st, k, BuildRunReconcileFailed);
      GuardedAppend(s, k, o.writes, [SetReady(False, BuildRunReconcileFailed)]);
    } else if o.ret.value.Proceed? {
      FallBackObeys(o.st, k);
      GuardedAppend(s, k, o.writes, FallBack(o.st, k).writes);
    }
  }

  lemma NotReadyObeys(s: World, k: Key, reason: Reason)
    requires WellFormed(s, k)
    ensures AllGuarded(s, k, [SetReady(False, reason)])
    ensures Exec(s, k, [SetReady(False, reason)]) == Apply(s, k, SetReady(False, reason))
    ensures WellFormed(Apply(s, k, SetReady(False, reason)), k)
  {
    OneGuarded(s, k, SetReady(False, reason));
  }

  lemma ReportRunObeys(s: World, k: Key, run: Option<BuildRun>)
    requires WellFormed(s, k) && Reportable(s, k, run)
    ensures Obeys(s, k, ReportRun(s, k, run)) && WellFormed(ReportRun(s, k, run).st, k)
  {
    if run.Some? {
      OneGuarded(s, k, SetBuildSucceeded(run.value.name, Verdict(run.value).0, Verdict(run.value).1));
    }
  }

  lemma ReportReadyObeys(s: World, k: Key)
    requires WellFormed(s, k)
    ensures Obeys(s, k, ReportReady(s, k)) && WellFormed(ReportReady(s, k).st, k)
  {
    if !IsReadyCurrent(s.imageBuilds[k]) {
      OneGuarded(s, k, SetReady(True, Reconciled));
    }
  }

  lemma ReportImageObeys(s: World, k: Key, run: Option<BuildRun>)
    requires WellFormed(s, k)
    ensures Obeys(s, k, ReportImage(s, k, run))
  {
    var c := ReportImage(s, k, run);
    if c.writes != [] {
      OneGuarded(s, k, c.writes[0]);
    }
  }

  lemma StatusObeys(s: World, k: Key, run: Option<BuildRun>)
    requires WellFormed(s, k) && Reportable(s, k, run)
    ensures Obeys(s, k, ReconcileStatus(s, k, run))
  {
    hide ReportRun, ReportReady, ReportImage, Exec, AllGuarded, Apply, Guard;
    var a := ReportRun(s, k, run);
    var b := ReportReady(a.st, k);
    var c := ReportImage(b.st, k, run);
    ReportRunObeys(s, k, run);
    ReportReadyObeys(a.st, k);
    ReportImageObeys(b.st, k, run);
    GuardedAppend(s, k, a.writes, b.writes);
    GuardedAppend(s, k, a.writes + b.writes, c.writes);
    assert a.writes + b.writes + c.writes + [] == a.writes + b.writes + c.writes;
  }

  lemma RunsObey(s: World, k: Key)
    requires WellFormed(s, k)
    ensures Obeys(s, k, ReconcileRuns(s, k))
  {
    hide ReconcileBuildRun, ReconcileStatus, Apply, AllGuarded, Exec, Guard;
    var r := ReconcileBuildRun(s, k);
    BuildRunObeys(s, k);
    assert r.writes + [] == r.writes;
    if r.ret.Ok? && r.ret.value.Use? {
      var t := ReconcileStatus(r.st, k, r.ret.value.run);
      StatusObeys(r.st, k, r.ret.value.run);
      GuardedAppend(s, k, r.writes, t.writes);
      assert r.writes + t.writes + [] == r.writes + t.writes;
    }
  }

  lemma LabelObeys(s: World, k: Key)
    requires WellFormed(s, k)
    ensures var l := EnsureOnCommitLabel(s, k); Obeys(s, k, l) && WellFormed(l.st, k)
  {
    if EnsureOnCommitLabel(s, k).writes != [] {
      OneGuarded(s, k, SetLabel(DesiredLabel(s.imageBuilds[k].spec)));
    }
  }

  lemma SecretObeys(s: World, k: Key)
    requires WellFormed(s, k)
    ensures var v := ValidateWebhookSecret(s, k); Obeys(s, k, v) && WellFormed(v.st, k)
  {
    NotReadyObeys(s, k, WebhookSecretMissing);
    NotReadyObeys(s, k, WebhookSecretInvalidKey);
  }

  lemma EnsureBuildObeys(s: World, k: Key, policy: Policy, strategy: string)
    requires WellFormed(s, k)
    ensures var e := EnsureBuild(s, k, policy, strategy); Obeys(s, k, e) && WellFormed(e.st, k)
  {
    var e := EnsureBuild(s, k, policy, strategy);
    if e.writes != [] {
      OneGuarded(s, k, e.writes[0]);
    }
  }

  lemma BuildObeys(s: World, k: Key)
    requires WellFormed(s, k)
    ensures var b := ReconcileBuild(s, k); Obeys(s, k, b) && WellFormed(b.st, k)
  {
    hide EnsureBuild;
    if s.policy.None? {
      NotReadyObeys(s, k, MissingPolicy);
    } else {
      var e := EnsureBuild(s, k, s.policy.value, SelectedStrategy(s.imageBuilds[k], s.policy.value));
      EnsureBuildObeys(s, k, s.policy.value, SelectedStrategy(s.imageBuilds[k], s.policy.value));
      if e.ret.Err? {
        NotReadyObeys(e.st, k, BuildFailureReason(e.ret.error));
        GuardedAppend(s, k, e.writes, [SetReady(False, BuildFailureReason(e.ret.error))]);
      } else {
        var r := PatchBuildRef(e.st, k);
        if r.writes != [] {
          OneGuarded(e.st, k, SetBuildRef);
        }
        GuardedAppend(s, k, e.writes, r.writes);
      }
    }
  }

  /** Every write of a pass obeys its rule in the world it is made in. */
  lemma ReconcileObeys(s: World, k: Key)
    requires WellFormed(s, k)
    ensures Obeys(s, k, Reconcile(s, k))
  {
    hide EnsureOnCommitLabel, ValidateWebhookSecret, ReconcileBuild, ReconcileRuns, Apply, AllGuarded, Exec, Guard;
    var l := EnsureOnCommitLabel(s, k);
    LabelObeys(s, k);
    var v := ValidateWebhookSecret(l.st, k);
    SecretObeys(l.st, k);
    GuardedAppend(s, k, l.writes, v.writes);
    assert l.writes + v.writes + [] == l.writes + v.writes;
    if v.ret.Ok? {
      var b := ReconcileBuild(v.st, k);
      BuildObeys(v.st, k);
      GuardedAppend(s, k, l.writes + v.writes, b.writes);
      assert l.writes + v.writes + b.writes + [] == l.writes + v.writes + b.writes;
      if b.ret.Ok? {
        var r := ReconcileRuns(b.st, k);
        RunsObey(b.st, k);
        GuardedAppend(s, k, l.writes + v.writes + b.writes, r.writes);
      }
    }
  }
}
