/** What the reported image says, over runs whose passes all complete. */
module LatestImage {
  import opened ImageBuilds
  import opened Names
  import opened LastSpec
  import opened Cluster
  import opened ReconcileSpec
  import opened Guards
  import opened Protocol
  import opened Safety
  import opened CompletePasses
  import opened Example
  import Convergence

  /** For each BuildRun a pass created, the build inputs it was created for. */
  type Made = map<Key, BuildInputs>

  function MadeIn(s: World, k: Key, t: World, made: Made): Made
    requires k in s.imageBuilds
  {
    made + map r | r in t.runs && r !in s.runs :: s.imageBuilds[k].spec.Inputs()
  }

  ghost function MadeBy(x: System, k: Key, acts: seq<Action>, made: Made): Made
    requires k in x.w.imageBuilds && LegalRun(x, k, acts)
    decreases |acts|
  {
    if acts == [] then made
    else MadeBy(After(x, k, Events(x, k, acts[0])), k, acts[1..],
                if acts[0].Pass? then MadeIn(x.w, k, Reconcile(x.w, k).st, made) else made)
  }

  /** A pass over the ImageBuild creates the run for the pending push. */
  predicate Triggers(s: World, k: Key)
    requires k in s.imageBuilds
  {
    var r := RunKey(k, NextName(s.imageBuilds[k], OnCommit));
    r !in s.runs && r in Reconcile(s, k).st.runs
  }

  /** No pass that triggers starts drifted: edits of the build inputs are built before the next
      push is. */
  ghost predicate TriggersUndrifted(x: System, k: Key, acts: seq<Action>)
    requires k in x.w.imageBuilds && LegalRun(x, k, acts)
    decreases |acts|
  {
    acts == [] ||
    ((acts[0].Pass? && Triggers(x.w, k) ==> !IsSpecDrifted(x.w.imageBuilds[k])) &&
     TriggersUndrifted(After(x, k, Events(x, k, acts[0])), k, acts[1..]))
  }

  /** The annotation holds the inputs that the run last reported on was created for. */
  ghost predicate AnnotationIsTrue(ib: ImageBuild, made: Made) {
    var r := RunKey(ib.key, ib.status.lastBuildRunRef);
    ib.status.lastBuildRunRef != "" ==>
      && r in made
      && ANNOTATION_LAST_SPEC in ib.annotations
      && ib.annotations[ANNOTATION_LAST_SPEC] == Marshal(made[r])
  }

  /** The image reference for a run with a digest: what it was created to put out, by that digest. */
  function Digested(inputs: BuildInputs, run: BuildRun): string {
    inputs.output.image + "@" + run.digest
  }

  /** The pending push has to wait, and the pass with it. */
  predicate IsWaiting(s: World, ib: ImageBuild) {
    IsRebuildEnabled(ib) && !IsDue(s, ib)
  }

  /** When the pass from s to t has completed and, unless it had to wait, reported: a successful run
      with a digest is reported as the image it was created for; and no image is newly reported but
      of such a run, or of one without a digest by the tag it was created for. */
  ghost predicate ImageIsTrue(s: World, k: Key, t: World, made: Made)
    requires k in s.imageBuilds && k in t.imageBuilds
  {
    var a, b := s.imageBuilds[k].status, t.imageBuilds[k].status;
    var r := RunKey(k, b.lastBuildRunRef);
    var isDone := b.lastBuildRunRef != "" && r in t.runs && r in made && IsSuccessful(t.runs[r]);
    && (!IsWaiting(s, s.imageBuilds[k]) && IsReadyCurrent(t.imageBuilds[k]) && isDone && t.runs[r].digest != "" ==>
          b.latestImage == Digested(made[r], t.runs[r]))
    && (b.latestImage != a.latestImage ==>
          && isDone
          && b.latestImage ==
               if t.runs[r].digest != "" then Digested(made[r], t.runs[r]) else made[r].output.image)
  }

  /** Reporting on a run that was created for the present inputs. */
  lemma ReportIsTrue(s: World, k: Key, run: Option<BuildRun>, made: Made)
    requires WellFormed(s, k)
    requires run.Some? ==>
               && Stored(s, k, run.value) && run.value.name != "" && RunKey(k, run.value.name) in made
               && made[RunKey(k, run.value.name)] == s.imageBuilds[k].spec.Inputs()
    requires run.None? ==> LastBuildRun(s, s.imageBuilds[k]) == None
    ensures ImageIsTrue(s, k, ReconcileStatus(s, k, run).st, made)
  {
    hide ReconcileStatus, Verdict, IsReadyCurrent, IsWaiting;
    Convergence.StatusFacts(s, k, run);
  }

  /** With no run of the ImageBuild under the next name yet, that is the run. */
  lemma EnsureMakes(s: World, k: Key)
    requires WellFormed(s, k) && EnsureBuildRun(s, k).ret.Ok?
    requires !OwnsRun(s, s.imageBuilds[k], NextName(s.imageBuilds[k], SpecChange))
    ensures var e := EnsureBuildRun(s, k);
            var a, b := s.imageBuilds[k], e.st.imageBuilds[k];
            var key := RunKey(k, NextName(a, SpecChange));
            && key !in s.runs && e.st.runs == s.runs[key := e.ret.value] && e.ret.value.name == key.name
            && b == a.(status := a.status.(buildRunCounter := b.status.buildRunCounter))
            && e.ret.value.name != "" && e.ret.value.succeeded == None
  {
    hide FormatInt;
  }

  lemma DriftedMakes(s: World, k: Key, made: Made)
    requires WellFormed(s, k) && IsSpecDrifted(s.imageBuilds[k])
    requires !OwnsRun(s, s.imageBuilds[k], NextName(s.imageBuilds[k], SpecChange))
    requires ReconcileDefaultBuildRun(s, k).ret.Ok?
    ensures var d := ReconcileDefaultBuildRun(s, k);
            && d.ret.value.Some? && Finds(d.st, k, d.ret.value.value, MadeIn(s, k, d.st, made))
            && WellFormed(d.st, k)
            && d.st.imageBuilds[k].status.latestImage == s.imageBuilds[k].status.latestImage
  {
    hide IsSpecDrifted, Marshal, EnsureBuildRun, RunName, OwnsRun;
    EnsureMakes(s, k);
  }

  /** The run was created for the present inputs, and these are on record. */
  ghost predicate Finds(s: World, k: Key, run: BuildRun, made: Made)
    requires k in s.imageBuilds
  {
    var ib := s.imageBuilds[k];
    && Stored(s, k, run) && run.name != "" && RunKey(k, run.name) in made
    && made[RunKey(k, run.name)] == ib.spec.Inputs()
    && ANNOTATION_LAST_SPEC in ib.annotations
    && ib.annotations[ANNOTATION_LAST_SPEC] == Marshal(ib.spec.Inputs())
  }

  lemma UndriftedFinds(s: World, k: Key, made: Made)
    requires WellFormed(s, k) && !IsSpecDrifted(s.imageBuilds[k]) && AnnotationIsTrue(s.imageBuilds[k], made)
    ensures var run := LastBuildRun(s, s.imageBuilds[k]); run.Some? ==> Finds(s, k, run.value, made)
  {
    hide IsSpecDrifted, Marshal;
    var ib := s.imageBuilds[k];
    UndriftedIsNamed(ib);
    Convergence.DriftIsExact(ib, made[RunKey(k, ib.status.lastBuildRunRef)]);
  }

  lemma DefaultMakes(s: World, k: Key, made: Made)
    requires WellFormed(s, k) && AnnotationIsTrue(s.imageBuilds[k], made)
    requires !OwnsRun(s, s.imageBuilds[k], NextName(s.imageBuilds[k], SpecChange))
    requires ReconcileDefaultBuildRun(s, k).ret.Ok?
    ensures var d := ReconcileDefaultBuildRun(s, k);
            var made' := MadeIn(s, k, d.st, made);
            && WellFormed(d.st, k)
            && (d.ret.Ok? && d.ret.value.Some? ==> Finds(d.st, k, d.ret.value.value, made'))
            && (d.ret.Ok? && d.ret.value.None? ==>
                  LastBuildRun(d.st, d.st.imageBuilds[k]) == None && AnnotationIsTrue(d.st.imageBuilds[k], made'))
            && d.st.imageBuilds[k].status.latestImage == s.imageBuilds[k].status.latestImage
  {
    hide IsSpecDrifted, ReconcileDefaultBuildRun, Finds, OwnsRun, RunName;
    if IsSpecDrifted(s.imageBuilds[k]) {
      DriftedMakes(s, k, made);
    } else {
      Convergence.NoDriftFlow(s, k);
      UndriftedFinds(s, k, made);
      assert MadeIn(s, k, s, made) == made;
    }
  }

  lemma ReportKeepsAnnotation(s: World, k: Key, run: Option<BuildRun>, made: Made)
    requires WellFormed(s, k)
    requires if run.Some? then Finds(s, k, run.value, made) else AnnotationIsTrue(s.imageBuilds[k], made)
    ensures AnnotationIsTrue(ReconcileStatus(s, k, run).st.imageBuilds[k], made)
    ensures ReconcileStatus(s, k, run).st.runs == s.runs
  {
    hide ReconcileStatus, Marshal, IsReadyCurrent, Verdict, ComputeLatestImage;
    Convergence.StatusFacts(s, k, run);
  }

  lemma FlowOfDefault(s: World, k: Key)
    requires WellFormed(s, k) && !IsRebuildEnabled(s.imageBuilds[k])
    ensures var d := ReconcileDefaultBuildRun(s, k);
            if d.ret.Ok? then ReconcileRuns(s, k).st == ReconcileStatus(d.st, k, d.ret.value).st
            else ReconcileRuns(s, k).st == Apply(s, k, SetReady(False, BuildRunConflict))
  {
    hide ReconcileDefaultBuildRun, ReconcileStatus, Apply;
    Convergence.DefaultFacts(s, k);
  }

  lemma StaysUncalled(a: ImageBuild, t: World, b: ImageBuild)
    requires !IsRebuildEnabled(a) && b.spec == a.spec && b.status.onCommit == a.status.onCommit
    ensures !IsWaiting(t, b)
  {
    hide RemainingWait;
  }

  /** The run stages, with no on-commit rebuild called for. */
  lemma SpecChangeMakes(s: World, k: Key, made: Made)
    requires WellFormed(s, k) && !IsRebuildEnabled(s.imageBuilds[k]) && AnnotationIsTrue(s.imageBuilds[k], made)
    requires !OwnsRun(s, s.imageBuilds[k], NextName(s.imageBuilds[k], SpecChange))
    ensures var t := ReconcileRuns(s, k).st;
            AnnotationIsTrue(t.imageBuilds[k], MadeIn(s, k, t, made)) && ImageIsTrue(s, k, t, MadeIn(s, k, t, made))
  {
    hide IsSpecDrifted, Marshal, ReconcileDefaultBuildRun, ReconcileStatus, RunName, OwnsRun, ImageIsTrue,
         ReconcileRuns, LastBuildRun, IsWaiting;
    var d, t := ReconcileDefaultBuildRun(s, k), ReconcileRuns(s, k).st;
    FlowOfDefault(s, k);
    if d.ret.Ok? {
      DefaultMakes(s, k, made);
      Convergence.DefaultFacts(s, k);
      StaysUncalled(s.imageBuilds[k], d.st, d.st.imageBuilds[k]);
      var m := MadeIn(s, k, d.st, made);
      ReportIsTrue(d.st, k, d.ret.value, m);
      ReportKeepsAnnotation(d.st, k, d.ret.value, m);
      SameStart(s, d.st, k, t, m);
      assert MadeIn(s, k, t, made) == m;
    } else {
      FailureIsTrue(s, k, made, BuildRunConflict);
    }
  }

  lemma SameStart(s: World, s': World, k: Key, t: World, made: Made)
    requires k in s.imageBuilds && k in s'.imageBuilds && k in t.imageBuilds && ImageIsTrue(s', k, t, made)
    requires s'.imageBuilds[k].status.latestImage == s.imageBuilds[k].status.latestImage
    requires IsWaiting(s', s'.imageBuilds[k]) ==> IsWaiting(s, s.imageBuilds[k])
    ensures ImageIsTrue(s, k, t, made)
  {
    hide IsWaiting;
  }

  lemma FailureIsTrue(s: World, k: Key, made: Made, reason: Reason)
    requires WellFormed(s, k) && AnnotationIsTrue(s.imageBuilds[k], made)
    ensures var t := Apply(s, k, SetReady(False, reason));
            && MadeIn(s, k, t, made) == made
            && AnnotationIsTrue(t.imageBuilds[k], made) && ImageIsTrue(s, k, t, made)
  {
    hide IsWaiting;
  }

  /** The run stages over a push that has to wait. */
  lemma WaitMakes(s: World, k: Key, made: Made)
    requires WellFormed(s, k) && AnnotationIsTrue(s.imageBuilds[k], made) && IsWaiting(s, s.imageBuilds[k])
    ensures Makes(s, k, ReconcileRuns(s, k).st, made)
  {
    hide Marshal, ReconcileRuns, RemainingWait;
    Convergence.WaitRests(s, k);
    assert MadeIn(s, k, s, made) == made;
  }

  /** Afterwards the record and the report are true. */
  ghost predicate Makes(s: World, k: Key, t: World, made: Made)
    requires k in s.imageBuilds && k in t.imageBuilds
  {
    AnnotationIsTrue(t.imageBuilds[k], MadeIn(s, k, t, made)) && ImageIsTrue(s, k, t, MadeIn(s, k, t, made))
  }

  /** A duplicate is dropped, and the spec-change flow follows. */
  lemma DuplicateMakes(s: World, k: Key, made: Made)
    requires WellFormed(s, k) && AnnotationIsTrue(s.imageBuilds[k], made)
    requires IsDue(s, s.imageBuilds[k]) && IsDuplicateCommit(s.imageBuilds[k])
    requires !OwnsRun(s, s.imageBuilds[k], NextName(s.imageBuilds[k], SpecChange))
    ensures Makes(s, k, ReconcileRuns(s, k).st, made)
  {
    hide ReconcileStatus, RemainingWait, FallBack, Marshal, ImageIsTrue, RunName;
    var m, t := Apply(s, k, ClearPending), ReconcileRuns(s, k).st;
    WriteKeepsWellFormed(s, k, ClearPending);
    assert t == ReconcileRuns(m, k).st;
    hide ReconcileRuns;
    SpecChangeMakes(m, k, made);
    assert MadeIn(m, k, t, made) == MadeIn(s, k, t, made);
    SameStart(s, m, k, t, MadeIn(s, k, t, made));
  }

  /** The active run is reported on, and has no image yet. */
  lemma ActiveMakes(s: World, k: Key, made: Made)
    requires WellFormed(s, k) && AnnotationIsTrue(s.imageBuilds[k], made)
    requires IsDue(s, s.imageBuilds[k]) && !IsDuplicateCommit(s.imageBuilds[k])
    requires GetActiveBuildRun(s, s.imageBuilds[k]).Some?
    ensures Makes(s, k, ReconcileRuns(s, k).st, made)
  {
    hide ReconcileStatus, RemainingWait, Marshal, IsReadyCurrent, Verdict, ComputeLatestImage, IsWaiting;
    var run := GetActiveBuildRun(s, s.imageBuilds[k]);
    Convergence.FlowOfUse(s, k, run);
    hide ReconcileRuns;
    Convergence.StatusFacts(s, k, run);
    assert MadeIn(s, k, ReconcileRuns(s, k).st, made) == made;
  }

  /** What a trigger leaves behind. */
  ghost predicate HasTriggered(s: World, k: Key, t: World)
    requires k in s.imageBuilds && k in t.imageBuilds
  {
    var a, b, name := s.imageBuilds[k], t.imageBuilds[k], NextName(s.imageBuilds[k], OnCommit);
    var r := RunKey(k, name);
    && r !in s.runs && r in t.runs && t.runs == s.runs[r := t.runs[r]]
    && t.runs[r].name == name != "" && t.runs[r].succeeded == None
    && b.key == a.key && b.spec == a.spec && b.annotations == a.annotations && !HasPending(b)
    && b.status.lastBuildRunRef == name && b.status.latestImage == a.status.latestImage
  }

  lemma RunsTrigger(s: World, k: Key)
    requires WellFormed(s, k) && Convergence.WouldTrigger(s, s.imageBuilds[k])
    ensures HasTriggered(s, k, ReconcileRuns(s, k).st)
  {
    hide ReconcileStatus, RemainingWait, FormatInt, IsReadyCurrent, Verdict, ComputeLatestImage;
    var e := EnsureOnCommitBuildRun(s, k);
    assert ReconcileBuildRun(s, k) == e;
    Convergence.StatusFacts(e.st, k, e.ret.value.run);
  }

  /** Exactly if nothing has drifted does a trigger keep the record true. */
  lemma TriggerMakes(s: World, k: Key, made: Made)
    requires WellFormed(s, k) && AnnotationIsTrue(s.imageBuilds[k], made)
    requires Convergence.WouldTrigger(s, s.imageBuilds[k]) && !IsSpecDrifted(s.imageBuilds[k])
    ensures Makes(s, k, ReconcileRuns(s, k).st, made)
  {
    hide ReconcileRuns, Marshal, IsSpecDrifted, Convergence.WouldTrigger, IsWaiting, RunName, IsReadyCurrent;
    var ib := s.imageBuilds[k];
    RunsTrigger(s, k);
    UndriftedIsNamed(ib);
    Convergence.DriftIsExact(ib, made[RunKey(k, ib.status.lastBuildRunRef)]);
  }

  lemma ConflictMakes(s: World, k: Key, made: Made)
    requires WellFormed(s, k) && AnnotationIsTrue(s.imageBuilds[k], made)
    requires IsDue(s, s.imageBuilds[k]) && !IsDuplicateCommit(s.imageBuilds[k])
    requires GetActiveBuildRun(s, s.imageBuilds[k]) == None && !Convergence.WouldTrigger(s, s.imageBuilds[k])
    requires !OwnsRun(s, s.imageBuilds[k], NextName(s.imageBuilds[k], OnCommit))
    ensures Makes(s, k, ReconcileRuns(s, k).st, made)
  {
    hide ReconcileStatus, RemainingWait, FormatInt, Marshal, AnnotationIsTrue, ImageIsTrue, MadeIn;
    assert EnsureOnCommitBuildRun(s, k).ret == Err(AlreadyOwned) && EnsureOnCommitBuildRun(s, k).st == s;
    Convergence.FlowOfFailure(s, k, AlreadyOwned);
    FailureIsTrue(s, k, made, BuildRunReconcileFailed);
  }

  /** The ImageBuild controls no run under its next name of either family. */
  predicate NextAreFree(s: World, k: Key)
    requires k in s.imageBuilds
  {
    && !OwnsRun(s, s.imageBuilds[k], NextName(s.imageBuilds[k], SpecChange))
    && !OwnsRun(s, s.imageBuilds[k], NextName(s.imageBuilds[k], OnCommit))
  }

  lemma RunsMake(s: World, k: Key, made: Made)
    requires WellFormed(s, k) && AnnotationIsTrue(s.imageBuilds[k], made)
    requires NextAreFree(s, k)
    requires Convergence.WouldTrigger(s, s.imageBuilds[k]) ==> !IsSpecDrifted(s.imageBuilds[k])
    ensures Makes(s, k, ReconcileRuns(s, k).st, made)
  {
    hide ReconcileRuns, AnnotationIsTrue, ImageIsTrue, MadeIn, OwnsRun, IsSpecDrifted, RunName, RemainingWait;
    var ib := s.imageBuilds[k];
    if !IsRebuildEnabled(ib) {
      SpecChangeMakes(s, k, made);
    } else if !IsDue(s, ib) {
      WaitMakes(s, k, made);
    } else if IsDuplicateCommit(ib) {
      DuplicateMakes(s, k, made);
    } else if GetActiveBuildRun(s, ib).Some? {
      ActiveMakes(s, k, made);
    } else if Convergence.WouldTrigger(s, ib) {
      TriggerMakes(s, k, made);
    } else {
      ConflictMakes(s, k, made);
    }
  }

  lemma MidTriggers(s: World, k: Key, mid: World)
    requires WellFormed(s, k) && WellFormed(mid, k) && Convergence.SameRuns(s, k, mid)
    requires Reconcile(s, k).st == ReconcileRuns(mid, k).st && Convergence.WouldTrigger(mid, mid.imageBuilds[k])
    ensures Triggers(s, k)
  {
    hide Reconcile, ReconcileRuns, RunName, Convergence.WouldTrigger;
    RunsTrigger(mid, k);
  }

  lemma SameNext(s: World, k: Key, t: World)
    requires k in s.imageBuilds && k in t.imageBuilds && Convergence.SameRuns(s, k, t)
    ensures IsWaiting(t, t.imageBuilds[k]) == IsWaiting(s, s.imageBuilds[k])
    ensures NextAreFree(t, k) == NextAreFree(s, k)
  {
    hide RunName;
  }

  /** A complete pass that, if it triggers, starts undrifted. */
  lemma PassMakes(s: World, k: Key, made: Made)
    requires WellFormed(s, k) && AnnotationIsTrue(s.imageBuilds[k], made)
    requires NextAreFree(s, k)
    requires Triggers(s, k) ==> !IsSpecDrifted(s.imageBuilds[k])
    ensures Makes(s, k, Reconcile(s, k).st, made)
  {
    hide Reconcile, ReconcileRuns, ReconcileBuild, Convergence.SetUp, ImageIsTrue, Marshal, RunName, Apply, IsWaiting,
         IsSpecDrifted, Convergence.WouldTrigger, Triggers, NextAreFree;
    var mid, failure := Convergence.PassSplits(s, k);
    var t := Reconcile(s, k).st;
    SameNext(s, k, mid);
    assert MadeIn(mid, k, t, made) == MadeIn(s, k, t, made);
    if failure.Some? {
      FailureIsTrue(mid, k, made, failure.value);
    } else {
      Convergence.SameDrift(s.imageBuilds[k], mid.imageBuilds[k]);
      if Convergence.WouldTrigger(mid, mid.imageBuilds[k]) {
        MidTriggers(s, k, mid);
      }
      RunsMake(mid, k, made);
    }
    SameStart(s, mid, k, t, MadeIn(s, k, t, made));
  }

  // ---- whole runs ----------------------------------------------------------

  lemma ActionKeepsAnnotation(x: System, k: Key, a: Action, steps: nat, made: Made)
    requires Inv(x, k, steps) && k in x.w.imageBuilds && IsComplete(a) && Legal(x, k, Events(x, k, a))
    requires Excess(x, k) == 0 && steps < MAX_INT64
    requires AnnotationIsTrue(x.w.imageBuilds[k], made)
    requires a.Pass? && Triggers(x.w, k) ==> !IsSpecDrifted(x.w.imageBuilds[k])
    ensures var y := After(x, k, Events(x, k, a)).w;
            AnnotationIsTrue(y.imageBuilds[k], if a.Pass? then MadeIn(x.w, k, Reconcile(x.w, k).st, made) else made)
  {
    hide Inv, Legal, After, Events, Reconcile, Excess, OwnsRun, CountersAgree, Marshal, MadeIn, Triggers,
         ImageIsTrue, RunName, IsSpecDrifted;
    InvParts(x, k, steps);
    CompleteAction(x, k, a);
    if a.Pass? {
      NextIsFree(x, k, SpecChange);
      NextIsFree(x, k, OnCommit);
      PassMakes(x.w, k, made);
    }
  }

  lemma {:induction false} RunsKeepAnnotation(x: System, k: Key, acts: seq<Action>, steps: nat, made: Made)
    requires Inv(x, k, steps) && k in x.w.imageBuilds && LegalRun(x, k, acts) && Excess(x, k) == 0
    requires steps + MAX_WRITES * |acts| < MAX_INT64
    requires forall a :: a in acts ==> IsComplete(a)
    requires TriggersUndrifted(x, k, acts) && AnnotationIsTrue(x.w.imageBuilds[k], made)
    ensures AnnotationIsTrue(Play(x, k, acts).w.imageBuilds[k], MadeBy(x, k, acts, made))
    decreases |acts|
  {
    hide Inv, Legal, After, Events, Excess, AnnotationIsTrue, MadeIn, Reconcile, Triggers, IsSpecDrifted;
    if acts != [] {
      var es := Events(x, k, acts[0]);
      assert acts[0] in acts;
      EventsAreShort(x, k, acts[0]);
      ActionKeepsExcess(x, k, acts[0], steps);
      ActionKeepsAnnotation(x, k, acts[0], steps, made);
      RunKeepsInv(x, k, es, steps);
      RunsKeepAnnotation(After(x, k, es), k, acts[1..], steps + |es|,
                         if acts[0].Pass? then MadeIn(x.w, k, Reconcile(x.w, k).st, made) else made);
    }
  }

  /** The reported image is faithful.  Over any run of complete passes, pushes, edits and reverts of
      the specification, and anything else the environment does, in which no pass that triggers
      starts drifted: after the next pass the annotation holds the very inputs that the run last
      reported on was created for; unless the pass had to wait, a successful run with a digest is
      reported as the output it was created for, by its own digest; and nothing else is reported. */
  lemma LatestImageIsFaithful(x: System, k: Key, acts: seq<Action>)
    requires IsRun(x, k, acts) && MAX_WRITES * |acts| < MAX_INT64
    requires (forall a :: a in acts ==> IsComplete(a)) && TriggersUndrifted(x, k, acts)
    requires var s := Play(x, k, acts).w; Triggers(s, k) ==> !IsSpecDrifted(s.imageBuilds[k])
    ensures var s := Play(x, k, acts).w;
            Makes(s, k, Reconcile(s, k).st, MadeBy(x, k, acts, map[]))
  {
    hide Inv, LegalRun, Play, Excess, AnnotationIsTrue, MadeIn, Reconcile, CountersAgree, MadeBy, Triggers,
         TriggersUndrifted, OwnsRun, NextName, Makes, IsSpecDrifted;
    InitInv(x, k);
    FreshIsTrue(x, k);
    RunsKeepAnnotation(x, k, acts, 0, map[]);
    NextIsFreeAfter(x, k, acts, SpecChange);
    NextIsFreeAfter(x, k, acts, OnCommit);
    PassMakes(Play(x, k, acts).w, k, MadeBy(x, k, acts, map[]));
  }

  lemma FreshIsTrue(x: System, k: Key)
    requires Init(x, k)
    ensures Excess(x, k) == 0 && AnnotationIsTrue(x.w.imageBuilds[k], map[])
  {
  }

  // ---- with on-commit rebuilds ---------------------------------------------

  ghost predicate NoImageIn(ws: seq<Write>) {
    forall w :: w in ws ==> !w.SetLatestImage?
  }

  ghost predicate SameImage(a: ImageBuild, b: ImageBuild) {
    b.spec == a.spec && b.status.latestImage == a.status.latestImage && b.key == a.key
  }

  lemma {:induction false} OtherWritesLeaveImage(s: World, k: Key, ws: seq<Write>)
    requires k in s.imageBuilds && NoImageIn(ws)
    ensures SameImage(s.imageBuilds[k], Exec(s, k, ws).imageBuilds[k])
    decreases |ws|
  {
    if ws != [] {
      assert ws[0] in ws;
      OtherWritesLeaveImage(Apply(s, k, ws[0]), k, ws[1..]);
    }
  }

  lemma RunStagesLeaveImage(s: World, k: Key)
    requires k in s.imageBuilds
    ensures NoImageIn(ReconcileOnCommitBuildRun(s, k).writes) && NoImageIn(FallBack(s, k).writes)
  {
    hide RemainingWait, RunName, Apply, IsSpecDrifted;
  }

  /** What the run stages report, if anything, is about some successful run and the output in the
      specification. */
  lemma RunsReportSpec(s: World, k: Key)
    requires WellFormed(s, k)
    ensures var a, b := s.imageBuilds[k], ReconcileRuns(s, k).st.imageBuilds[k];
            b.status.latestImage != a.status.latestImage ==>
              var r := RunKey(k, b.status.lastBuildRunRef);
              && r in ReconcileRuns(s, k).st.runs
              && var run := ReconcileRuns(s, k).st.runs[r];
                 IsSuccessful(run) &&
                 b.status.latestImage ==
                   if run.digest != "" then Digested(a.spec.Inputs(), run) else a.spec.output.image
  {
    hide ReconcileOnCommitBuildRun, FallBack, ReconcileStatus, IsReadyCurrent, Verdict;
    hide NoImageIn, Exec, AllGuarded;
    var o := ReconcileOnCommitBuildRun(s, k);
    OnCommitObeys(s, k);
    FallBackObeys(o.st, k);
    RunStagesLeaveImage(s, k);
    RunStagesLeaveImage(o.st, k);
    OtherWritesLeaveImage(s, k, o.writes);
    OtherWritesLeaveImage(o.st, k, FallBack(o.st, k).writes);
    var r := ReconcileBuildRun(s, k);
    if r.ret.Ok? && r.ret.value.Use? {
      Convergence.StatusFacts(r.st, k, r.ret.value.run);
    }
  }

  lemma PassTriggers(s: World, k: Key)
    requires WellFormed(s, k) && Triggers(s, k)
    ensures HasTriggered(s, k, Reconcile(s, k).st)
  {
    hide Reconcile, ReconcileRuns, ReconcileBuild, RunName, Convergence.WouldTrigger, Convergence.SetUp;
    var mid, failure := Convergence.PassSplits(s, k);
    assert failure.None?;
    Convergence.RunsCreate(mid, k);
    NextNamesDiffer(s.imageBuilds[k]);
    RunsTrigger(mid, k);
  }

  /** The present inputs are on record. */
  ghost predicate IsRecorded(ib: ImageBuild) {
    ANNOTATION_LAST_SPEC in ib.annotations && ib.annotations[ANNOTATION_LAST_SPEC] == Marshal(ib.spec.Inputs())
  }

  /** What decides is drift at the trigger.  A pass that triggers leaves the record true exactly if
      the present inputs were on record when it started, which, once some run has been reported on,
      is to say exactly if it did not start drifted. */
  lemma TriggerKeepsRecordExactly(s: World, k: Key, made: Made)
    requires WellFormed(s, k) && AnnotationIsTrue(s.imageBuilds[k], made) && Triggers(s, k)
    ensures var t, ib := Reconcile(s, k).st, s.imageBuilds[k];
            && (AnnotationIsTrue(t.imageBuilds[k], MadeIn(s, k, t, made)) <==> IsRecorded(ib))
            && (ib.status.lastBuildRunRef != "" ==> (IsRecorded(ib) <==> !IsSpecDrifted(ib)))
  {
    hide Reconcile, Marshal, IsSpecDrifted, Triggers, RunName;
    var ib := s.imageBuilds[k];
    PassTriggers(s, k);
    if ib.status.lastBuildRunRef != "" {
      var before := made[RunKey(k, ib.status.lastBuildRunRef)];
      Convergence.DriftIsExact(ib, before);
      if IsRecorded(ib) {
        MarshalRoundTrip(before);
        MarshalRoundTrip(ib.spec.Inputs());
      }
    }
  }

  /** Once the record is not true, it depends on later edits what is reported: the output in the
      specification at the time, by the digest of the run.  For a run whose inputs are known, that is
      its own output exactly if the specification names it then. */
  lemma ReportFollowsSpec(s: World, k: Key, made: Made)
    requires WellFormed(s, k)
    ensures var t := Reconcile(s, k).st;
            var a, b := s.imageBuilds[k], t.imageBuilds[k];
            var r := RunKey(k, b.status.lastBuildRunRef);
            b.status.latestImage != a.status.latestImage ==>
              && r in t.runs && IsSuccessful(t.runs[r])
              && (r in made && t.runs[r].digest != "" ==>
                    (b.status.latestImage == Digested(made[r], t.runs[r])
                     <==> made[r].output.image == a.spec.output.image))
  {
    hide Reconcile, ReconcileRuns, ReconcileBuild, Convergence.SetUp;
    var mid, failure := Convergence.PassSplits(s, k);
    if failure.None? {
      RunsReportSpec(mid, k);
      var t := Reconcile(s, k).st;
      var r := RunKey(k, t.imageBuilds[k].status.lastBuildRunRef);
      if r in t.runs && r in made {
        SameDigested(made[r], s.imageBuilds[k].spec.Inputs(), t.runs[r]);
      }
    }
  }

  lemma SameDigested(a: BuildInputs, b: BuildInputs, run: BuildRun)
    ensures Digested(a, run) == Digested(b, run) <==> a.output.image == b.output.image
  {
    var m, n := a.output.image, b.output.image;
    if Digested(a, run) == Digested(b, run) {
      assert m == Digested(a, run)[..|m|];
      assert n == Digested(b, run)[..|n|];
      assert |m| == |n|;
    }
  }

  /** The user puts another output into the specification, and a BuildRun succeeds. */
  function Reverted(t: World, k: Key, image: string, name: string, digest: string): World
    requires k in t.imageBuilds && RunKey(k, name) in t.runs
  {
    var ib, run := t.imageBuilds[k], t.runs[RunKey(k, name)];
    t.(imageBuilds := t.imageBuilds[k := ib.(generation := ib.generation + 1, spec := WithImage(ib.spec, image))],
       runs := t.runs[RunKey(k, name) := run.(succeeded := Some(True), digest := digest)])
  }

  lemma TriggeredFrom(s: World, k: Key, mid: World, t: World)
    requires WellFormed(s, k) && WellFormed(mid, k) && Convergence.SameRuns(s, k, mid)
    requires k in t.imageBuilds && HasTriggered(mid, k, t)
    ensures HasTriggered(s, k, t)
  {
    hide RunName;
  }

  lemma TriggeringPass(s: World, k: Key)
    requires WellFormed(s, k) && Convergence.SetupStands(s, k) && Convergence.WouldTrigger(s, s.imageBuilds[k])
    ensures var t := Reconcile(s, k).st; WellFormed(t, k) && Convergence.SetUp(t, k) && HasTriggered(s, k, t)
  {
    hide Reconcile, ReconcileRuns, Convergence.WouldTrigger, Convergence.SetUp, HasTriggered, Convergence.SetUpWorld,
         Convergence.SetupWrites, Convergence.SetupStands, Convergence.SameRuns;
    var mid := Convergence.SetUpWorld(s, k);
    Convergence.SetupSucceeds(s, k);
    Convergence.SameTrigger(s, k, mid);
    Convergence.RunsKeepSetup(mid, k);
    Convergence.SetupCarries(mid, k, ReconcileRuns(mid, k).st);
    Convergence.RunsKeepWellFormed(mid, k);
    RunsTrigger(mid, k);
    TriggeredFrom(s, k, mid, ReconcileRuns(mid, k).st);
  }

  lemma RevertedBuild(t: World, k: Key, image: string, name: string, digest: string)
    requires WellFormed(t, k) && Convergence.SetUp(t, k) && RunKey(k, name) in t.runs
    ensures var u := Reverted(t, k, image, name, digest);
            ReconcileBuild(u, k).ret.Ok? && Reconcile(u, k).st == ReconcileRuns(ReconcileBuild(u, k).st, k).st
  {
    hide NewBuildSpec, ReconcileRuns;
  }

  /** With the present inputs on record, the last run is reported on, whatever it was created for. */
  lemma RecordedIsReported(u: World, k: Key)
    requires WellFormed(u, k) && IsRecorded(u.imageBuilds[k]) && !HasPending(u.imageBuilds[k])
    requires ReconcileBuild(u, k).ret.Ok? && Reconcile(u, k).st == ReconcileRuns(ReconcileBuild(u, k).st, k).st
    requires var ib := u.imageBuilds[k];
             var r := RunKey(k, ib.status.lastBuildRunRef);
             ib.status.lastBuildRunRef != "" && r in u.runs && IsSuccessful(u.runs[r]) && u.runs[r].digest != ""
    ensures var ib := u.imageBuilds[k];
            Reconcile(u, k).st.imageBuilds[k].status.latestImage
              == Digested(ib.spec.Inputs(), u.runs[RunKey(k, ib.status.lastBuildRunRef)])
  {
    hide Reconcile, ReconcileRuns, ReconcileBuild, Marshal, ReconcileStatus, IsReadyCurrent, Verdict,
         ReconcileDefaultBuildRun, Convergence.BuildInPlace;
    Convergence.BuildStage(u, k);
    var m := ReconcileBuild(u, k).st;
    Convergence.DriftIsExact(m.imageBuilds[k], m.imageBuilds[k].spec.Inputs());
    Convergence.NoDriftFlow(m, k);
    FlowOfDefault(m, k);
    Convergence.StatusFacts(m, k, LastBuildRun(m, m.imageBuilds[k]));
  }

  /** Not faithful with on-commit rebuilds: a push is built while the specification names one
      output, the specification then goes back to the one last recorded, and the image of the
      on-commit run is reported under that one. */
  lemma RevertMisreports(s: World, k: Key, image: string, digest: string)
    requires WellFormed(s, k) && Convergence.SetupStands(s, k) && Convergence.WouldTrigger(s, s.imageBuilds[k])
    requires var ib := s.imageBuilds[k];
             && ANNOTATION_LAST_SPEC in ib.annotations
             && ib.annotations[ANNOTATION_LAST_SPEC] == Marshal(WithImage(ib.spec, image).Inputs())
    requires digest != ""
    ensures var t, name := Reconcile(s, k).st, NextName(s.imageBuilds[k], OnCommit);
            && RunKey(k, name) !in s.runs && RunKey(k, name) in t.runs && k in t.imageBuilds
            && var u := Reverted(t, k, image, name, digest);
               && EnvStep(t, k, u)
               && k in Reconcile(u, k).st.imageBuilds
               && Reconcile(u, k).st.imageBuilds[k].status.latestImage == image + "@" + digest
  {
    hide Reconcile, ReconcileRuns, ReconcileBuild, Convergence.SetUp, Convergence.SetupStands, Convergence.WouldTrigger,
         Marshal, RunName;
    TriggeringPass(s, k);
    var t, name := Reconcile(s, k).st, NextName(s.imageBuilds[k], OnCommit);
    RevertedBuild(t, k, image, name, digest);
    RecordedIsReported(Reverted(t, k, image, name, digest), k);
  }

  const PUSHED := Some(OnCommitStatus(Some(PUSH), Some(PUSH), None, 0))

  lemma EditedTriggers(run: BuildRun)
    requires run == FirstRun(Some(True), "sha256:a")
    ensures var s := Edited(Some(MODE_ON_COMMIT), PUSHED, run); Convergence.WouldTrigger(s, s.imageBuilds[APP])
  {
    hide RunName, Marshal, Verdict;
    OtherNames(OnCommit, 1);
  }

  /** A push that comes with an edit to registry/two is built; its image is reported as registry/one
      once the edit is undone. */
  lemma ExampleMisreports()
    ensures var s := Edited(Some(MODE_ON_COMMIT), PUSHED, FirstRun(Some(True), "sha256:a"));
            var t, name := Reconcile(s, APP).st, NextName(s.imageBuilds[APP], OnCommit);
            && s.imageBuilds[APP].spec.output.image == "registry/two"
            && RunKey(APP, name) !in s.runs && RunKey(APP, name) in t.runs
            && APP in t.imageBuilds
            && var u := Reverted(t, APP, "registry/one", name, "sha256:b");
               && APP in Reconcile(u, APP).st.imageBuilds
               && Reconcile(u, APP).st.imageBuilds[APP].status.latestImage == "registry/one" + "@" + "sha256:b"
  {
    hide Reconcile, Marshal, RunName, Convergence.SetupStands, Convergence.SetUp, Convergence.WouldTrigger, Verdict,
         IsSpecDrifted;
    var run := FirstRun(Some(True), "sha256:a");
    var s := Edited(Some(MODE_ON_COMMIT), PUSHED, run);
    EditedStands(Some(MODE_ON_COMMIT), PUSHED, Some(True), "sha256:a");
    EditedTriggers(run);
    assert BuiltSpec(Some(MODE_ON_COMMIT)) == WithImage(s.imageBuilds[APP].spec, "registry/one");
    RevertMisreports(s, APP, "registry/one", "sha256:b");
  }
}
