/** What a complete pass answers, from any state, in the terms of the objects themselves: whether it
    asks to be repeated and when, what it blames, and what it goes on to do.  The definitions here
    are written out field by field and share nothing with those the controller works by. */
module Answers {
  import opened ImageBuilds
  import opened Names
  import opened LastSpec
  import opened Cluster
  import opened ReconcileSpec
  import opened Guards
  import opened Convergence

  // ---- what stands in the way ----------------------------------------------

  /** A webhook secret is configured, and it or its key is missing. */
  ghost predicate SecretIsMissing(s: World, k: Key)
    requires k in s.imageBuilds
  {
    match s.imageBuilds[k].spec.onCommit
    case None => false
    case Some(ref) => Key(k.ns, ref.name) !in s.secrets || ref.key !in s.secrets[Key(k.ns, ref.name)]
  }

  /** There is no policy, or not the strategy it names for the presence or absence of a build file. */
  ghost predicate StrategyIsMissing(s: World, k: Key)
    requires k in s.imageBuilds
  {
    match s.policy
    case None => true
    case Some(policy) =>
      if s.imageBuilds[k].spec.buildFile == "Present" then policy.present !in s.strategies
      else policy.absent !in s.strategies
  }

  /** The object belongs to somebody else than the ImageBuild of that name. */
  ghost predicate IsHeld(controller: Option<OwnerRef>, k: Key) {
    match controller
    case None => false
    case Some(o) => o.kind != "ImageBuild" || o.name != k.name
  }

  ghost predicate BuildIsHeld(s: World, k: Key) {
    var b := Key(k.ns, k.name + "-build");
    b in s.builds && IsHeld(s.builds[b].controller, k)
  }

  lemma StandingMeans(s: World, k: Key)
    requires WellFormed(s, k)
    ensures SetupStands(s, k) <==> !SecretIsMissing(s, k) && !StrategyIsMissing(s, k) && !BuildIsHeld(s, k)
  {
  }

  // ---- what there is to do -------------------------------------------------

  ghost predicate HasPush(ib: ImageBuild) {
    ib.spec.rebuild == Some("OnCommit") && ib.status.onCommit.Some? && ib.status.onCommit.value.pending.Some?
  }

  /** What is left of ten seconds since the push was received, or else of thirty since the last
      trigger; times that were never set do not count. */
  ghost function WaitLeft(oc: OnCommitStatus, now: int): int
    requires oc.pending.Some?
  {
    var received := oc.pending.value.receivedAt;
    var triggered := if oc.lastTriggered.Some? then oc.lastTriggered.value.triggeredAt else 0;
    if received != 0 && now < received + 10_000_000_000 then received + 10_000_000_000 - now
    else if triggered != 0 && now < triggered + 30_000_000_000 then triggered + 30_000_000_000 - now
    else 0
  }

  /** The commit of the pending push is the one last triggered. */
  ghost predicate IsRepeated(oc: OnCommitStatus)
    requires oc.pending.Some?
  {
    exists t :: oc.lastTriggered == Some(t) && t.commitSHA == oc.pending.value.commitSHA
  }

  /** The controller is this very ImageBuild, by its UID. */
  ghost predicate IsOwn(controller: Option<OwnerRef>, ib: ImageBuild) {
    match controller
    case None => false
    case Some(o) => o.uid == ib.uid
  }

  /** The run last reported on is the ImageBuild's and has neither succeeded nor failed. */
  ghost predicate LastIsActive(s: World, k: Key)
    requires k in s.imageBuilds
  {
    var ib := s.imageBuilds[k];
    var r := Key(k.ns, ib.status.lastBuildRunRef);
    && ib.status.lastBuildRunRef != "" && r in s.runs
    && IsOwn(s.runs[r].controller, ib)
    && (s.runs[r].succeeded == None || s.runs[r].succeeded == Some(Unknown))
  }

  /** No run has been reported on, or the inputs on record, if any, are not the present ones. */
  ghost predicate HasDrifted(ib: ImageBuild) {
    || ib.status.lastBuildRunRef == ""
    || "build.dana.io/last-build-spec" !in ib.annotations
    || Unmarshal(ib.annotations["build.dana.io/last-build-spec"]) !=
         Some(BuildInputs(ib.spec.source, ib.spec.buildFile, ib.spec.output))
  }

  datatype Want = WaitFor(left: int) | Create(family: Family) | Report

  /** What a pass wants, once its setup stands: to wait, to create a run, or just to report. */
  ghost function Wanted(s: World, k: Key): Want
    requires k in s.imageBuilds
  {
    var ib := s.imageBuilds[k];
    var change := if HasDrifted(ib) then Create(SpecChange) else Report;
    if !HasPush(ib) then change
    else
      var oc := ib.status.onCommit.value;
      if WaitLeft(oc, s.clock) > 0 then WaitFor(WaitLeft(oc, s.clock))
      else if IsRepeated(oc) then change
      else if LastIsActive(s, k) then Report
      else Create(OnCommit)
  }

  /** The name a pass wants to create a run under. */
  ghost function WantedName(ib: ImageBuild, k: Key, f: Family): Key {
    match f
    case SpecChange => Key(k.ns, k.name + "-buildrun-" + FormatInt(NextCounter(ib.status.buildRunCounter)))
    case OnCommit =>
      var n := if ib.status.onCommit.Some? then ib.status.onCommit.value.triggerCounter else 0;
      Key(k.ns, k.name + "-buildrun-oncommit-" + FormatInt(NextCounter(n)))
  }

  /** A run of that name is there and not the ImageBuild's. */
  ghost predicate NameIsHeld(s: World, k: Key, f: Family)
    requires k in s.imageBuilds
  {
    var r := WantedName(s.imageBuilds[k], k, f);
    r in s.runs && !IsOwn(s.runs[r].controller, s.imageBuilds[k])
  }

  lemma WantedNameIsNext(s: World, k: Key, f: Family)
    requires WellFormed(s, k)
    ensures WantedName(s.imageBuilds[k], k, f) == RunKey(k, NextName(s.imageBuilds[k], f))
    ensures var name := NextName(s.imageBuilds[k], f);
            NameIsHeld(s, k, f) <==> RunKey(k, name) in s.runs && !OwnsRun(s, s.imageBuilds[k], name)
  {
    hide FormatInt;
  }

  lemma PushMeans(s: World, k: Key)
    requires WellFormed(s, k)
    ensures var ib := s.imageBuilds[k];
            && (HasPush(ib) <==> IsRebuildEnabled(ib))
            && (HasPush(ib) ==>
                  var oc := ib.status.onCommit.value;
                  var left := WaitLeft(oc, s.clock);
                  && RemainingWait(ib, s.clock) == (if left > 0 then Some(left) else None)
                  && (IsDuplicateCommit(ib) <==> IsRepeated(oc)))
  {
  }

  lemma ActiveMeans(s: World, k: Key)
    requires WellFormed(s, k)
    ensures GetActiveBuildRun(s, s.imageBuilds[k]).Some? <==> LastIsActive(s, k)
  {
    var r := Key(k.ns, s.imageBuilds[k].status.lastBuildRunRef);
    if r in s.runs {
      ActivityMeans(s.runs[r]);
    }
  }

  lemma ActivityMeans(run: BuildRun)
    ensures IsActive(run) <==> run.succeeded == None || run.succeeded == Some(Unknown)
  {
    if run.succeeded.Some? {
      match run.succeeded.value
      case True =>
      case False =>
      case Unknown =>
    }
  }

  lemma DriftMeans(ib: ImageBuild)
    ensures IsSpecDrifted(ib) <==> HasDrifted(ib)
  {
    hide Unmarshal;
  }

  lemma WantedMeans(s: World, k: Key)
    requires WellFormed(s, k)
    ensures var ib := s.imageBuilds[k];
            && (Wanted(s, k).WaitFor? <==> IsRebuildEnabled(ib) && !IsDue(s, ib))
            && (Wanted(s, k).WaitFor? ==> RemainingWait(ib, s.clock) == Some(Wanted(s, k).left))
            && (FallsBack(s, ib) ==> Wanted(s, k) == if IsSpecDrifted(ib) then Create(SpecChange) else Report)
            && (IsDue(s, ib) && !IsDuplicateCommit(ib) ==>
                  Wanted(s, k) == if GetActiveBuildRun(s, ib).Some? then Report else Create(OnCommit))
  {
    hide RemainingWait, WaitLeft, IsRepeated, LastIsActive, IsDuplicateCommit, GetActiveBuildRun, IsSpecDrifted,
         HasDrifted;
    DriftMeans(s.imageBuilds[k]);
    PushMeans(s, k);
    ActiveMeans(s, k);
  }

  // ---- what the run stages answer ------------------------------------------

  /** Ten seconds to the next pass while the verdict on record is open, otherwise none. */
  ghost function PollAfter(ib: ImageBuild): int {
    match ib.status.conditions.buildSucceeded
    case None => 0
    case Some(c) => if c.status == Unknown then 10_000_000_000 else 0
  }

  lemma StatusAnswers(s: World, k: Key, run: Option<BuildRun>)
    requires k in s.imageBuilds
    ensures var t := ReconcileStatus(s, k, run);
            (if t.ret == Ok(true) then POLL_INTERVAL else 0) == PollAfter(t.st.imageBuilds[k])
    ensures IsReadyCurrent(ReconcileStatus(s, k, run).st.imageBuilds[k])
  {
    hide ReportRun, ReportReady, ReportImage, IsReadyCurrent;
    StatusFacts(s, k, run);
  }

  /** The pass has reported: it is ready, and polls while the verdict is open. */
  ghost predicate HasReported(p: Plan<Outcome>, k: Key) {
    && k in p.st.imageBuilds
    && (var ib := p.st.imageBuilds[k];
        && ib.status.conditions.ready == Some(Condition(True, Reconciled, ib.generation))
        && p.ret == Outcome(PollAfter(ib), false))
  }

  /** The pass has blamed this, and asks to be repeated after so long. */
  ghost predicate HasFailed(p: Plan<Outcome>, k: Key, reason: Reason, delay: int) {
    && k in p.st.imageBuilds
    && (var ib := p.st.imageBuilds[k];
        && ib.status.conditions.ready == Some(Condition(False, reason, ib.generation))
        && p.ret == Outcome(delay, false))
  }

  lemma UseAnswers(s: World, k: Key, run: Option<BuildRun>)
    requires k in s.imageBuilds && ReconcileBuildRun(s, k).ret == Ok(Use(run))
    ensures HasReported(ReconcileRuns(s, k), k)
  {
    hide ReconcileBuildRun, ReconcileStatus, PollAfter;
    StatusAnswers(ReconcileBuildRun(s, k).st, k, run);
  }

  lemma FallBackAnswers(s: World, k: Key)
    requires WellFormed(s, k)
    ensures var a := s.imageBuilds[k];
            var r := RunKey(k, NextName(a, SpecChange));
            var f := FallBack(s, k);
            if IsSpecDrifted(a) && r in s.runs && !OwnsRun(s, a, NextName(a, SpecChange)) then
              && f.ret == Err(BuildRunError(AlreadyOwned)) && f.st.runs == s.runs
              && f.st.imageBuilds[k].status.conditions.ready == Some(Condition(False, BuildRunConflict, a.generation))
              && f.st.imageBuilds[k].generation == a.generation
            else f.ret.Ok? && f.ret.value.Use?
  {
    hide IsSpecDrifted, RunName;
  }

  lemma OnCommitAnswers(s: World, k: Key)
    requires WellFormed(s, k) && IsDue(s, s.imageBuilds[k]) && !IsDuplicateCommit(s.imageBuilds[k])
    requires GetActiveBuildRun(s, s.imageBuilds[k]) == None
    ensures var a := s.imageBuilds[k];
            var r := RunKey(k, NextName(a, OnCommit));
            var e := EnsureOnCommitBuildRun(s, k);
            if r in s.runs && !OwnsRun(s, a, NextName(a, OnCommit)) then e == Plan([], s, Err(AlreadyOwned))
            else e.ret.Ok? && e.ret.value.Use?
  {
    hide RunName, RemainingWait;
  }

  /** The name the pass wants is somebody else's. */
  ghost predicate IsRefused(s: World, k: Key)
    requires k in s.imageBuilds
  {
    Wanted(s, k).Create? && NameIsHeld(s, k, Wanted(s, k).family)
  }

  /** A refusal is blamed on the stage that met it. */
  function Refusal(f: Family): Reason {
    match f
    case SpecChange => BuildRunConflict
    case OnCommit => BuildRunReconcileFailed
  }

  /** Waits and says how long, is refused a name and does not come back for it, or reports. */
  ghost predicate Answered(s: World, k: Key, p: Plan<Outcome>)
    requires k in s.imageBuilds
  {
    if Wanted(s, k).WaitFor? then
      && k in p.st.imageBuilds && p.ret == Outcome(Wanted(s, k).left, false) && p.st.runs == s.runs
      && p.st.imageBuilds[k].status.conditions.ready == s.imageBuilds[k].status.conditions.ready
    else if IsRefused(s, k) then HasFailed(p, k, Refusal(Wanted(s, k).family), 0) && p.st.runs == s.runs
    else HasReported(p, k)
  }

  lemma WaitAnswers(s: World, k: Key)
    requires WellFormed(s, k) && Wanted(s, k).WaitFor?
    ensures Answered(s, k, ReconcileRuns(s, k))
  {
    hide RemainingWait, FallBack, ReconcileStatus, Wanted;
    WantedMeans(s, k);
    WaitRests(s, k);
  }

  lemma ProceedAnswers(s: World, k: Key)
    requires WellFormed(s, k) && FallsBack(s, s.imageBuilds[k])
    ensures Answered(s, k, ReconcileRuns(s, k))
  {
    hide RemainingWait, FallBack, ReconcileStatus, Wanted, IsSpecDrifted, NameIsHeld, NextName, OwnsRun, HasReported,
         IsRebuildEnabled, IsDuplicateCommit, IsDue;
    var a := s.imageBuilds[k];
    WantedMeans(s, k);
    WantedNameIsNext(s, k, SpecChange);
    var o := ReconcileOnCommitBuildRun(s, k);
    ProceedFacts(s, k);
    FallBackAnswers(o.st, k);
    var f := FallBack(o.st, k);
    if f.ret.Ok? {
      UseAnswers(s, k, f.ret.value.run);
    }
  }

  lemma ProceedFacts(s: World, k: Key)
    requires WellFormed(s, k) && FallsBack(s, s.imageBuilds[k])
    ensures var o := ReconcileOnCommitBuildRun(s, k);
            var a, b := s.imageBuilds[k], o.st.imageBuilds[k];
            && o.ret == Ok(Proceed) && WellFormed(o.st, k) && o.st.runs == s.runs
            && NextName(b, SpecChange) == NextName(a, SpecChange) && IsSpecDrifted(b) == IsSpecDrifted(a)
            && OwnsRun(o.st, b, NextName(a, SpecChange)) == OwnsRun(s, a, NextName(a, SpecChange))
            && b.generation == a.generation
  {
    hide RemainingWait, RunName, Unmarshal;
  }

  lemma DueAnswers(s: World, k: Key)
    requires WellFormed(s, k) && IsDue(s, s.imageBuilds[k]) && !IsDuplicateCommit(s.imageBuilds[k])
    ensures Answered(s, k, ReconcileRuns(s, k))
  {
    hide RemainingWait, FallBack, ReconcileStatus, Wanted, NameIsHeld, NextName, OwnsRun, HasReported,
         EnsureOnCommitBuildRun, GetActiveBuildRun;
    var a := s.imageBuilds[k];
    WantedMeans(s, k);
    WantedNameIsNext(s, k, OnCommit);
    if GetActiveBuildRun(s, a).Some? {
      UseAnswers(s, k, GetActiveBuildRun(s, a));
    } else {
      OnCommitAnswers(s, k);
      var e := EnsureOnCommitBuildRun(s, k);
      if e.ret.Ok? {
        UseAnswers(s, k, e.ret.value.run);
      }
    }
  }

  lemma RunsAnswer(s: World, k: Key)
    requires WellFormed(s, k)
    ensures Answered(s, k, ReconcileRuns(s, k))
  {
    hide ReconcileRuns, Answered, IsDue, IsDuplicateCommit, Wanted;
    WantedMeans(s, k);
    if FallsBack(s, s.imageBuilds[k]) {
      ProceedAnswers(s, k);
    } else if IsDue(s, s.imageBuilds[k]) {
      DueAnswers(s, k);
    } else {
      WaitAnswers(s, k);
    }
  }

  // ---- what a whole pass answers -------------------------------------------

  /** What a failing setup is blamed on. */
  ghost function Blame(s: World, k: Key): Reason
    requires k in s.imageBuilds && !SetupStands(s, k)
  {
    if SecretIsMissing(s, k) then
      if Key(k.ns, s.imageBuilds[k].spec.onCommit.value.name) !in s.secrets then WebhookSecretMissing
      else WebhookSecretInvalidKey
    else if s.policy == None then MissingPolicy
    else if StrategyIsMissing(s, k) then BuildStrategyNotFound
    else BuildConflict
  }

  lemma SecretStageAnswers(s: World, k: Key)
    requires WellFormed(s, k)
    ensures var v := ValidateWebhookSecret(s, k);
            && (v.ret.Err? <==> SecretIsMissing(s, k))
            && (v.ret.Err? ==>
                  && (v.ret.error == SecretMissing || v.ret.error == SecretInvalidKey)
                  && v.st.runs == s.runs && v.st.builds == s.builds
                  && v.st.imageBuilds[k].generation == s.imageBuilds[k].generation
                  && v.st.imageBuilds[k].status.conditions.ready ==
                       Some(Condition(False, if Key(k.ns, s.imageBuilds[k].spec.onCommit.value.name) !in s.secrets
                                             then WebhookSecretMissing else WebhookSecretInvalidKey,
                                      s.imageBuilds[k].generation)))
            && (v.ret.Ok? ==> v == Return(s, Ok(())))
  {
  }

  /** The Build stage takes a Build that is nobody's or its own, and refuses any other. */
  lemma EnsureBuildAnswers(s: World, k: Key, policy: Policy, strategy: string)
    requires WellFormed(s, k)
    ensures var e := EnsureBuild(s, k, policy, strategy);
            && (if strategy !in s.strategies then e == Return(s, Err(NotFound))
                else if BuildIsHeld(s, k) then e == Return(s, Err(AlreadyOwned))
                else e.ret == Ok(()))
  {
    hide NewBuildSpec;
  }

  lemma BuildStageAnswers(s: World, k: Key)
    requires WellFormed(s, k)
    ensures var b := ReconcileBuild(s, k);
            && (b.ret.Ok? <==> !StrategyIsMissing(s, k) && !BuildIsHeld(s, k))
            && (b.ret.Err? ==>
                  && (b.ret.error == AlreadyOwned <==> !StrategyIsMissing(s, k))
                  && b.st.runs == s.runs && b.st.builds == s.builds
                  && b.st.imageBuilds[k].generation == s.imageBuilds[k].generation
                  && b.st.imageBuilds[k].status.conditions.ready ==
                       Some(Condition(False, if s.policy == None then MissingPolicy
                                             else if StrategyIsMissing(s, k) then BuildStrategyNotFound
                                             else BuildConflict,
                                      s.imageBuilds[k].generation)))
  {
    hide EnsureBuild;
    if s.policy.Some? {
      EnsureBuildAnswers(s, k, s.policy.value, SelectedStrategy(s.imageBuilds[k], s.policy.value));
    }
  }

  lemma LabelStageAnswers(s: World, k: Key)
    requires WellFormed(s, k)
    ensures var t := EnsureOnCommitLabel(s, k).st;
            && (SecretIsMissing(t, k) <==> SecretIsMissing(s, k))
            && (StrategyIsMissing(t, k) <==> StrategyIsMissing(s, k))
            && (BuildIsHeld(t, k) <==> BuildIsHeld(s, k)) && t.policy == s.policy
            && t.imageBuilds[k].spec == s.imageBuilds[k].spec
            && t.imageBuilds[k].generation == s.imageBuilds[k].generation
            && t.secrets == s.secrets && t.runs == s.runs && t.builds == s.builds && WellFormed(t, k)
  {
  }

  lemma PolicyIsNeeded(s: World, k: Key)
    requires k in s.imageBuilds
    ensures s.policy == None ==> StrategyIsMissing(s, k)
  {
  }

  /** A pass whose setup does not stand. */
  lemma FailingPassAnswers(s: World, k: Key)
    requires WellFormed(s, k) && !SetupStands(s, k)
    ensures var p := Reconcile(s, k);
            var delay := if SecretIsMissing(s, k) || StrategyIsMissing(s, k) then 30_000_000_000 else 0;
            HasFailed(p, k, Blame(s, k), delay) && p.st.runs == s.runs && p.st.builds == s.builds
    ensures !SecretIsMissing(s, k) && !StrategyIsMissing(s, k) ==> Blame(s, k) == BuildConflict
  {
    hide EnsureOnCommitLabel, ValidateWebhookSecret, ReconcileBuild, ReconcileRuns, SecretIsMissing, StrategyIsMissing,
         BuildIsHeld, SetupStands;
    StandingMeans(s, k);
    PolicyIsNeeded(s, k);
    LabelStageAnswers(s, k);
    var l := EnsureOnCommitLabel(s, k).st;
    SecretStageAnswers(l, k);
    if !SecretIsMissing(s, k) {
      BuildStageAnswers(l, k);
    }
  }

  lemma SameAnswer(s: World, k: Key, mid: World, p: Plan<Outcome>)
    requires WellFormed(s, k) && WellFormed(mid, k) && SameRuns(s, k, mid) && Answered(mid, k, p)
    ensures Answered(s, k, p)
  {
    hide HasFailed, HasReported, FormatInt, Unmarshal;
  }

  /** What every complete pass answers, from any state.  If a policy, its strategy, a webhook secret
      or its key is missing, the pass blames that and asks to be repeated in thirty seconds.  If the
      Build, or the name of the run it wants, is somebody else's, it blames that and does not ask to
      be repeated.  Otherwise it waits and asks to be repeated when the wait is over, or reports, and
      asks to be repeated in ten seconds exactly while the verdict it has reported is open. */
  lemma PassAnswers(s: World, k: Key)
    requires WellFormed(s, k)
    ensures var p := Reconcile(s, k);
            if SecretIsMissing(s, k) || StrategyIsMissing(s, k) then HasFailed(p, k, Blame(s, k), 30_000_000_000)
            else if BuildIsHeld(s, k) then HasFailed(p, k, BuildConflict, 0)
            else Answered(s, k, p)
  {
    hide Reconcile, ReconcileRuns, SetupStands, SetUpWorld, SetupWrites, SetUp, Answered, SecretIsMissing,
         StrategyIsMissing, BuildIsHeld, SameRuns;
    StandingMeans(s, k);
    if SetupStands(s, k) {
      SetupSucceeds(s, k);
      RunsAnswer(SetUpWorld(s, k), k);
      AnsweredBoth(s, k, SetUpWorld(s, k), ReconcileRuns(SetUpWorld(s, k), k), Reconcile(s, k));
    } else {
      FailingPassAnswers(s, k);
    }
  }

  lemma AnsweredBoth(s: World, k: Key, mid: World, p: Plan<Outcome>, q: Plan<Outcome>)
    requires WellFormed(s, k) && WellFormed(mid, k) && SameRuns(s, k, mid) && Answered(mid, k, p)
    requires q.st == p.st && q.ret == p.ret
    ensures Answered(s, k, q)
  {
    hide Wanted, IsRefused, SameRuns;
    SameAnswer(s, k, mid, p);
  }

  /** There is nothing to do for an ImageBuild that is gone. */
  lemma GoneIsLeft(s: World, k: Key)
    requires k !in s.imageBuilds
    ensures Reconcile(s, k) == Plan([], s, Outcome(0, false))
  {
  }
}
