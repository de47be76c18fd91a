/** The ImageBuild controller, step by step as it runs: it works on a copy of the ImageBuild
    that it mutates in place, sends its changes to the API server, and may stop, with the
    process, after any of its writes.  Every method is proved to do exactly what its plan in
    ReconcileSpec says, or, when it stops, exactly a first part of it. */
module Controller {
  import opened ImageBuilds
  import opened MergePatch
  import opened Names
  import opened LastSpec
  import opened Cluster
  import opened ReconcileSpec
  import opened Api

  /** The pass's own copy of the ImageBuild. */
  class WorkingCopy {
    var ib: ImageBuild

    constructor (ib: ImageBuild)
      ensures this.ib == ib
    {
      this.ib := ib;
    }
  }

  /** The effect of a plan cut off after b writes: world t, with b' writes left. */
  ghost predicate Performed<R>(s: World, k: Key, p: Plan<R>, b: nat, t: World, b': nat)
    requires k in s.imageBuilds
  {
    if |p.writes| <= b then t == p.st && p.st == Exec(s, k, p.writes) && b' == b - |p.writes|
    else t == Exec(s, k, p.writes[..b]) && b' == 0
  }

  lemma PerformedReturn<R>(s: World, k: Key, r: R, b: nat)
    requires k in s.imageBuilds
    ensures Performed(s, k, Return(s, r), b, s, b)
  {
  }

  lemma PerformedDo<R>(s: World, k: Key, w: Write, r: R, b: nat)
    requires k in s.imageBuilds
    ensures b > 0 ==> Performed(s, k, Do(s, k, w, r), b, Apply(s, k, w), b - 1)
    ensures b == 0 ==> Performed(s, k, Do(s, k, w, r), b, s, 0)
  {
    assert [w][1..] == [];
    assert Exec(Apply(s, k, w), k, []) == Apply(s, k, w);
  }

  /** A plan that went through, and then another, complete or not. */
  lemma PerformedThen<Q, R>(s: World, k: Key, a: Plan<Q>, c: Plan<R>, b: nat, b1: nat, t: World, b2: nat)
    requires k in s.imageBuilds && k in a.st.imageBuilds && |a.writes| <= b
    requires Performed(s, k, a, b, a.st, b1) && Performed(a.st, k, c, b1, t, b2)
    ensures Performed(s, k, Then(a, c), b, t, b2)
  {
    ExecAppend(s, k, a.writes, c.writes);
    if |c.writes| > b1 {
      ExecAppend(s, k, a.writes, c.writes[..b1]);
      assert (a.writes + c.writes)[..b] == a.writes + c.writes[..b1];
    }
  }

  /** A plan cut off is cut off in any plan that starts with it. */
  lemma PerformedStop<Q, R>(s: World, k: Key, a: Plan<Q>, p: Plan<R>, b: nat, t: World, b': nat)
    requires k in s.imageBuilds && |a.writes| > b && a.writes <= p.writes
    requires Performed(s, k, a, b, t, b')
    ensures Performed(s, k, p, b, t, b')
  {
    assert p.writes[..b] == a.writes[..b];
  }

  lemma PerformedThenReturn<Q, R>(s: World, k: Key, a: Plan<Q>, r: R, b: nat, b1: nat)
    requires k in s.imageBuilds && |a.writes| <= b
    requires Performed(s, k, a, b, a.st, b1)
    ensures Performed(s, k, Then(a, Return(a.st, r)), b, a.st, b1)
  {
    assert a.writes + [] == a.writes;
  }

  lemma LabelFailsNever(s: World, k: Key)
    requires k in s.imageBuilds
    ensures ReconcileSpec.EnsureOnCommitLabel(s, k).ret == Ok(())
  {
    hide Apply;
  }

  lemma SecretFailures(s: World, k: Key)
    requires k in s.imageBuilds
    ensures var v := ReconcileSpec.ValidateWebhookSecret(s, k).ret;
            if v.Err? then v.error == SecretMissing || v.error == SecretInvalidKey
            else ReconcileSpec.ValidateWebhookSecret(s, k).writes == []
  {
    hide Apply;
  }

  class Reconciler {
    const api: ApiServer
    /** How many more API writes the process makes before it stops. */
    var budget: nat

    constructor (api: ApiServer, budget: nat)
      ensures this.api == api && this.budget == budget
    {
      this.api := api;
      this.budget := budget;
    }

    ghost predicate Synced(k: Key, mem: WorkingCopy)
      reads api, mem
    {
      k in api.imageBuilds && mem.ib == api.imageBuilds[k] && mem.ib.key == k
    }

    /** The plan has been carried out, or cut off, since world s with b writes left. */
    ghost predicate Did<R>(s: World, b: nat, k: Key, p: Plan<R>, mem: WorkingCopy)
      requires k in s.imageBuilds
      reads this, api, mem
    {
      Performed(s, k, p, b, api.Snapshot(), budget) && (|p.writes| <= b ==> Synced(k, mem))
    }

    // ---- API calls ---------------------------------------------------------

    method PatchStatus(mem: WorkingCopy, orig: ImageBuild) returns (r: Result<()>)
      modifies this`budget, api`imageBuilds, mem
      ensures old(budget) == 0 || old(mem.ib.key) !in old(api.imageBuilds) ==>
                r.Err? && api.imageBuilds == old(api.imageBuilds) && mem.ib == old(mem.ib)
      ensures old(budget) == 0 ==> budget == 0
      ensures old(budget) > 0 && old(mem.ib.key) in old(api.imageBuilds) ==>
                var k, stored := old(mem.ib.key), old(api.imageBuilds[mem.ib.key]);
                && r == Ok(())
                && mem.ib == stored.(status := Merge(stored.status, Diff(orig.status, old(mem.ib.status))))
                && api.imageBuilds == old(api.imageBuilds)[k := mem.ib]
                && budget == old(budget) - 1
    {
      if budget == 0 {
        return Err(ProcessStopped);
      }
      budget := budget - 1;
      var stored := api.PatchStatus(mem.ib.key, Diff(orig.status, mem.ib.status));
      if stored.None? {
        return Err(NotFound);
      }
      mem.ib := stored.value;
      return Ok(());
    }

    // ---- status.go ---------------------------------------------------------

    method PatchReadyCondition(ghost k: Key, mem: WorkingCopy, status: ConditionStatus, reason: Reason)
      returns (r: Result<()>)
      requires Synced(k, mem) || budget == 0
      modifies this`budget, api`imageBuilds, mem
      ensures old(budget) == 0 ==> r.Err? && budget == 0 && api.Snapshot() == old(api.Snapshot())
      ensures old(Synced(k, mem)) ==>
                var p := Do(old(api.Snapshot()), k, SetReady(status, reason), Ok(()));
                && Did(old(api.Snapshot()), old(budget), k, p, mem)
                && (old(budget) > 0 ==> r == Ok(()))
    {
      ghost var s, b := api.Snapshot(), budget;
      var orig := mem.ib;
      mem.ib := mem.ib.(status := mem.ib.status.(observedGeneration := mem.ib.generation));
      var conditions := mem.ib.status.conditions.(ready := Some(Condition(status, reason, mem.ib.generation)));
      mem.ib := mem.ib.(status := mem.ib.status.(conditions := conditions));
      MergeDiff(orig.status, mem.ib.status);
      r := PatchStatus(mem, orig);
      if k in s.imageBuilds {
        PerformedDo(s, k, SetReady(status, reason), Ok(()), b);
      }
    }

    /** Failure to report is only logged. */
    method SetNotReady(ghost k: Key, mem: WorkingCopy, reason: Reason)
      requires Synced(k, mem) || budget == 0
      modifies this`budget, api`imageBuilds, mem
      ensures old(budget) == 0 ==> budget == 0 && api.Snapshot() == old(api.Snapshot())
      ensures old(Synced(k, mem)) ==>
                Did(old(api.Snapshot()), old(budget), k, NotReady(old(api.Snapshot()), k, reason, Ok(())), mem)
    {
      var _ := PatchReadyCondition(k, mem, False, reason);
    }

    method PatchBuildRef(ghost k: Key, mem: WorkingCopy) returns (r: Result<()>)
      requires Synced(k, mem)
      modifies this`budget, api`imageBuilds, api`builds, api`runs, mem
      ensures var p := ReconcileSpec.PatchBuildRef(old(api.Snapshot()), k);
              && Did(old(api.Snapshot()), old(budget), k, p, mem)
              && (if |p.writes| <= old(budget) then r == p.ret else r.Err?)
    {
      ghost var s, b := api.Snapshot(), budget;
      var buildRef := BuildName(mem.ib.key.name);
      if mem.ib.status.buildRef == buildRef && mem.ib.status.observedGeneration == mem.ib.generation {
        return Ok(());
      }
      var orig := mem.ib;
      mem.ib := mem.ib.(status := mem.ib.status.(observedGeneration := mem.ib.generation));
      mem.ib := mem.ib.(status := mem.ib.status.(buildRef := buildRef));
      MergeDiff(orig.status, mem.ib.status);
      r := PatchStatus(mem, orig);
      PerformedDo(s, k, SetBuildRef, Ok(()), b);
    }

    method PatchBuildSucceededCondition(ghost k: Key, mem: WorkingCopy, run: BuildRun) returns (r: Result<()>)
      requires Synced(k, mem)
      modifies this`budget, api`imageBuilds, api`builds, api`runs, mem
      ensures var p := Do(old(api.Snapshot()), k, SetBuildSucceeded(run.name, Verdict(run).0, Verdict(run).1), Ok(()));
              && Did(old(api.Snapshot()), old(budget), k, p, mem)
              && (if |p.writes| <= old(budget) then r == p.ret else r.Err?)
    {
      ghost var s, b := api.Snapshot(), budget;
      var orig := mem.ib;
      mem.ib := mem.ib.(status := mem.ib.status.(observedGeneration := mem.ib.generation));
      mem.ib := mem.ib.(status := mem.ib.status.(lastBuildRunRef := run.name));
      var (status, reason) := Verdict(run);
      var conditions := mem.ib.status.conditions.(buildSucceeded := Some(Condition(status, reason, mem.ib.generation)));
      mem.ib := mem.ib.(status := mem.ib.status.(conditions := conditions));
      MergeDiff(orig.status, mem.ib.status);
      r := PatchStatus(mem, orig);
      PerformedDo(s, k, SetBuildSucceeded(run.name, status, reason), Ok(()), b);
    }

    method PatchLatestImage(ghost k: Key, mem: WorkingCopy, image: string) returns (r: Result<()>)
      requires Synced(k, mem)
      modifies this`budget, api`imageBuilds, api`builds, api`runs, mem
      ensures var p := (if image == "" then Return(old(api.Snapshot()), Ok(()))
                        else Do(old(api.Snapshot()), k, SetLatestImage(image), Ok(())));
              && Did(old(api.Snapshot()), old(budget), k, p, mem)
              && (if |p.writes| <= old(budget) then r == p.ret else r.Err?)
    {
      ghost var s, b := api.Snapshot(), budget;
      if image == "" {
        return Ok(());
      }
      var orig := mem.ib;
      mem.ib := mem.ib.(status := mem.ib.status.(observedGeneration := mem.ib.generation));
      mem.ib := mem.ib.(status := mem.ib.status.(latestImage := image));
      MergeDiff(orig.status, mem.ib.status);
      r := PatchStatus(mem, orig);
      PerformedDo(s, k, SetLatestImage(image), Ok(()), b);
    }

    // ---- build.go ----------------------------------------------------------

    /** Fills the optional parts of the Build's specification one by one. */
    method NewBuild(ib: ImageBuild, policy: Policy, strategy: string) returns (spec: BuildSpec)
      ensures spec == NewBuildSpec(ib, policy, strategy)
    {
      spec := BuildSpec(strategy, ib.spec.source.git.url, None, None, None, ib.spec.output.image, None, None);
      if ib.spec.source.git.revision != "" {
        spec := spec.(revision := Some(ib.spec.source.git.revision));
      }
      if ib.spec.source.contextDir != "" {
        spec := spec.(contextDir := Some(ib.spec.source.contextDir));
      }
      if ib.spec.source.git.cloneSecret.Some? && ib.spec.source.git.cloneSecret.value != "" {
        spec := spec.(cloneSecret := ib.spec.source.git.cloneSecret);
      }
      if ib.spec.output.pushSecret.Some? && ib.spec.output.pushSecret.value != "" {
        spec := spec.(pushSecret := ib.spec.output.pushSecret);
      }
      spec := spec.(retention := NewBuildRetention(ResolveRetention(ib, policy)));
    }

    method EnsureBuild(ghost k: Key, mem: WorkingCopy, policy: Policy, strategy: string) returns (r: Result<()>)
      requires Synced(k, mem)
      modifies this`budget, api`imageBuilds, api`builds, api`runs, mem
      ensures var p := ReconcileSpec.EnsureBuild(old(api.Snapshot()), k, policy, strategy);
              && Did(old(api.Snapshot()), old(budget), k, p, mem)
              && (if |p.writes| <= old(budget) then r == p.ret else r.Err?)
    {
      ghost var s, b := api.Snapshot(), budget;
      if strategy !in api.strategies {
        return Err(NotFound);
      }
      var desired := NewBuild(mem.ib, policy, strategy);
      var name := BuildKey(mem.ib.key);
      // CreateOrPatch: the found Build, or an empty one, is mutated and then written if it changed.
      var found := name in api.builds;
      var actual := if found then api.builds[name] else Build(None, map[], desired);
      if ControlledByOther(actual.controller, mem.ib) {
        return Err(AlreadyOwned);
      }
      actual := actual.(controller := Some(OwnerOf(mem.ib)));
      actual := actual.(labels := actual.labels[LABEL_PARENT := mem.ib.key.name]);
      actual := actual.(spec := desired);
      if found && actual == api.builds[name] {
        return Ok(());
      }
      PerformedDo(s, k, PutBuild(actual), Ok(()), b);
      if budget == 0 {
        return Err(ProcessStopped);
      }
      budget := budget - 1;
      api.builds := api.builds[name := actual];
      return Ok(());
    }

    // ---- buildrun.go -------------------------------------------------------

    method GetLastBuildRun(mem: WorkingCopy) returns (r: Option<BuildRun>)
      ensures r == LastBuildRun(api.Snapshot(), mem.ib)
    {
      if mem.ib.status.lastBuildRunRef == "" {
        return None;
      }
      var key := RunKey(mem.ib.key, mem.ib.status.lastBuildRunRef);
      if key !in api.runs {
        return None;
      }
      return Some(api.runs[key]);
    }

    method GetOrCreateBuildRun(ghost k: Key, mem: WorkingCopy, desired: BuildRun) returns (r: Result<(BuildRun, bool)>)
      requires Synced(k, mem)
      modifies this`budget, api`imageBuilds, api`builds, api`runs, mem
      ensures var p := ReconcileSpec.GetOrCreateBuildRun(old(api.Snapshot()), k, desired);
              && Did(old(api.Snapshot()), old(budget), k, p, mem)
              && (if |p.writes| <= old(budget) then r == p.ret else r.Err?)
    {
      ghost var s, b := api.Snapshot(), budget;
      var key := RunKey(mem.ib.key, desired.name);
      if key in api.runs {
        var existing := api.runs[key];
        if !IsControlledBy(existing.controller, mem.ib) {
          return Err(AlreadyOwned);
        }
        return Ok((existing, false));
      }
      var owned := desired.(controller := Some(OwnerOf(mem.ib)));
      PerformedDo(s, k, CreateRun(owned), Ok((owned, true)), b);
      if budget == 0 {
        return Err(ProcessStopped);
      }
      budget := budget - 1;
      api.runs := api.runs[key := owned];
      return Ok((owned, true));
    }

    method EnsureBuildRun(ghost k: Key, mem: WorkingCopy) returns (r: Result<BuildRun>)
      requires Synced(k, mem)
      modifies this`budget, api`imageBuilds, api`builds, api`runs, mem
      ensures var p := ReconcileSpec.EnsureBuildRun(old(api.Snapshot()), k);
              && Did(old(api.Snapshot()), old(budget), k, p, mem)
              && (if |p.writes| <= old(budget) then r == p.ret else r.Err?)
    {
      hide Exec, RunName, ReconcileSpec.GetOrCreateBuildRun;
      ghost var s, b := api.Snapshot(), budget;
      var counter := NextCounter(mem.ib.status.buildRunCounter);
      var desired := NewBuildRun(mem.ib, SpecChange, counter);
      ghost var g := ReconcileSpec.GetOrCreateBuildRun(s, k, desired);
      ghost var p := ReconcileSpec.EnsureBuildRun(s, k);
      var found := GetOrCreateBuildRun(k, mem, desired);
      ghost var t, b1 := api.Snapshot(), budget;
      if found.Err? {
        r := Err(found.error);
        if |g.writes| > b { PerformedStop(s, k, g, p, b, t, b1); } else { PerformedThenReturn(s, k, g, r, b, b1); }
        return;
      }
      var (run, created) := found.value;
      if !created {
        r := Ok(run);
        PerformedThenReturn(s, k, g, r, b, b1);
        return;
      }
      var orig := mem.ib;
      mem.ib := mem.ib.(status := mem.ib.status.(buildRunCounter := counter));
      MergeDiff(orig.status, mem.ib.status);
      var patched := PatchStatus(mem, orig);
      r := Ok(run);
      PerformedDo(t, k, SetCounter(counter), r, b1);
      PerformedThen(s, k, g, Do(t, k, SetCounter(counter), r), b, b1, api.Snapshot(), budget);
      if patched.Err? {
        return Err(patched.error);
      }
    }

    method RecordBuildSpec(mem: WorkingCopy)
      modifies mem
      ensures mem.ib == Written(old(mem.ib), 0, RecordSpec)
    {
      var inputs := BuildInputs(mem.ib.spec.source, mem.ib.spec.buildFile, mem.ib.spec.output);
      mem.ib := mem.ib.(annotations := mem.ib.annotations[ANNOTATION_LAST_SPEC := Marshal(inputs)]);
    }

    // ---- oncommit.go -------------------------------------------------------

    method EnsureOnCommitLabel(ghost k: Key, mem: WorkingCopy) returns (r: Result<()>)
      requires Synced(k, mem)
      modifies this`budget, api`imageBuilds, api`builds, api`runs, mem
      ensures var p := ReconcileSpec.EnsureOnCommitLabel(old(api.Snapshot()), k);
              && Did(old(api.Snapshot()), old(budget), k, p, mem)
              && (if |p.writes| <= old(budget) then r == p.ret else r.Err?)
    {
      ghost var s, b := api.Snapshot(), budget;
      var desired := "false";
      if mem.ib.spec.rebuild.Some? && mem.ib.spec.rebuild.value == MODE_ON_COMMIT {
        desired := "true";
      }
      if LABEL_ON_COMMIT in mem.ib.labels && mem.ib.labels[LABEL_ON_COMMIT] == desired {
        return Ok(());
      }
      PerformedDo(s, k, SetLabel(desired), Ok(()), b);
      if budget == 0 {
        return Err(ProcessStopped);
      }
      budget := budget - 1;
      var stored := api.PatchLabel(mem.ib.key, LABEL_ON_COMMIT, desired);
      mem.ib := stored.value;
      return Ok(());
    }

    method PatchOnCommitTriggered(ghost k: Key, mem: WorkingCopy, name: string, counter: int, sha: string)
      returns (r: Result<()>)
      requires Synced(k, mem)
      requires mem.ib.status.onCommit.Some?
      modifies this`budget, api`imageBuilds, api`builds, api`runs, mem
      ensures var p := Do(old(api.Snapshot()), k, MarkTriggered(counter, name, sha), Ok(()));
              && Did(old(api.Snapshot()), old(budget), k, p, mem)
              && (if |p.writes| <= old(budget) then r == p.ret else r.Err?)
    {
      ghost var s, b := api.Snapshot(), budget;
      var orig := mem.ib;
      var oc := mem.ib.status.onCommit.value;
      oc := oc.(triggerCounter := counter);
      oc := oc.(lastTriggered := Some(TriggerRecord(name, sha, Stamp(api.clock))));
      oc := oc.(pending := None);
      mem.ib := mem.ib.(status := mem.ib.status.(onCommit := Some(oc)));
      MergeDiff(orig.status, mem.ib.status);
      r := PatchStatus(mem, orig);
      PerformedDo(s, k, MarkTriggered(counter, name, sha), Ok(()), b);
    }

    method EnsureOnCommitBuildRun(ghost k: Key, mem: WorkingCopy, sha: string) returns (r: Result<Flow>)
      requires Synced(k, mem)
      requires HasPending(mem.ib) && sha == mem.ib.status.onCommit.value.pending.value.commitSHA
      modifies this`budget, api`imageBuilds, api`builds, api`runs, mem
      ensures var p := ReconcileSpec.EnsureOnCommitBuildRun(old(api.Snapshot()), k);
              && Did(old(api.Snapshot()), old(budget), k, p, mem)
              && (if |p.writes| <= old(budget) then r == p.ret else r.Err?)
    {
      hide Exec, RunName;
      ghost var s, b := api.Snapshot(), budget;
      var counter := NextCounter(mem.ib.status.onCommit.value.triggerCounter);
      var desired := NewBuildRun(mem.ib, OnCommit, counter);
      ghost var g := ReconcileSpec.GetOrCreateBuildRun(s, k, desired);
      ghost var p := ReconcileSpec.EnsureOnCommitBuildRun(s, k);
      var found := GetOrCreateBuildRun(k, mem, desired);
      ghost var t, b1 := api.Snapshot(), budget;
      if found.Err? {
        r := Err(found.error);
        if |g.writes| > b { PerformedStop(s, k, g, p, b, t, b1); } else { PerformedThenReturn(s, k, g, r, b, b1); }
        return;
      }
      var (run, created) := found.value;
      r := Ok(Use(Some(run)));
      if !created {
        PerformedThenReturn(s, k, g, r, b, b1);
        return;
      }
      var marked := PatchOnCommitTriggered(k, mem, desired.name, counter, sha);
      ghost var w := MarkTriggered(counter, desired.name, sha);
      PerformedDo(t, k, w, r, b1);
      PerformedThen(s, k, g, Do(t, k, w, r), b, b1, api.Snapshot(), budget);
      if marked.Err? {
        return Err(marked.error);
      }
    }

    method ReconcileOnCommitBuildRun(ghost k: Key, mem: WorkingCopy) returns (r: Result<Flow>)
      requires Synced(k, mem)
      modifies this`budget, api`imageBuilds, api`builds, api`runs, mem
      ensures var p := ReconcileSpec.ReconcileOnCommitBuildRun(old(api.Snapshot()), k);
              && Did(old(api.Snapshot()), old(budget), k, p, mem)
              && (if |p.writes| <= old(budget) then r == p.ret else r.Err?)
    {
      ghost var s, b := api.Snapshot(), budget;
      if !IsRebuildEnabled(mem.ib) {
        return Ok(Proceed);
      }
      var remaining := RemainingWait(mem.ib, api.clock);
      if remaining.Some? {
        return Ok(Wait(remaining.value));
      }
      var sha := mem.ib.status.onCommit.value.pending.value.commitSHA;
      if IsDuplicateCommit(mem.ib) {
        var orig := mem.ib;
        mem.ib := mem.ib.(status := mem.ib.status.(onCommit := Some(mem.ib.status.onCommit.value.(pending := None))));
        MergeDiff(orig.status, mem.ib.status);
        var cleared := PatchStatus(mem, orig);
        r := Ok(Proceed);
        PerformedDo(s, k, ClearPending, r, b);
        if cleared.Err? {
          return Err(cleared.error);
        }
        return;
      }
      var last := GetLastBuildRun(mem);
      if last.Some? && IsControlledBy(last.value.controller, mem.ib) && IsActive(last.value) {
        return Ok(Use(last));
      }
      r := EnsureOnCommitBuildRun(k, mem, sha);
    }

    // ---- controller.go -----------------------------------------------------

    method ValidateWebhookSecret(ghost k: Key, mem: WorkingCopy) returns (r: Result<()>)
      requires Synced(k, mem)
      modifies this`budget, api`imageBuilds, mem
      ensures var p := ReconcileSpec.ValidateWebhookSecret(old(api.Snapshot()), k);
              && Did(old(api.Snapshot()), old(budget), k, p, mem)
              && r == p.ret
    {
      if mem.ib.spec.onCommit.None? {
        return Ok(());
      }
      var ref := mem.ib.spec.onCommit.value;
      var key := Key(mem.ib.key.ns, ref.name);
      if key !in api.secrets {
        SetNotReady(k, mem, WebhookSecretMissing);
        return Err(SecretMissing);
      }
      if ref.key !in api.secrets[key] {
        SetNotReady(k, mem, WebhookSecretInvalidKey);
        return Err(SecretInvalidKey);
      }
      return Ok(());
    }

    method ReconcileBuild(ghost k: Key, mem: WorkingCopy) returns (r: Result<()>)
      requires Synced(k, mem)
      modifies this`budget, api`imageBuilds, api`builds, api`runs, mem
      ensures var p := ReconcileSpec.ReconcileBuild(old(api.Snapshot()), k);
              && Did(old(api.Snapshot()), old(budget), k, p, mem)
              && (if |p.writes| <= old(budget) then r == p.ret else r.Err?)
    {
      hide Exec, ReconcileSpec.EnsureBuild, ReconcileSpec.PatchBuildRef, NewBuildSpec;
      ghost var s, b := api.Snapshot(), budget;
      if api.policy.None? {
        SetNotReady(k, mem, MissingPolicy);
        return Err(NotFound);
      }
      var policy := api.policy.value;
      var strategy := policy.absent;
      if mem.ib.spec.buildFile == MODE_PRESENT {
        strategy := policy.present;
      }
      ghost var e := ReconcileSpec.EnsureBuild(s, k, policy, strategy);
      ghost var p := ReconcileSpec.ReconcileBuild(s, k);
      r := EnsureBuild(k, mem, policy, strategy);
      ghost var t, b1 := api.Snapshot(), budget;
      if r.Err? {
        var reason := BuildReconcileFailed;
        if r.error == NotFound {
          reason := BuildStrategyNotFound;
        } else if r.error == AlreadyOwned {
          reason := BuildConflict;
        }
        SetNotReady(k, mem, reason);
        if |e.writes| > b {
          PerformedStop(s, k, e, p, b, t, b1);
        } else {
          PerformedThen(s, k, e, NotReady(t, k, reason, r), b, b1, api.Snapshot(), budget);
        }
        return;
      }
      r := PatchBuildRef(k, mem);
      PerformedThen(s, k, e, ReconcileSpec.PatchBuildRef(t, k), b, b1, api.Snapshot(), budget);
    }

    method ReconcileDefaultBuildRun(ghost k: Key, mem: WorkingCopy) returns (r: Result<Option<BuildRun>>)
      requires Synced(k, mem)
      modifies this`budget, api`imageBuilds, api`builds, api`runs, mem
      ensures var p := ReconcileSpec.ReconcileDefaultBuildRun(old(api.Snapshot()), k);
              && Did(old(api.Snapshot()), old(budget), k, p, mem)
              && (if |p.writes| <= old(budget) then r == p.ret else r.Err?)
    {
      hide ReconcileSpec.EnsureBuildRun, IsSpecDrifted;
      ghost var s, b := api.Snapshot(), budget;
      if !IsSpecDrifted(mem.ib) {
        var last := GetLastBuildRun(mem);
        return Ok(last);
      }
      ghost var e := ReconcileSpec.EnsureBuildRun(s, k);
      ghost var p := ReconcileSpec.ReconcileDefaultBuildRun(s, k);
      var ensured := EnsureBuildRun(k, mem);
      ghost var t, b1 := api.Snapshot(), budget;
      if ensured.Err? {
        r := Err(BuildRunError(ensured.error));
        if |e.writes| > b { PerformedStop(s, k, e, p, b, t, b1); } else { PerformedThenReturn(s, k, e, r, b, b1); }
        return;
      }
      RecordBuildSpec(mem);
      r := Ok(Some(ensured.value));
      PerformedDo(t, k, RecordSpec, r, b1);
      if budget == 0 {
        PerformedThen(s, k, e, Do(t, k, RecordSpec, r), b, b1, api.Snapshot(), budget);
        return Err(ProcessStopped);
      }
      budget := budget - 1;
      var stored := api.Update(mem.ib);
      mem.ib := stored.value;
      PerformedThen(s, k, e, Do(t, k, RecordSpec, r), b, b1, api.Snapshot(), budget);
    }

    method FallBack(ghost k: Key, mem: WorkingCopy) returns (r: Result<Flow>)
      requires Synced(k, mem)
      modifies this`budget, api`imageBuilds, api`builds, api`runs, mem
      ensures var p := ReconcileSpec.FallBack(old(api.Snapshot()), k);
              && Did(old(api.Snapshot()), old(budget), k, p, mem)
              && (if |p.writes| <= old(budget) then r == p.ret else r.Err?)
    {
      hide ReconcileSpec.ReconcileDefaultBuildRun, Exec;
      ghost var s, b := api.Snapshot(), budget;
      ghost var d := ReconcileSpec.ReconcileDefaultBuildRun(s, k);
      ghost var p := ReconcileSpec.FallBack(s, k);
      var run := ReconcileDefaultBuildRun(k, mem);
      ghost var t, b1 := api.Snapshot(), budget;
      if run.Ok? {
        r := Ok(Use(run.value));
        PerformedThenReturn(s, k, d, r, b, b1);
        return;
      }
      r := Err(run.error);
      if !run.error.BuildRunError? {
        if |d.writes| > b { PerformedStop(s, k, d, p, b, t, b1); } else { PerformedThenReturn(s, k, d, r, b, b1); }
        return;
      }
      var reason := BuildRunReconcileFailed;
      if run.error.cause == AlreadyOwned {
        reason := BuildRunConflict;
      }
      SetNotReady(k, mem, reason);
      if |d.writes| > b {
        PerformedStop(s, k, d, p, b, t, b1);
      } else {
        PerformedThen(s, k, d, NotReady(t, k, reason, r), b, b1, api.Snapshot(), budget);
      }
    }

    method ReconcileBuildRun(ghost k: Key, mem: WorkingCopy) returns (r: Result<Flow>)
      requires Synced(k, mem)
      modifies this`budget, api`imageBuilds, api`builds, api`runs, mem
      ensures var p := ReconcileSpec.ReconcileBuildRun(old(api.Snapshot()), k);
              && Did(old(api.Snapshot()), old(budget), k, p, mem)
              && (if |p.writes| <= old(budget) then r == p.ret else r.Err?)
    {
      hide ReconcileSpec.ReconcileOnCommitBuildRun, ReconcileSpec.FallBack, Exec;
      ghost var s, b := api.Snapshot(), budget;
      ghost var o := ReconcileSpec.ReconcileOnCommitBuildRun(s, k);
      ghost var p := ReconcileSpec.ReconcileBuildRun(s, k);
      r := ReconcileOnCommitBuildRun(k, mem);
      ghost var t, b1 := api.Snapshot(), budget;
      if r.Err? {
        SetNotReady(k, mem, BuildRunReconcileFailed);
        r := Err(BuildRunError(r.error));
        if |o.writes| > b {
          PerformedStop(s, k, o, p, b, t, b1);
        } else {
          PerformedThen(s, k, o, NotReady(t, k, BuildRunReconcileFailed, r), b, b1, api.Snapshot(), budget);
        }
        return;
      }
      if !r.value.Proceed? {
        return;
      }
      r := FallBack(k, mem);
      PerformedThen(s, k, o, ReconcileSpec.FallBack(t, k), b, b1, api.Snapshot(), budget);
    }

    /** The conditions' part of ReconcileStatus: the verdict on the run, and Ready unless it is current. */
    method ReportConditions(ghost k: Key, mem: WorkingCopy, run: Option<BuildRun>) returns (r: Result<()>)
      requires Synced(k, mem)
      modifies this`budget, api`imageBuilds, api`builds, api`runs, mem
      ensures var p1 := ReportRun(old(api.Snapshot()), k, run);
              var p := Then(p1, ReportReady(p1.st, k));
              && Did(old(api.Snapshot()), old(budget), k, p, mem)
              && (r.Ok? <==> |p.writes| <= old(budget))
    {
      hide Exec, Apply, Verdict;
      ghost var s, b := api.Snapshot(), budget;
      ghost var p1 := ReportRun(s, k, run);
      ghost var p := Then(p1, ReportReady(p1.st, k));
      if run.Some? {
        r := PatchBuildSucceededCondition(k, mem, run.value);
        if r.Err? {
          PerformedStop(s, k, p1, p, b, api.Snapshot(), budget);
          return;
        }
      } else {
        PerformedReturn(s, k, (), b);
      }
      ghost var t, b1 := api.Snapshot(), budget;
      r := Ok(());
      if IsReadyCurrent(mem.ib) {
        PerformedReturn(t, k, (), b1);
      } else {
        r := PatchReadyCondition(k, mem, True, Reconciled);
      }
      PerformedThen(s, k, p1, ReportReady(t, k), b, b1, api.Snapshot(), budget);
    }

    /** Whether the run is still in progress, once its status has been reported. */
    method ReconcileStatus(ghost k: Key, mem: WorkingCopy, run: Option<BuildRun>) returns (r: Result<bool>)
      requires Synced(k, mem)
      modifies this`budget, api`imageBuilds, api`builds, api`runs, mem
      ensures var p := ReconcileSpec.ReconcileStatus(old(api.Snapshot()), k, run);
              && Did(old(api.Snapshot()), old(budget), k, p, mem)
              && (if |p.writes| <= old(budget) then r == p.ret else r.Err?)
    {
      hide Exec, Apply, Verdict, ComputeLatestImage, ReportRun, ReportReady;
      ghost var s, b := api.Snapshot(), budget;
      ghost var p := ReconcileSpec.ReconcileStatus(s, k, run);
      ghost var p1 := ReportRun(s, k, run);
      ghost var p2 := Then(p1, ReportReady(p1.st, k));
      var e := ReportConditions(k, mem, run);
      if e.Err? {
        PerformedStop(s, k, p2, p, b, api.Snapshot(), budget);
        return Err(e.error);
      }
      ghost var u, b2 := api.Snapshot(), budget;
      ghost var p3 := Then(p2, ReportImage(u, k, run));
      if run.Some? && IsSuccessful(run.value) {
        e := PatchLatestImage(k, mem, ComputeLatestImage(api.tagged, mem.ib, run.value));
      } else {
        PerformedReturn(u, k, (), b2);
      }
      PerformedThen(s, k, p2, ReportImage(u, k, run), b, b2, api.Snapshot(), budget);
      if e.Err? {
        PerformedStop(s, k, p3, p, b, api.Snapshot(), budget);
        return Err(e.error);
      }
      var cond := mem.ib.status.conditions.buildSucceeded;
      r := Ok(cond.Some? && cond.value.status == Unknown);
      PerformedThenReturn(s, k, p3, r, b, budget);
    }

    /** The part of Reconcile after the Build is in place. */
    method ReconcileRuns(ghost k: Key, mem: WorkingCopy) returns (r: Outcome)
      requires Synced(k, mem)
      modifies this`budget, api`imageBuilds, api`builds, api`runs, mem
      ensures var p := ReconcileSpec.ReconcileRuns(old(api.Snapshot()), k);
              && Did(old(api.Snapshot()), old(budget), k, p, mem)
              && (|p.writes| <= old(budget) ==> r == p.ret)
    {
      hide ReconcileSpec.ReconcileOnCommitBuildRun, ReconcileSpec.ReconcileDefaultBuildRun,
           ReconcileSpec.ReconcileStatus;
      ghost var s, b := api.Snapshot(), budget;
      ghost var p := ReconcileSpec.ReconcileRuns(s, k);
      ghost var p1 := ReconcileSpec.ReconcileBuildRun(s, k);
      var flow := ReconcileBuildRun(k, mem);
      ghost var t, b1 := api.Snapshot(), budget;
      if flow.Err? {
        r := Outcome(0, true);
        if flow.error.BuildRunError? {
          r := Outcome(if flow.error.cause == AlreadyOwned then 0 else ERROR_REQUEUE, false);
        }
        if |p1.writes| > b { PerformedStop(s, k, p1, p, b, t, b1); } else { PerformedThenReturn(s, k, p1, r, b, b1); }
        return;
      }
      if flow.value.Wait? {
        r := Outcome(flow.value.remaining, false);
        PerformedThenReturn(s, k, p1, r, b, b1);
        return;
      }
      ghost var q := ReconcileSpec.ReconcileStatus(t, k, flow.value.run);
      ghost var p2 := Then(p1, q);
      var poll := ReconcileStatus(k, mem, flow.value.run);
      PerformedThen(s, k, p1, q, b, b1, api.Snapshot(), budget);
      if poll.Err? {
        PerformedStop(s, k, p2, p, b, api.Snapshot(), budget);
        return Outcome(0, true);
      }
      r := Outcome(if poll.value then POLL_INTERVAL else 0, false);
      PerformedThenReturn(s, k, p2, r, b, budget);
    }

    /** One pass over an ImageBuild.  With the writes left to the process it carries out its plan,
        or exactly the first writes of it; a pass that goes through returns what the plan says. */
    method Reconcile(k: Key) returns (r: Outcome)
      requires k in api.imageBuilds ==> api.imageBuilds[k].key == k
      modifies this`budget, api`imageBuilds, api`builds, api`runs
      ensures var s := old(api.Snapshot());
              var p := ReconcileSpec.Reconcile(s, k);
              && (k !in s.imageBuilds ==> api.Snapshot() == s)
              && (k in s.imageBuilds ==> Performed(s, k, p, old(budget), api.Snapshot(), budget))
              && (|p.writes| <= old(budget) ==> api.Snapshot() == p.st && r == p.ret)
    {
      hide ReconcileSpec.ReconcileBuild, ReconcileSpec.ReconcileRuns, ReconcileSpec.EnsureOnCommitLabel,
           ReconcileSpec.ValidateWebhookSecret, Apply, Exec;
      if k !in api.imageBuilds {
        return Outcome(0, false);
      }
      var mem := new WorkingCopy(api.imageBuilds[k]);
      ghost var s, b := api.Snapshot(), budget;
      ghost var p := ReconcileSpec.Reconcile(s, k);
      ghost var p1 := ReconcileSpec.EnsureOnCommitLabel(s, k);
      var e := EnsureOnCommitLabel(k, mem);
      LabelFailsNever(s, k);
      ghost var t, b1 := api.Snapshot(), budget;
      if e.Err? {
        PerformedStop(s, k, p1, p, b, t, b1);
        return Outcome(ERROR_REQUEUE, true);
      }
      ghost var p2 := Then(p1, ReconcileSpec.ValidateWebhookSecret(t, k));
      e := ValidateWebhookSecret(k, mem);
      SecretFailures(t, k);
      ghost var u, b2 := api.Snapshot(), budget;
      PerformedThen(s, k, p1, ReconcileSpec.ValidateWebhookSecret(t, k), b, b1, u, b2);
      if e.Err? {
        r := Outcome(ERROR_REQUEUE, !(e.error.SecretMissing? || e.error.SecretInvalidKey?));
        if |p2.writes| > b { PerformedStop(s, k, p2, p, b, u, b2); } else { PerformedThenReturn(s, k, p2, r, b, b2); }
        return;
      }
      ghost var p3 := Then(p2, ReconcileSpec.ReconcileBuild(u, k));
      e := ReconcileBuild(k, mem);
      ghost var v, b3 := api.Snapshot(), budget;
      PerformedThen(s, k, p2, ReconcileSpec.ReconcileBuild(u, k), b, b2, v, b3);
      if e.Err? {
        r := Outcome(if e.error == AlreadyOwned then 0 else ERROR_REQUEUE, false);
        if |p3.writes| > b { PerformedStop(s, k, p3, p, b, v, b3); } else { PerformedThenReturn(s, k, p3, r, b, b3); }
        return;
      }
      r := ReconcileRuns(k, mem);
      PerformedThen(s, k, p3, ReconcileSpec.ReconcileRuns(v, k), b, b3, api.Snapshot(), budget);
    }
  }
}
