/** The label by which the webhook finds ImageBuilds: it selects what the specifications alone would,
    as long as every ImageBuild has had a pass since its rebuild mode was last edited. */
module LabelIndex {
  import opened ImageBuilds
  import opened Cluster
  import opened ReconcileSpec
  import opened Guards
  import opened Protocol
  import opened Safety
  import opened Convergence
  import opened Webhook

  /** Selecting by label first finds exactly what the specifications alone would, if and only if no
      matching ImageBuild lacks its label; and it never finds more. */
  lemma {:induction false} LabelIndexIsExact(list: seq<ImageBuild>, event: PushEvent, o: Oracle)
    ensures forall ib :: ib in MatchingIn(LabelledIn(list), event, o) ==> ib in MatchingIn(list, event, o)
    ensures MatchingIn(LabelledIn(list), event, o) == MatchingIn(list, event, o) <==>
              forall ib :: ib in list && Matches(ib, event, o) ==> Labelled(ib)
    decreases |list|
  {
    hide Matches, Labelled;
    if forall ib :: ib in list && Matches(ib, event, o) ==> Labelled(ib) {
      if list != [] {
        var n := |list| - 1;
        assert list[n] in list;
        LabelIndexIsExact(list[..n], event, o);
        MatchingAppend(LabelledIn(list[..n]), list[n], event, o);
      }
    } else {
      var ib :| ib in list && Matches(ib, event, o) && !Labelled(ib);
      assert ib in MatchingIn(list, event, o);
    }
  }

  lemma MatchingAppend(list: seq<ImageBuild>, ib: ImageBuild, event: PushEvent, o: Oracle)
    ensures MatchingIn(list + [ib], event, o) == MatchingIn(list, event, o) + if Matches(ib, event, o) then [ib] else []
    ensures MatchingIn(list + [], event, o) == MatchingIn(list, event, o)
  {
    assert (list + [ib])[..|list|] == list && list + [] == list;
  }

  lemma LabelInPlaceMeans(ib: ImageBuild, event: PushEvent, o: Oracle)
    requires LabelInPlace(ib) && Matches(ib, event, o)
    ensures Labelled(ib)
  {
  }

  /** So it does when every ImageBuild has the label its specification calls for. */
  lemma InPlaceLabelsSelect(list: seq<ImageBuild>, event: PushEvent, o: Oracle)
    requires forall ib :: ib in list ==> LabelInPlace(ib)
    ensures MatchingIn(LabelledIn(list), event, o) == MatchingIn(list, event, o)
  {
    hide Matches, Labelled, LabelInPlace;
    LabelIndexIsExact(list, event, o);
    forall ib | ib in list && Matches(ib, event, o)
      ensures Labelled(ib)
    {
      LabelInPlaceMeans(ib, event, o);
    }
  }

  // ---- when the label is in place ------------------------------------------

  lemma {:induction false} GuardedWritesKeepLabel(s: World, k: Key, ws: seq<Write>)
    requires k in s.imageBuilds && AllGuarded(s, k, ws) && LabelInPlace(s.imageBuilds[k])
    ensures LabelInPlace(Exec(s, k, ws).imageBuilds[k])
    decreases |ws|
  {
    if ws != [] {
      WriteKeepsLabel(s, k, ws[0]);
      GuardedWritesKeepLabel(Apply(s, k, ws[0]), k, ws[1..]);
    }
  }

  lemma WriteKeepsLabel(s: World, k: Key, w: Write)
    requires k in s.imageBuilds && Guard(s, k, w) && (LabelInPlace(s.imageBuilds[k]) || w.SetLabel?)
    ensures LabelInPlace(Apply(s, k, w).imageBuilds[k])
  {
    hide IsDue, MayCreate, RemainingWait, Verdict, IsSpecDrifted;
  }

  lemma FirstWriteLabels(s: World, k: Key)
    requires WellFormed(s, k) && !LabelInPlace(s.imageBuilds[k])
    ensures |Reconcile(s, k).writes| > 0 && Reconcile(s, k).writes[0].SetLabel?
  {
    hide ReconcileBuild, ReconcileRuns, ValidateWebhookSecret;
  }

  /** A pass that gets to make its first write leaves the label in place, whatever fails later. */
  lemma StoppedPassLabels(s: World, k: Key, n: nat)
    requires WellFormed(s, k) && (n > 0 || LabelInPlace(s.imageBuilds[k]))
    ensures LabelInPlace(Exec(s, k, Stopped(s, k, n)).imageBuilds[k])
  {
    hide Reconcile, LabelInPlace, Guard, Apply;
    ReconcileObeys(s, k);
    var all := Reconcile(s, k).writes;
    var ws := Stopped(s, k, n);
    GuardedPrefix(s, k, all, Min(n, |all|));
    if LabelInPlace(s.imageBuilds[k]) {
      GuardedWritesKeepLabel(s, k, ws);
    } else {
      FirstWriteLabels(s, k);
      WriteKeepsLabel(s, k, ws[0]);
      GuardedWritesKeepLabel(Apply(s, k, ws[0]), k, ws[1..]);
    }
  }

  /** Neither the rebuild mode nor the on-commit label is edited. */
  ghost predicate SameMode(a: ImageBuild, b: ImageBuild) {
    && DesiredLabel(b.spec) == DesiredLabel(a.spec)
    && (LABEL_ON_COMMIT in b.labels <==> LABEL_ON_COMMIT in a.labels)
    && (LABEL_ON_COMMIT in a.labels ==> b.labels[LABEL_ON_COMMIT] == a.labels[LABEL_ON_COMMIT])
  }

  ghost predicate KeepsMode(x: System, k: Key, acts: seq<Action>)
    requires k in x.w.imageBuilds && LegalRun(x, k, acts)
    decreases |acts|
  {
    acts == [] ||
    (var y := After(x, k, Events(x, k, acts[0]));
     (acts[0].Other? ==> SameMode(x.w.imageBuilds[k], y.w.imageBuilds[k])) && KeepsMode(y, k, acts[1..]))
  }

  lemma ActionKeepsLabel(x: System, k: Key, a: Action)
    requires WellFormed(x.w, k) && Legal(x, k, Events(x, k, a))
    requires LabelInPlace(x.w.imageBuilds[k]) || (a.Pass? && a.stopAfter > 0)
    requires a.Other? ==> SameMode(x.w.imageBuilds[k], After(x, k, Events(x, k, a)).w.imageBuilds[k])
    ensures var y := After(x, k, Events(x, k, a)).w; WellFormed(y, k) && LabelInPlace(y.imageBuilds[k])
  {
    hide Reconcile, AllGuarded, Exec, Guard;
    match a
    case Pass(n) =>
      hide Legal, After;
      StoppedPassIsLegal(x, k, n);
      StoppedPassLabels(x.w, k, n);
      WritesKeepWellFormed(x.w, k, Stopped(x.w, k, n));
    case Deliver(ref, sha) =>
      OneEvent(x, k, Push(ref, sha));
    case Other(s) =>
      OneEvent(x, k, Environment(s));
  }

  lemma {:induction false} LabelStays(x: System, k: Key, acts: seq<Action>)
    requires WellFormed(x.w, k) && LabelInPlace(x.w.imageBuilds[k]) && LegalRun(x, k, acts) && KeepsMode(x, k, acts)
    ensures LabelInPlace(Play(x, k, acts).w.imageBuilds[k])
    decreases |acts|
  {
    hide Legal, After, Events, LabelInPlace, SameMode;
    if acts != [] {
      ActionKeepsLabel(x, k, acts[0]);
      LabelStays(After(x, k, Events(x, k, acts[0])), k, acts[1..]);
    }
  }

  /** From a pass that made its first write on, and until the rebuild mode or the label is next
      edited, the label is what the specification calls for, wherever that pass or later ones
      stop or fail. */
  lemma LabelIsInPlace(x: System, k: Key, n: nat, acts: seq<Action>)
    requires WellFormed(x.w, k) && n > 0 && Legal(x, k, Events(x, k, Pass(n)))
    requires var y := After(x, k, Events(x, k, Pass(n))); LegalRun(y, k, acts) && KeepsMode(y, k, acts)
    ensures LabelInPlace(Play(After(x, k, Events(x, k, Pass(n))), k, acts).w.imageBuilds[k])
  {
    hide Legal, After, Events, LabelInPlace, LegalRun, Play, KeepsMode;
    ActionKeepsLabel(x, k, Pass(n));
    LabelStays(After(x, k, Events(x, k, Pass(n))), k, acts);
  }

  /** How an ImageBuild came to be as it is: a pass that made its first write, and what followed. */
  datatype Past = Past(start: System, stopAfter: nat, since: seq<Action>)

  ghost predicate LedTo(p: Past, k: Key, t: World) {
    && WellFormed(p.start.w, k) && p.stopAfter > 0
    && Legal(p.start, k, Events(p.start, k, Pass(p.stopAfter)))
    && var y := After(p.start, k, Events(p.start, k, Pass(p.stopAfter)));
       LegalRun(y, k, p.since) && KeepsMode(y, k, p.since) && Play(y, k, p.since).w == t
  }

  /** The index is exact: when every listed ImageBuild has had a pass since its rebuild mode was last
      edited, stopped or failed as that may have, the webhook finds for every push exactly the
      ImageBuilds whose specifications ask for it. */
  lemma ReconciledLabelsSelect(t: World, pasts: map<Key, Past>, list: seq<ImageBuild>, event: PushEvent, o: Oracle)
    requires forall ib :: ib in list ==>
               && ib.key in t.imageBuilds && t.imageBuilds[ib.key] == ib
               && ib.key in pasts && LedTo(pasts[ib.key], ib.key, t)
    ensures MatchingIn(LabelledIn(list), event, o) == MatchingIn(list, event, o)
  {
    forall ib | ib in list
      ensures LabelInPlace(ib)
    {
      PastLabels(pasts[ib.key], ib.key, t);
    }
    InPlaceLabelsSelect(list, event, o);
  }

  lemma PastLabels(p: Past, k: Key, t: World)
    requires LedTo(p, k, t) && k in t.imageBuilds
    ensures LabelInPlace(t.imageBuilds[k])
  {
    hide Legal, After, Events, LabelInPlace, LegalRun, Play, KeepsMode;
    LabelIsInPlace(p.start, k, p.stopAfter, p.since);
  }
}
