/** Safety over whole runs of the operator: reconcile passes that complete or stop after any
    number of API writes, webhook deliveries, and anything the environment does, in any order,
    from the creation of an ImageBuild. */
module Safety {
  import opened ImageBuilds
  import opened Names
  import opened Cluster
  import opened ReconcileSpec
  import opened Guards
  import opened Protocol

  datatype Action =
    | Pass(stopAfter: nat)
    | Deliver(ref: string, commitSHA: string)
    | Other(next: World)

  function Min(a: nat, b: nat): nat {
    if a < b then a else b
  }

  /** What is left of a pass that stops after n writes. */
  function Stopped(s: World, k: Key, n: nat): seq<Write> {
    var ws := Reconcile(s, k).writes;
    ws[..Min(n, |ws|)]
  }

  function AsEvents(ws: seq<Write>): seq<Event> {
    seq(|ws|, i requires 0 <= i < |ws| => Reconciler(ws[i]))
  }

  ghost function Events(x: System, k: Key, a: Action): seq<Event> {
    match a
    case Pass(n) => AsEvents(Stopped(x.w, k, n))
    case Deliver(ref, sha) => [Push(ref, sha)]
    case Other(s) => [Environment(s)]
  }

  ghost predicate LegalRun(x: System, k: Key, acts: seq<Action>)
    requires k in x.w.imageBuilds
    decreases |acts|
  {
    acts == [] ||
    (Legal(x, k, Events(x, k, acts[0])) && LegalRun(After(x, k, Events(x, k, acts[0])), k, acts[1..]))
  }

  ghost function Play(x: System, k: Key, acts: seq<Action>): (y: System)
    requires k in x.w.imageBuilds && LegalRun(x, k, acts)
    ensures k in y.w.imageBuilds
    decreases |acts|
  {
    if acts == [] then x else Play(After(x, k, Events(x, k, acts[0])), k, acts[1..])
  }

  lemma OneEvent(x: System, k: Key, e: Event)
    requires k in x.w.imageBuilds && Legal(x, k, [e])
    ensures Enabled(x, k, e) && After(x, k, [e]) == Next(x, k, e)
  {
    hide Enabled, Next;
    assert [e][1..] == [];
    assert After(Next(x, k, e), k, []) == Next(x, k, e);
  }

  // ---- a stopped pass is a run of guarded writes ---------------------------

  lemma {:induction false} GuardedPrefix(s: World, k: Key, ws: seq<Write>, n: nat)
    requires k in s.imageBuilds && AllGuarded(s, k, ws) && n <= |ws|
    ensures AllGuarded(s, k, ws[..n])
    decreases n
  {
    if n > 0 {
      assert ws[..n][0] == ws[0] && ws[..n][1..] == ws[1..][..n - 1];
      GuardedPrefix(Apply(s, k, ws[0]), k, ws[1..], n - 1);
    }
  }

  lemma {:induction false} GuardedWritesAreLegal(x: System, k: Key, ws: seq<Write>)
    requires k in x.w.imageBuilds && AllGuarded(x.w, k, ws)
    ensures Legal(x, k, AsEvents(ws)) && After(x, k, AsEvents(ws)).w == Exec(x.w, k, ws)
    decreases |ws|
  {
    hide Guard, Apply, Recorded;
    if ws != [] {
      var es := AsEvents(ws);
      assert es[0] == Reconciler(ws[0]) && es[1..] == AsEvents(ws[1..]);
      GuardedWritesAreLegal(Next(x, k, es[0]), k, ws[1..]);
    }
  }

  /** However early a pass stops, what it has done is a legal run of the protocol, and leads to
      exactly the world its first writes lead to. */
  lemma StoppedPassIsLegal(x: System, k: Key, n: nat)
    requires WellFormed(x.w, k)
    ensures var ws := Stopped(x.w, k, n);
            Legal(x, k, AsEvents(ws)) && After(x, k, AsEvents(ws)).w == Exec(x.w, k, ws)
  {
    hide Reconcile, AllGuarded, Legal, Exec, After;
    ReconcileObeys(x.w, k);
    var ws := Reconcile(x.w, k).writes;
    GuardedPrefix(x.w, k, ws, Min(n, |ws|));
    GuardedWritesAreLegal(x, k, Stopped(x.w, k, n));
  }

  const MAX_WRITES := 12

  lemma OnCommitIsShort(s: World, k: Key)
    requires k in s.imageBuilds
    ensures var o := ReconcileOnCommitBuildRun(s, k); |o.writes| <= 2 && (o.ret == Ok(Proceed) ==> |o.writes| <= 1)
  {
    hide Apply, RemainingWait, RunName;
  }

  lemma DefaultIsShort(s: World, k: Key)
    requires k in s.imageBuilds
    ensures |ReconcileDefaultBuildRun(s, k).writes| <= 3
  {
    hide Apply, IsSpecDrifted, RunName;
  }

  lemma StatusIsShort(s: World, k: Key, run: Option<BuildRun>)
    requires k in s.imageBuilds
    ensures |ReconcileStatus(s, k, run).writes| <= 3
  {
    hide Apply, Verdict;
  }

  lemma RunsAreShort(s: World, k: Key)
    requires k in s.imageBuilds
    ensures |ReconcileRuns(s, k).writes| <= 8
  {
    hide Apply, ReconcileOnCommitBuildRun, ReconcileDefaultBuildRun, ReconcileStatus;
    var o := ReconcileOnCommitBuildRun(s, k);
    OnCommitIsShort(s, k);
    DefaultIsShort(o.st, k);
    var r := ReconcileBuildRun(s, k);
    assert |r.writes| <= 5;
    if r.ret.Ok? && r.ret.value.Use? {
      StatusIsShort(r.st, k, r.ret.value.run);
    }
  }

  lemma PassIsShort(s: World, k: Key)
    ensures |Reconcile(s, k).writes| <= MAX_WRITES
  {
    hide Apply, ReconcileRuns;
    if k in s.imageBuilds {
      var l := EnsureOnCommitLabel(s, k);
      var v := ValidateWebhookSecret(l.st, k);
      assert |l.writes| <= 1 && |v.writes| <= 1 && (v.ret.Ok? ==> v.writes == []);
      var b := ReconcileBuild(v.st, k);
      assert |b.writes| <= 2;
      RunsAreShort(b.st, k);
    }
  }

  // ---- whole runs ----------------------------------------------------------

  lemma EventsAreShort(x: System, k: Key, a: Action)
    ensures |Events(x, k, a)| <= MAX_WRITES
  {
    hide Reconcile;
    PassIsShort(x.w, k);
  }

  /** The events of all actions of a run, one after the other. */
  ghost function AllEvents(x: System, k: Key, acts: seq<Action>): seq<Event>
    requires k in x.w.imageBuilds && LegalRun(x, k, acts)
    decreases |acts|
  {
    if acts == [] then []
    else Events(x, k, acts[0]) + AllEvents(After(x, k, Events(x, k, acts[0])), k, acts[1..])
  }

  lemma {:induction false} LegalAppend(x: System, k: Key, a: seq<Event>, b: seq<Event>)
    requires k in x.w.imageBuilds && Legal(x, k, a) && Legal(After(x, k, a), k, b)
    ensures Legal(x, k, a + b) && After(x, k, a + b) == After(After(x, k, a), k, b)
    decreases |a|
  {
    hide Enabled, Next;
    if a == [] {
      assert a + b == b;
    } else {
      assert (a + b)[0] == a[0] && (a + b)[1..] == a[1..] + b;
      LegalAppend(Next(x, k, a[0]), k, a[1..], b);
    }
  }

  lemma {:induction false} RunsAreEvents(x: System, k: Key, acts: seq<Action>)
    requires k in x.w.imageBuilds && LegalRun(x, k, acts)
    ensures var es := AllEvents(x, k, acts);
            && |es| <= MAX_WRITES * |acts|
            && Legal(x, k, es) && After(x, k, es) == Play(x, k, acts)
    decreases |acts|
  {
    hide Enabled, Next, Events;
    if acts != [] {
      var es := Events(x, k, acts[0]);
      EventsAreShort(x, k, acts[0]);
      RunsAreEvents(After(x, k, es), k, acts[1..]);
      LegalAppend(x, k, es, AllEvents(After(x, k, es), k, acts[1..]));
    }
  }

  /** A run from the creation of an ImageBuild, of fewer than 2^63 / 12 actions. */
  ghost predicate IsRun(x: System, k: Key, acts: seq<Action>) {
    Init(x, k) && LegalRun(x, k, acts) && MAX_WRITES * |acts| <= MAX_INT64
  }

  lemma RunsAreSafe(x: System, k: Key, acts: seq<Action>) returns (n: nat)
    requires IsRun(x, k, acts)
    ensures Inv(Play(x, k, acts), k, n)
  {
    hide Inv, AllEvents;
    InitInv(x, k);
    RunsAreEvents(x, k, acts);
    n := |AllEvents(x, k, acts)|;
    RunKeepsInv(x, k, AllEvents(x, k, acts), 0);
  }

  lemma InvFates(y: System, k: Key, n: nat, i: nat)
    requires Inv(y, k, n) && i < |y.h.received|
    ensures i in y.h.fates <==> !(HasPending(y.w.imageBuilds[k]) && i == |y.h.received| - 1)
    ensures i in y.h.fates ==> FateIsTrue(y.h, i)
    ensures forall j: nat :: j < |y.h.triggers| ==> TriggerIsTrue(y.h, j)
  {
  }

  lemma InvPushes(y: System, k: Key, n: nat)
    requires Inv(y, k, n)
    ensures k in y.w.imageBuilds && PushesKept(y.h, y.w.imageBuilds[k].status.onCommit)
    ensures TriggersSpaced(y.h) && CountersAgree(y, k)
  {
  }

  /** No push is lost, wherever passes stop: the last push received is the pending one, or the
      last trigger was for its commit. */
  lemma NoPushIsLost(x: System, k: Key, acts: seq<Action>)
    requires IsRun(x, k, acts)
    ensures var y := Play(x, k, acts);
            var oc := y.w.imageBuilds[k].status.onCommit;
            var n := |y.h.received|;
            && (Pending(oc).Some? ==> n > 0 && Pending(oc) == LastReceived(oc) == Some(y.h.received[n - 1].record))
            && (Pending(oc).None? && n > 0 ==>
                  LastTriggered(oc).Some? && LastTriggered(oc).value.commitSHA == y.h.received[n - 1].record.commitSHA)
  {
    hide Inv, Play, LegalRun;
    var n := RunsAreSafe(x, k, acts);
    InvPushes(Play(x, k, acts), k, n);
  }

  /** Every push ever received is pending, or superseded by a later one, or consumed by exactly
      one trigger for its commit, or dropped as a duplicate of an earlier trigger's commit. */
  lemma EveryPushHasOneFate(x: System, k: Key, acts: seq<Action>, i: nat)
    requires IsRun(x, k, acts) && i < |Play(x, k, acts).h.received|
    ensures var y := Play(x, k, acts);
            var isPending := HasPending(y.w.imageBuilds[k]) && i == |y.h.received| - 1;
            && (i in y.h.fates <==> !isPending)
            && (i in y.h.fates ==>
                  match y.h.fates[i]
                  case Superseded => i + 1 < |y.h.received|
                  case Triggered(j) =>
                    && j < |y.h.triggers| && y.h.triggers[j].push == i
                    && y.h.triggers[j].commitSHA == y.h.received[i].record.commitSHA
                    && (forall j' :: 0 <= j' < |y.h.triggers| && y.h.triggers[j'].push == i ==> j' == j)
                  case Dropped(j) =>
                    && j < |y.h.triggers| && y.h.triggers[j].push < i
                    && y.h.triggers[j].commitSHA == y.h.received[i].record.commitSHA)
  {
    hide Inv, Play, LegalRun;
    var n := RunsAreSafe(x, k, acts);
    var h := Play(x, k, acts).h;
    InvFates(Play(x, k, acts), k, n, i);
    if i in h.fates && h.fates[i].Triggered? {
      assert TriggerIsTrue(h, h.fates[i].trigger);
      forall j | 0 <= j < |h.triggers| && h.triggers[j].push == i
        ensures j == h.fates[i].trigger
      {
        assert TriggerIsTrue(h, j);
      }
    }
  }

  /** Counters and names agree, wherever passes stop: the indices of the runs ever created, in
      either family, are 1 up to the counter or one more; and a run the ImageBuild controls under
      one of its own names is one of those. */
  lemma CountersMatchNames(x: System, k: Key, acts: seq<Action>, f: Family)
    requires IsRun(x, k, acts)
    ensures var y := Play(x, k, acts);
            var n := Counter(y.w.imageBuilds[k], f);
            && n >= 0
            && (IsUpTo(Indices(y.h, f), n) || IsUpTo(Indices(y.h, f), n + 1))
            && (forall i :: OwnsRun(y.w, y.w.imageBuilds[k], RunName(k.name, f, i)) ==> 1 <= i <= n + 1)
  {
    hide Inv, Play, LegalRun, OwnsRun, RunName;
    var n := RunsAreSafe(x, k, acts);
    InvPushes(Play(x, k, acts), k, n);
    CountersAgreeParts(Play(x, k, acts), k);
  }

  /** Triggers of a run: adjacent ones are for different commits, at least 30 s apart on record
      and more than 29 s apart in truth; and no on-commit run is created within 9 s (10 s on
      record) of the last push received by then. */
  lemma TriggersKeepTheirDistance(x: System, k: Key, acts: seq<Action>)
    requires IsRun(x, k, acts)
    ensures var h := Play(x, k, acts).h;
            && (forall j :: 0 < j < |h.triggers| ==>
                  && h.triggers[j - 1].commitSHA != h.triggers[j].commitSHA
                  && Stamp(h.triggers[j].at) - Stamp(h.triggers[j - 1].at) >= 30 * SECOND
                  && h.triggers[j].at - h.triggers[j - 1].at > 29 * SECOND)
            && (forall c :: c in h.created && c.family == OnCommit ==>
                  && 0 < c.deliveries <= |h.received|
                  && c.at - h.received[c.deliveries - 1].record.receivedAt >= 10 * SECOND
                  && c.at - h.received[c.deliveries - 1].at > 9 * SECOND)
  {
    hide Inv, Play, LegalRun;
    var n := RunsAreSafe(x, k, acts);
    InvPushes(Play(x, k, acts), k, n);
    var h := Play(x, k, acts).h;
    assert forall j :: 0 < j < |h.triggers| ==> Spaced(h.triggers[j - 1], h.triggers[j]);
    assert forall c :: c in h.created ==> Debounced(h, c);
  }

  lemma {:induction false} EventsAdvanceGenerations(x: System, k: Key, es: seq<Event>)
    requires k in x.w.imageBuilds && Legal(x, k, es) && GenerationsOrdered(x.w.imageBuilds[k])
    ensures var a, b := x.w.imageBuilds[k], After(x, k, es).w.imageBuilds[k];
            GenerationsOrdered(b) && a.status.observedGeneration <= b.status.observedGeneration
    decreases |es|
  {
    hide Enabled, Next, GenerationsOrdered;
    if es != [] {
      StepKeepsGenerations(x, k, es[0]);
      EventsAdvanceGenerations(Next(x, k, es[0]), k, es[1..]);
    }
  }

  /** Generations along every run, from any state where they are in order: conditions are never
      ahead of the observed generation, nor it of the specification, and it never goes back. */
  lemma GenerationsAdvance(x: System, k: Key, acts: seq<Action>)
    requires k in x.w.imageBuilds && LegalRun(x, k, acts) && GenerationsOrdered(x.w.imageBuilds[k])
    ensures var a, b := x.w.imageBuilds[k], Play(x, k, acts).w.imageBuilds[k];
            GenerationsOrdered(b) && a.status.observedGeneration <= b.status.observedGeneration
  {
    hide GenerationsOrdered, AllEvents, LegalRun, Play;
    RunsAreEvents(x, k, acts);
    EventsAdvanceGenerations(x, k, AllEvents(x, k, acts));
  }

  lemma {:induction false} GuardedAt(s: World, k: Key, ws: seq<Write>, i: nat)
    requires k in s.imageBuilds && AllGuarded(s, k, ws) && i < |ws|
    ensures Guard(Exec(s, k, ws[..i]), k, ws[i])
    decreases i
  {
    hide Guard, Apply;
    if i > 0 {
      assert ws[..i][0] == ws[0] && ws[..i][1..] == ws[1..][..i - 1];
      GuardedAt(Apply(s, k, ws[0]), k, ws[1..], i - 1);
    }
  }

  /** Whichever write of a pass sets the run last reported on, it sets with it the verdict derived
      from that very run as it is in the store, for the present generation. */
  lemma ReportsCarryVerdicts(s: World, k: Key, i: nat)
    requires WellFormed(s, k) && i < |Reconcile(s, k).writes|
    ensures var w := Reconcile(s, k).writes[i];
            var t := Exec(s, k, Reconcile(s, k).writes[..i]);
            var a, b := t.imageBuilds[k], Apply(t, k, w).imageBuilds[k];
            b.status.lastBuildRunRef != a.status.lastBuildRunRef || w.SetBuildSucceeded? ==>
              var r := RunKey(k, b.status.lastBuildRunRef);
              && r in t.runs
              && b.status.conditions.buildSucceeded
                   == Some(Condition(Verdict(t.runs[r]).0, Verdict(t.runs[r]).1, b.generation))
  {
    hide Reconcile, AllGuarded, Exec, Verdict, Guard, Apply;
    ReconcileObeys(s, k);
    GuardedAt(s, k, Reconcile(s, k).writes, i);
    ReportCarriesVerdict(Exec(s, k, Reconcile(s, k).writes[..i]), k, Reconcile(s, k).writes[i]);
  }

  lemma ReportCarriesVerdict(t: World, k: Key, w: Write)
    requires k in t.imageBuilds && Guard(t, k, w)
    ensures var a, b := t.imageBuilds[k], Apply(t, k, w).imageBuilds[k];
            b.status.lastBuildRunRef != a.status.lastBuildRunRef || w.SetBuildSucceeded? ==>
              var r := RunKey(k, b.status.lastBuildRunRef);
              && r in t.runs
              && b.status.conditions.buildSucceeded
                   == Some(Condition(Verdict(t.runs[r]).0, Verdict(t.runs[r]).1, b.generation))
  {
    hide Verdict, IsDue, MayCreate, RunName, IsSpecDrifted;
  }

  // ---- redeliveries --------------------------------------------------------

  ghost predicate OnlyPushes(es: seq<Event>, sha: string) {
    forall e :: e in es && e.Push? ==> e.commitSHA == sha
  }

  ghost predicate PendingIs(x: System, k: Key, sha: string)
    requires k in x.w.imageBuilds
  {
    var p := Pending(x.w.imageBuilds[k].status.onCommit);
    p.Some? ==> p.value.commitSHA == sha
  }

  ghost predicate LastTriggerIs(x: System, k: Key, sha: string)
    requires k in x.w.imageBuilds
  {
    var t := LastTriggered(x.w.imageBuilds[k].status.onCommit);
    t.Some? && t.value.commitSHA == sha
  }

  /** How one step bears on the builds for one commit, while no other commit is pushed. */
  lemma StepForOneCommit(x: System, k: Key, e: Event, sha: string, steps: nat)
    requires Inv(x, k, steps) && steps < MAX_INT64 && Enabled(x, k, e)
    requires PendingIs(x, k, sha) && (e.Push? ==> e.commitSHA == sha)
    ensures var y := Next(x, k, e);
            var c := Counter(x.w.imageBuilds[k], OnCommit);
            && PendingIs(y, k, sha)
            && if e.Reconciler? && e.write.MarkTriggered? then
                 && !LastTriggerIs(x, k, sha) && LastTriggerIs(y, k, sha)
                 && |y.h.triggers| == |x.h.triggers| + 1
                 && Indices(y.h, OnCommit) == Indices(x.h, OnCommit)
               else
                 && (LastTriggerIs(y, k, sha) <==> LastTriggerIs(x, k, sha))
                 && |y.h.triggers| == |x.h.triggers|
                 && Counter(y.w.imageBuilds[k], OnCommit) == c
                 && Indices(y.h, OnCommit) <= Indices(x.h, OnCommit) + {c + 1}
                 && (LastTriggerIs(x, k, sha) ==> Indices(y.h, OnCommit) == Indices(x.h, OnCommit))
  {
    hide PushesKept, TriggersSpaced, TriggersRecorded, TimesInOrder, CountersAgree, ReportsOwnRun, RemainingWait,
         RunName, Indices, OwnsRun, GenerationsOrdered, IsSpecDrifted, GetActiveBuildRun;
    var y, ib := Next(x, k, e), x.w.imageBuilds[k];
    CountersNonNegative(x, k);
    IndicesSame(x.h, y.h);
    if e.Reconciler? {
      if e.write.MarkTriggered? || e.write.ClearPending? {
        PendingWasReceived(x.h, ib.status.onCommit);
      } else {
        OtherWritesKeepPushes(x, k, e.write);
        if e.write.CreateRun? {
          NextNamesDiffer(ib);
          IndicesAppend(x.h, y.h.created[|x.h.created|], OnCommit);
        }
      }
    }
  }

  lemma IndicesSame(h: History, h': History)
    ensures h'.created == h.created ==> Indices(h', OnCommit) == Indices(h, OnCommit)
  {
  }

  lemma {:induction false} EventsForOneCommit(x: System, k: Key, es: seq<Event>, sha: string, steps: nat)
    requires Inv(x, k, steps) && k in x.w.imageBuilds && Legal(x, k, es) && steps + |es| <= MAX_INT64
    requires PendingIs(x, k, sha) && OnlyPushes(es, sha)
    ensures var y := After(x, k, es);
            && |y.h.triggers| <= |x.h.triggers| + 1
            && Indices(y.h, OnCommit) <= Indices(x.h, OnCommit) + {Counter(x.w.imageBuilds[k], OnCommit) + 1}
            && (LastTriggerIs(x, k, sha) ==>
                  |y.h.triggers| == |x.h.triggers| && Indices(y.h, OnCommit) == Indices(x.h, OnCommit))
    decreases |es|
  {
    hide Inv, Enabled, Next, Indices, PendingIs, LastTriggerIs;
    if es != [] {
      StepForOneCommit(x, k, es[0], sha, steps);
      StepKeepsInv(x, k, es[0], steps);
      EventsForOneCommit(Next(x, k, es[0]), k, es[1..], sha, steps + 1);
    }
  }

  lemma {:induction false} DeliveriesArePushes(x: System, k: Key, acts: seq<Action>, sha: string)
    requires k in x.w.imageBuilds && LegalRun(x, k, acts)
    requires forall a :: a in acts && a.Deliver? ==> a.commitSHA == sha
    ensures OnlyPushes(AllEvents(x, k, acts), sha)
    decreases |acts|
  {
    hide Legal, After;
    if acts != [] {
      assert acts[0] in acts;
      assert OnlyPushes(Events(x, k, acts[0]), sha);
      DeliveriesArePushes(After(x, k, Events(x, k, acts[0])), k, acts[1..], sha);
    }
  }

  /** At-least-once delivery is absorbed: however often one commit is delivered in the course of a
      run, between passes complete or stopped, it is triggered at most once and takes at most one
      new on-commit run name; and none at all if it was the last commit triggered before. */
  lemma RedeliveriesBuildOnce(x: System, k: Key, before: seq<Action>, acts: seq<Action>, sha: string)
    requires IsRun(x, k, before) && MAX_WRITES * (|before| + |acts|) <= MAX_INT64
    requires var y := Play(x, k, before); LegalRun(y, k, acts) && PendingIs(y, k, sha)
    requires forall a :: a in acts && a.Deliver? ==> a.commitSHA == sha
    ensures var y := Play(x, k, before);
            var z := Play(y, k, acts);
            && |z.h.triggers| <= |y.h.triggers| + 1
            && Indices(z.h, OnCommit) <= Indices(y.h, OnCommit) + {Counter(y.w.imageBuilds[k], OnCommit) + 1}
            && (LastTriggerIs(y, k, sha) ==>
                  |z.h.triggers| == |y.h.triggers| && Indices(z.h, OnCommit) == Indices(y.h, OnCommit))
  {
    hide Inv, LegalRun, Play, AllEvents, Legal, After, Indices, PendingIs, LastTriggerIs, OnlyPushes;
    var y := Play(x, k, before);
    InitInv(x, k);
    RunsAreEvents(x, k, before);
    var n := |AllEvents(x, k, before)|;
    RunKeepsInv(x, k, AllEvents(x, k, before), 0);
    RunsAreEvents(y, k, acts);
    DeliveriesArePushes(y, k, acts, sha);
    EventsForOneCommit(y, k, AllEvents(y, k, acts), sha, n);
  }

  // ---- ownership -----------------------------------------------------------

  /** No BuildRun is changed or deleted, and new ones are the ImageBuild's own. */
  ghost predicate RespectsRuns(s: World, ib: ImageBuild, t: World) {
    && (forall r :: r in s.runs ==> r in t.runs && t.runs[r] == s.runs[r])
    && (forall r :: r in t.runs && r !in s.runs ==> r.ns == ib.key.ns && t.runs[r].controller == Some(OwnerOf(ib)))
  }

  /** No Build is deleted, and none changed or created but the ImageBuild's own, which nobody else
      controlled. */
  ghost predicate RespectsBuilds(s: World, ib: ImageBuild, t: World) {
    && (forall b :: b in s.builds ==>
          b in t.builds &&
          (|| t.builds[b] == s.builds[b]
           || (&& b == BuildKey(ib.key) && !ControlledByOther(s.builds[b].controller, ib)
               && t.builds[b].controller == Some(OwnerOf(ib)))))
    && (forall b :: b in t.builds && b !in s.builds ==>
          b == BuildKey(ib.key) && t.builds[b].controller == Some(OwnerOf(ib)))
  }

  /** What a pass over one ImageBuild may change: no BuildRun that exists; no Build controlled by
      another; no other ImageBuild; not the specification.  What it creates is its own. */
  ghost predicate RespectsOwners(s: World, k: Key, t: World)
    requires k in s.imageBuilds && k in t.imageBuilds
  {
    var ib := s.imageBuilds[k];
    && RespectsRuns(s, ib, t) && RespectsBuilds(s, ib, t)
    && t.imageBuilds == s.imageBuilds[k := t.imageBuilds[k]]
    && t.imageBuilds[k].spec == ib.spec && t.imageBuilds[k].generation == ib.generation
    && t.imageBuilds[k].key == ib.key && t.imageBuilds[k].uid == ib.uid
    && t.policy == s.policy && t.strategies == s.strategies && t.secrets == s.secrets
  }

  lemma WriteRespectsRuns(s: World, k: Key, w: Write)
    requires WellFormed(s, k) && Guard(s, k, w)
    ensures RespectsRuns(s, s.imageBuilds[k], Apply(s, k, w))
  {
    hide IsDue, MayCreate, IsSpecDrifted, Verdict, RunName, Written, BuildName;
  }

  lemma WriteRespectsBuilds(s: World, k: Key, w: Write)
    requires WellFormed(s, k) && Guard(s, k, w)
    ensures RespectsBuilds(s, s.imageBuilds[k], Apply(s, k, w))
  {
    hide IsDue, MayCreate, IsSpecDrifted, Verdict, RunName, Written, BuildName;
  }

  lemma WriteRespectsOwners(s: World, k: Key, w: Write)
    requires WellFormed(s, k) && Guard(s, k, w)
    ensures RespectsOwners(s, k, Apply(s, k, w))
  {
    hide Guard, RespectsRuns, RespectsBuilds;
    WriteRespectsRuns(s, k, w);
    WriteRespectsBuilds(s, k, w);
    assert s.imageBuilds[k := s.imageBuilds[k]] == s.imageBuilds;
  }

  lemma RunsRespectIsTransitive(s: World, a: ImageBuild, t: World, b: ImageBuild, u: World)
    requires RespectsRuns(s, a, t) && RespectsRuns(t, b, u) && b.key == a.key && b.uid == a.uid
    ensures RespectsRuns(s, a, u)
  {
  }

  lemma BuildsRespectIsTransitive(s: World, a: ImageBuild, t: World, b: ImageBuild, u: World)
    requires RespectsBuilds(s, a, t) && RespectsBuilds(t, b, u) && b.key == a.key && b.uid == a.uid
    ensures RespectsBuilds(s, a, u)
  {
    hide BuildName;
  }

  lemma RespectIsTransitive(s: World, k: Key, t: World, u: World)
    requires k in s.imageBuilds && k in t.imageBuilds && k in u.imageBuilds
    requires RespectsOwners(s, k, t) && RespectsOwners(t, k, u)
    ensures RespectsOwners(s, k, u)
  {
    hide RespectsRuns, RespectsBuilds;
    RunsRespectIsTransitive(s, s.imageBuilds[k], t, t.imageBuilds[k], u);
    BuildsRespectIsTransitive(s, s.imageBuilds[k], t, t.imageBuilds[k], u);
    assert s.imageBuilds[k := t.imageBuilds[k]][k := u.imageBuilds[k]] == s.imageBuilds[k := u.imageBuilds[k]];
  }

  lemma {:induction false} WritesRespectOwners(s: World, k: Key, ws: seq<Write>)
    requires WellFormed(s, k) && AllGuarded(s, k, ws)
    ensures RespectsOwners(s, k, Exec(s, k, ws))
    decreases |ws|
  {
    hide Guard, Apply, RespectsOwners;
    if ws == [] {
      NothingRespectsOwners(s, k);
    } else {
      var t := Apply(s, k, ws[0]);
      WriteRespectsOwners(s, k, ws[0]);
      WriteKeepsWellFormed(s, k, ws[0]);
      WritesRespectOwners(t, k, ws[1..]);
      RespectIsTransitive(s, k, t, Exec(t, k, ws[1..]));
    }
  }

  lemma NothingRespectsOwners(s: World, k: Key)
    requires k in s.imageBuilds
    ensures RespectsOwners(s, k, s)
  {
  }

  /** However early a pass stops, it has neither modified nor deleted a BuildRun, and changed or
      adopted nothing that somebody else controls. */
  lemma StoppedPassRespectsOwners(s: World, k: Key, n: nat)
    requires WellFormed(s, k)
    ensures RespectsOwners(s, k, Exec(s, k, Stopped(s, k, n)))
  {
    hide Reconcile, RespectsOwners, AllGuarded, Exec;
    ReconcileObeys(s, k);
    var ws := Reconcile(s, k).writes;
    GuardedPrefix(s, k, ws, Min(n, |ws|));
    WritesRespectOwners(s, k, Stopped(s, k, n));
  }

  /** Along every run, the BuildRun last reported on is controlled by the ImageBuild, as long as
      nobody else has made a BuildRun of that name. */
  lemma LastRunIsOwn(x: System, k: Key, acts: seq<Action>)
    requires IsRun(x, k, acts)
    ensures var y := Play(x, k, acts);
            var ib := y.w.imageBuilds[k];
            var r := RunKey(k, ib.status.lastBuildRunRef);
            ib.status.lastBuildRunRef != "" && r in y.w.runs && r !in y.h.foreign ==>
              IsControlledBy(y.w.runs[r].controller, ib)
  {
    hide Play, LegalRun;
    var n := RunsAreSafe(x, k, acts);
  }
}
