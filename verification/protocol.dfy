/** The protocol of the two writers at the granularity of single API writes: the reconciler's
    guarded writes, webhook deliveries and steps of the environment, in any order.  A history
    records what the objects themselves do not keep.

    A pass that stops anywhere is a run of guarded writes (see Guards), so what holds along
    every run of this machine holds for passes that complete and for passes cut short alike. */
module Protocol {
  import opened ImageBuilds
  import opened Names
  import opened Cluster
  import opened ReconcileSpec
  import opened Guards

  // ---- the machine ---------------------------------------------------------

  /** A delivered push; `at` is the true time, of which the record keeps whole seconds. */
  datatype Delivery = Delivery(record: PushRecord, at: int)

  /** A recorded trigger: which push it consumed, for which commit, at what true time. */
  datatype Trigger = Trigger(push: nat, commitSHA: string, at: int)

  /** A BuildRun's creation: its family and index, when, and after how many deliveries. */
  datatype Creation = Creation(family: Family, index: int, at: int, deliveries: nat)

  /** What became of a push that is no longer pending. */
  datatype Fate = Superseded | Triggered(trigger: nat) | Dropped(duplicateOf: nat)

  datatype History = History(
    received: seq<Delivery>,
    fates: map<nat, Fate>,
    triggers: seq<Trigger>,
    created: seq<Creation>,
    foreign: set<Key>)

  datatype System = System(w: World, h: History)

  datatype Event =
    | Reconciler(write: Write)
    | Push(ref: string, commitSHA: string)
    | Environment(next: World)

  /** Anything users, Shipwright, other controllers and time may do.  The status of the ImageBuild
      and the record of its build inputs belong to the operator; a new generation comes with every edit of the
      specification; nobody else creates BuildRuns controlled by the ImageBuild or changes who
      controls one. */
  ghost predicate EnvStep(s: World, k: Key, s': World)
    requires k in s.imageBuilds
  {
    && WellFormed(s', k)
    && (var a, b := s.imageBuilds[k], s'.imageBuilds[k];
        && b.uid == a.uid
        && b.status == a.status
        && SameRecord(a, b)
        && b.generation >= a.generation
        && (b.spec != a.spec ==> b.generation > a.generation)
        && (forall r :: r in s'.runs ==>
              if r in s.runs then s'.runs[r].controller == s.runs[r].controller
              else !IsControlledBy(s'.runs[r].controller, a)))
    && s'.clock >= s.clock
    && s'.tagged == s.tagged
  }

  ghost predicate Enabled(x: System, k: Key, e: Event)
    requires k in x.w.imageBuilds
  {
    match e
    case Reconciler(w) => Guard(x.w, k, w)
    case Push(_, _) => true
    case Environment(s') => EnvStep(x.w, k, s')
  }

  function Recorded(x: System, k: Key, w: Write): History
    requires k in x.w.imageBuilds
  {
    var h, ib := x.h, x.w.imageBuilds[k];
    match w
    case CreateRun(r) =>
      var f := if r.name == NextName(ib, OnCommit) then OnCommit else SpecChange;
      h.(created := h.created + [Creation(f, NextCounter(Counter(ib, f)), x.w.clock, |h.received|)])
    case MarkTriggered(_, _, sha) =>
      if |h.received| == 0 then h
      else h.(fates := h.fates[|h.received| - 1 := Triggered(|h.triggers|)],
              triggers := h.triggers + [Trigger(|h.received| - 1, sha, x.w.clock)])
    case ClearPending =>
      if |h.received| == 0 || |h.triggers| == 0 then h
      else h.(fates := h.fates[|h.received| - 1 := Dropped(|h.triggers| - 1)])
    case _ => h
  }

  ghost function Next(x: System, k: Key, e: Event): (y: System)
    requires k in x.w.imageBuilds && Enabled(x, k, e)
    ensures k in y.w.imageBuilds
  {
    match e
    case Reconciler(w) => System(Apply(x.w, k, w), Recorded(x, k, w))
    case Push(ref, sha) =>
      var record := PushRecord(ref, sha, Stamp(x.w.clock));
      System(Deliver(x.w, k, record),
             x.h.(received := x.h.received + [Delivery(record, x.w.clock)],
                  fates := if HasPending(x.w.imageBuilds[k]) && |x.h.received| > 0
                           then x.h.fates[|x.h.received| - 1 := Superseded] else x.h.fates))
    case Environment(s') =>
      System(s', x.h.(foreign := x.h.foreign + (s'.runs.Keys - x.w.runs.Keys)))
  }

  ghost predicate Legal(x: System, k: Key, es: seq<Event>)
    requires k in x.w.imageBuilds
    decreases |es|
  {
    es == [] || (Enabled(x, k, es[0]) && Legal(Next(x, k, es[0]), k, es[1..]))
  }

  ghost function After(x: System, k: Key, es: seq<Event>): (y: System)
    requires k in x.w.imageBuilds && Legal(x, k, es)
    ensures k in y.w.imageBuilds
    decreases |es|
  {
    if es == [] then x else After(Next(x, k, es[0]), k, es[1..])
  }

  const FRESH := Status(0, "", Conditions(None, None), "", "", 0, None)
  const NO_HISTORY := History([], map[], [], [], {})

  /** A newly created ImageBuild, which controls no BuildRun yet. */
  ghost predicate Init(x: System, k: Key) {
    && WellFormed(x.w, k)
    && x.w.imageBuilds[k].status == FRESH
    && x.w.imageBuilds[k].generation >= 0
    && (forall r :: r in x.w.runs ==> !IsControlledBy(x.w.runs[r].controller, x.w.imageBuilds[k]))
    && x.w.clock >= SECOND
    && x.h == NO_HISTORY
  }

  // ---- invariants ----------------------------------------------------------

  function Pending(oc: Option<OnCommitStatus>): Option<PushRecord> {
    if oc.Some? then oc.value.pending else None
  }

  function LastReceived(oc: Option<OnCommitStatus>): Option<PushRecord> {
    if oc.Some? then oc.value.lastReceived else None
  }

  function LastTriggered(oc: Option<OnCommitStatus>): Option<TriggerRecord> {
    if oc.Some? then oc.value.lastTriggered else None
  }

  function TriggerCounter(oc: Option<OnCommitStatus>): int {
    if oc.Some? then oc.value.triggerCounter else 0
  }

  ghost predicate FateIsTrue(h: History, i: nat)
    requires i in h.fates
  {
    match h.fates[i]
    case Superseded => i + 1 < |h.received|
    case Triggered(j) => j < |h.triggers| && h.triggers[j].push == i
    case Dropped(j) =>
      && i < |h.received| && j < |h.triggers|
      && h.triggers[j].push < i
      && h.triggers[j].commitSHA == h.received[i].record.commitSHA
  }

  /** A trigger is for the commit of the push it consumed, and no other trigger consumed that push. */
  ghost predicate TriggerIsTrue(h: History, j: nat)
    requires j < |h.triggers|
  {
    var i := h.triggers[j].push;
    && i < |h.received| && i in h.fates
    && h.fates[i] == Triggered(j)
    && h.triggers[j].commitSHA == h.received[i].record.commitSHA
  }

  /** No push is lost: the last one received is pending, or the last trigger was for its commit;
      and every push received has exactly one fate, unless it is the pending one. */
  ghost predicate PushesKept(h: History, oc: Option<OnCommitStatus>) {
    var n := |h.received|;
    && LastReceived(oc) == (if n == 0 then None else Some(h.received[n - 1].record))
    && (Pending(oc).Some? ==> n > 0 && Pending(oc) == LastReceived(oc))
    && (Pending(oc).None? && n > 0 ==>
          LastTriggered(oc).Some? && LastTriggered(oc).value.commitSHA == LastReceived(oc).value.commitSHA)
    && (forall i: nat :: i in h.fates <==> i < n && !(Pending(oc).Some? && i == n - 1))
    && (forall i: nat :: i in h.fates ==> FateIsTrue(h, i))
    && (forall j: nat :: j < |h.triggers| ==> TriggerIsTrue(h, j))
  }

  /** Consecutive triggers are for different commits and at least the minimum interval apart, by
      the recorded times; by the true times, less the second that recording drops. */
  predicate Spaced(a: Trigger, b: Trigger) {
    && a.commitSHA != b.commitSHA
    && Stamp(b.at) - Stamp(a.at) >= MIN_INTERVAL
    && b.at - a.at > MIN_INTERVAL - SECOND
  }

  /** On-commit runs are created later than the debounce window after the last push by then. */
  ghost predicate Debounced(h: History, c: Creation) {
    c.family == OnCommit ==>
      && 0 < c.deliveries <= |h.received|
      && c.at - h.received[c.deliveries - 1].record.receivedAt >= DEBOUNCE
      && c.at - h.received[c.deliveries - 1].at > DEBOUNCE - SECOND
  }

  /** The last trigger on record, by name, commit and time, and the number of triggers. */
  ghost predicate TriggersRecorded(h: History, oc: Option<OnCommitStatus>, name: string) {
    var m := |h.triggers|;
    && TriggerCounter(oc) == m
    && LastTriggered(oc) == (if m == 0 then None
                             else Some(TriggerRecord(RunName(name, OnCommit, m), h.triggers[m - 1].commitSHA,
                                                     Stamp(h.triggers[m - 1].at))))
  }

  ghost predicate TimesInOrder(h: History, now: int) {
    && now >= SECOND
    && (forall i :: 0 <= i < |h.received| ==>
          SECOND <= h.received[i].at <= now && h.received[i].record.receivedAt == Stamp(h.received[i].at))
    && (forall j :: 0 <= j < |h.triggers| ==> SECOND <= h.triggers[j].at <= now)
  }

  ghost predicate TriggersSpaced(h: History) {
    && (forall j :: 0 < j < |h.triggers| ==> Spaced(h.triggers[j - 1], h.triggers[j]))
    && (forall c :: c in h.created ==> Debounced(h, c))
  }

  function Indices(h: History, f: Family): set<int> {
    set c | c in h.created && c.family == f :: c.index
  }

  /** The set {1, ..., n}. */
  ghost predicate IsUpTo(s: set<int>, n: int) {
    forall i: int :: i in s <==> 1 <= i <= n
  }

  /** The indices created so far are those up to the counter, or one more: the run whose creation
      has not been counted yet. */
  ghost predicate CounterAgrees(h: History, f: Family, counter: int) {
    && counter >= 0
    && (IsUpTo(Indices(h, f), counter) || IsUpTo(Indices(h, f), counter + 1))
  }

  ghost predicate CountersAgree(x: System, k: Key)
    requires k in x.w.imageBuilds
  {
    var ib := x.w.imageBuilds[k];
    && CounterAgrees(x.h, SpecChange, Counter(ib, SpecChange))
    && CounterAgrees(x.h, OnCommit, Counter(ib, OnCommit))
    && (forall f: Family, i: int :: OwnsRun(x.w, ib, RunName(k.name, f, i)) ==> i in Indices(x.h, f))
  }

  ghost predicate ConditionNotAhead(c: Option<Condition>, observed: int) {
    c.Some? ==> c.value.observedGeneration <= observed
  }

  /** Conditions are never ahead of the observed generation, nor it of the specification. */
  ghost predicate GenerationsOrdered(ib: ImageBuild) {
    && ConditionNotAhead(ib.status.conditions.ready, ib.status.observedGeneration)
    && ConditionNotAhead(ib.status.conditions.buildSucceeded, ib.status.observedGeneration)
    && ib.status.observedGeneration <= ib.generation
  }

  /** The run last reported on is the ImageBuild's own, unless somebody else has made a run of
      that name. */
  ghost predicate ReportsOwnRun(x: System, k: Key)
    requires k in x.w.imageBuilds
  {
    var ib := x.w.imageBuilds[k];
    var r := RunKey(k, ib.status.lastBuildRunRef);
    ib.status.lastBuildRunRef != "" && r in x.w.runs && r !in x.h.foreign ==> IsControlledBy(x.w.runs[r].controller, ib)
  }

  /** `steps` bounds the counters: no run of fewer than 2^63 steps can overflow them. */
  ghost predicate Inv(x: System, k: Key, steps: nat) {
    && WellFormed(x.w, k)
    && (var ib := x.w.imageBuilds[k];
        && PushesKept(x.h, ib.status.onCommit)
        && TriggersRecorded(x.h, ib.status.onCommit, k.name)
        && TimesInOrder(x.h, x.w.clock)
        && TriggersSpaced(x.h)
        && CountersAgree(x, k)
        && GenerationsOrdered(ib)
        && ReportsOwnRun(x, k)
        && Counter(ib, SpecChange) <= steps
        && Counter(ib, OnCommit) <= steps)
  }

  lemma InitInv(x: System, k: Key)
    requires Init(x, k)
    ensures Inv(x, k, 0)
  {
  }

  // ---- pushes --------------------------------------------------------------

  lemma PushKeepsPushes(h: History, oc: Option<OnCommitStatus>, d: Delivery, h': History, oc': Option<OnCommitStatus>)
    requires PushesKept(h, oc)
    requires LastReceived(oc') == Pending(oc') == Some(d.record) && LastTriggered(oc') == LastTriggered(oc)
    requires h' == h.(received := h.received + [d],
                      fates := if Pending(oc).Some? && |h.received| > 0
                               then h.fates[|h.received| - 1 := Superseded] else h.fates)
    ensures PushesKept(h', oc')
  {
    forall j: nat | j < |h.triggers|
      ensures TriggerIsTrue(h', j)
    {
      assert TriggerIsTrue(h, j);
    }
    forall i: nat | i in h'.fates
      ensures FateIsTrue(h', i)
    {
      assert i in h.fates ==> FateIsTrue(h, i);
    }
  }

  lemma TriggerKeepsPushes(h: History, oc: Option<OnCommitStatus>, at: int, h': History, oc': Option<OnCommitStatus>)
    requires PushesKept(h, oc) && Pending(oc).Some?
    requires Pending(oc') == None && LastReceived(oc') == LastReceived(oc)
    requires LastTriggered(oc').Some? && LastTriggered(oc').value.commitSHA == Pending(oc).value.commitSHA
    requires h' == h.(fates := h.fates[|h.received| - 1 := Triggered(|h.triggers|)],
                      triggers := h.triggers + [Trigger(|h.received| - 1, Pending(oc).value.commitSHA, at)])
    ensures PushesKept(h', oc')
  {
    forall j: nat | j < |h.triggers|
      ensures TriggerIsTrue(h', j)
    {
      assert TriggerIsTrue(h, j);
    }
    forall i: nat | i in h'.fates
      ensures FateIsTrue(h', i)
    {
      assert i in h.fates ==> FateIsTrue(h, i);
    }
    assert TriggerIsTrue(h', |h.triggers|);
  }

  lemma DropKeepsPushes(h: History, oc: Option<OnCommitStatus>, name: string, h': History, oc': Option<OnCommitStatus>)
    requires PushesKept(h, oc) && TriggersRecorded(h, oc, name) && Pending(oc).Some?
    requires LastTriggered(oc).Some? && LastTriggered(oc).value.commitSHA == Pending(oc).value.commitSHA
    requires Pending(oc') == None && LastReceived(oc') == LastReceived(oc) && LastTriggered(oc') == LastTriggered(oc)
    requires h' == h.(fates := h.fates[|h.received| - 1 := Dropped(|h.triggers| - 1)])
    ensures PushesKept(h', oc')
  {
    assert TriggerIsTrue(h, |h.triggers| - 1);
    forall j: nat | j < |h.triggers|
      ensures TriggerIsTrue(h', j)
    {
      assert TriggerIsTrue(h, j);
    }
    forall i: nat | i in h'.fates
      ensures FateIsTrue(h', i)
    {
      assert i in h.fates ==> FateIsTrue(h, i);
    }
  }

  /** The writes that leave the on-commit status and the push history alone. */
  lemma OtherWritesKeepPushes(x: System, k: Key, w: Write)
    requires k in x.w.imageBuilds && !w.MarkTriggered? && !w.ClearPending?
    ensures Apply(x.w, k, w).imageBuilds[k].status.onCommit == x.w.imageBuilds[k].status.onCommit
    ensures var h := Recorded(x, k, w);
            h.received == x.h.received && h.fates == x.h.fates && h.triggers == x.h.triggers
  {
  }

  lemma PushesFrame(h: History, oc: Option<OnCommitStatus>, h': History)
    requires PushesKept(h, oc)
    requires h'.received == h.received && h'.fates == h.fates && h'.triggers == h.triggers
    ensures PushesKept(h', oc)
  {
    forall j: nat | j < |h.triggers|
      ensures TriggerIsTrue(h', j)
    {
      assert TriggerIsTrue(h, j);
    }
    forall i: nat | i in h'.fates
      ensures FateIsTrue(h', i)
    {
      assert i in h.fates ==> FateIsTrue(h, i);
    }
  }

  lemma MarkKeepsPushes(x: System, k: Key, w: Write, steps: nat)
    requires Inv(x, k, steps) && w.MarkTriggered? && Guard(x.w, k, w)
    ensures var y := Next(x, k, Reconciler(w)); PushesKept(y.h, y.w.imageBuilds[k].status.onCommit)
  {
    hide PushesKept, TriggersSpaced, TriggersRecorded, TimesInOrder, CountersAgree, ReportsOwnRun, OwnsRun,
         RemainingWait, RunName, GenerationsOrdered;
    var y, oc := Next(x, k, Reconciler(w)), x.w.imageBuilds[k].status.onCommit;
    PendingWasReceived(x.h, oc);
    TriggerKeepsPushes(x.h, oc, x.w.clock, y.h, y.w.imageBuilds[k].status.onCommit);
  }

  lemma ClearKeepsPushes(x: System, k: Key, steps: nat)
    requires Inv(x, k, steps) && Guard(x.w, k, ClearPending)
    ensures var y := Next(x, k, Reconciler(ClearPending)); PushesKept(y.h, y.w.imageBuilds[k].status.onCommit)
  {
    hide PushesKept, TriggersSpaced, TriggersRecorded, TimesInOrder, CountersAgree, ReportsOwnRun, OwnsRun,
         RemainingWait, RunName, GenerationsOrdered;
    var y, oc := Next(x, k, Reconciler(ClearPending)), x.w.imageBuilds[k].status.onCommit;
    PendingWasReceived(x.h, oc);
    TriggeredBefore(x.h, oc, k.name);
    DropKeepsPushes(x.h, oc, k.name, y.h, y.w.imageBuilds[k].status.onCommit);
  }

  lemma StepKeepsPushes(x: System, k: Key, e: Event, steps: nat)
    requires Inv(x, k, steps) && Enabled(x, k, e)
    ensures var y := Next(x, k, e); PushesKept(y.h, y.w.imageBuilds[k].status.onCommit)
  {
    hide PushesKept, TriggersSpaced, TriggersRecorded, TimesInOrder, CountersAgree, ReportsOwnRun, OwnsRun,
         RemainingWait, RunName, GenerationsOrdered, IsSpecDrifted, GetActiveBuildRun, Recorded;
    var y, oc := Next(x, k, e), x.w.imageBuilds[k].status.onCommit;
    var oc' := y.w.imageBuilds[k].status.onCommit;
    match e
    case Push(ref, sha) =>
      PushKeepsPushes(x.h, oc, Delivery(PushRecord(ref, sha, Stamp(x.w.clock)), x.w.clock), y.h, oc');
    case Environment(_) =>
      PushesFrame(x.h, oc, y.h);
    case Reconciler(w) =>
      if w.MarkTriggered? {
        MarkKeepsPushes(x, k, w, steps);
      } else if w.ClearPending? {
        ClearKeepsPushes(x, k, steps);
      } else {
        OtherWritesKeepPushes(x, k, w);
        PushesFrame(x.h, oc, y.h);
      }
  }

  lemma PendingWasReceived(h: History, oc: Option<OnCommitStatus>)
    requires PushesKept(h, oc) && Pending(oc).Some?
    ensures |h.received| > 0 && Pending(oc) == Some(h.received[|h.received| - 1].record)
  {
  }

  lemma TriggeredBefore(h: History, oc: Option<OnCommitStatus>, name: string)
    requires TriggersRecorded(h, oc, name) && LastTriggered(oc).Some?
    ensures |h.triggers| > 0
  {
  }

  // ---- triggers ------------------------------------------------------------

  lemma StepKeepsRecord(x: System, k: Key, e: Event, steps: nat)
    requires Inv(x, k, steps) && steps < MAX_INT64 && Enabled(x, k, e)
    ensures var y := Next(x, k, e); TriggersRecorded(y.h, y.w.imageBuilds[k].status.onCommit, k.name)
  {
    hide PushesKept, TriggersSpaced, TimesInOrder, CountersAgree, ReportsOwnRun, RunName, RemainingWait, IsSpecDrifted,
         GetActiveBuildRun, OwnsRun, GenerationsOrdered;
    match e
    case Push(_, _) =>
    case Environment(_) =>
    case Reconciler(w) =>
      if w.MarkTriggered? || w.ClearPending? {
        PendingWasReceived(x.h, x.w.imageBuilds[k].status.onCommit);
      } else {
        OtherWritesKeepPushes(x, k, w);
      }
  }

  lemma StepKeepsTimes(x: System, k: Key, e: Event, steps: nat)
    requires Inv(x, k, steps) && Enabled(x, k, e)
    ensures var y := Next(x, k, e); TimesInOrder(y.h, y.w.clock)
  {
    hide PushesKept, TriggersSpaced, CountersAgree, ReportsOwnRun, TriggersRecorded, Guard, Written;
  }

  lemma StampIsLatestSecond(base: int, t: int)
    requires Stamp(base) + MIN_INTERVAL <= t
    ensures Stamp(t) - Stamp(base) >= MIN_INTERVAL
    ensures t - base > MIN_INTERVAL - SECOND
  {
  }

  lemma TriggerIsSpaced(h: History, oc: Option<OnCommitStatus>, name: string, ib: ImageBuild, now: int)
    requires TriggersRecorded(h, oc, name) && TimesInOrder(h, now)
    requires ib.status.onCommit == oc && HasPending(ib)
    requires RemainingWait(ib, now) == None && !IsDuplicateCommit(ib)
    ensures var m := |h.triggers|;
            m > 0 ==> Spaced(h.triggers[m - 1], Trigger(0, Pending(oc).value.commitSHA, now))
  {
    var m := |h.triggers|;
    if m > 0 {
      StampIsLatestSecond(h.triggers[m - 1].at, now);
    }
  }

  lemma CreationIsDebounced(h: History, oc: Option<OnCommitStatus>, ib: ImageBuild, now: int, c: Creation)
    requires PushesKept(h, oc) && TimesInOrder(h, now)
    requires ib.status.onCommit == oc && HasPending(ib)
    requires RemainingWait(ib, now) == None
    requires c.at == now && c.deliveries == |h.received|
    ensures Debounced(h, c)
  {
    PendingWasReceived(h, oc);
    var d := h.received[|h.received| - 1];
    assert d.record.receivedAt == Stamp(d.at);
  }

  /** The names an ImageBuild would give its next run of either family differ. */
  lemma NextNamesDiffer(ib: ImageBuild)
    ensures NextName(ib, OnCommit) != NextName(ib, SpecChange)
  {
    if NextName(ib, OnCommit) == NextName(ib, SpecChange) {
      RunNameInjective(ib.key.name, OnCommit, NextCounter(Counter(ib, OnCommit)),
                       ib.key.name, SpecChange, NextCounter(Counter(ib, SpecChange)));
    }
  }

  lemma DebouncedFrame(h: History, h': History)
    requires forall c :: c in h.created ==> Debounced(h, c)
    requires h.received <= h'.received
    ensures forall c :: c in h.created ==> Debounced(h', c)
  {
    forall c | c in h.created
      ensures Debounced(h', c)
    {
      assert Debounced(h, c);
    }
  }

  lemma CreateKeepsSpacing(x: System, k: Key, r: BuildRun, steps: nat)
    requires Inv(x, k, steps) && Guard(x.w, k, CreateRun(r))
    ensures TriggersSpaced(Recorded(x, k, CreateRun(r)))
  {
    hide PushesKept, TimesInOrder, CountersAgree, ReportsOwnRun, TriggersRecorded, RemainingWait, Debounced, Apply,
         RunName;
    var h, ib := Recorded(x, k, CreateRun(r)), x.w.imageBuilds[k];
    DebouncedFrame(x.h, h);
    NextNamesDiffer(ib);
    var c := h.created[|x.h.created|];
    assert Debounced(h, c) by {
      if c.family == OnCommit {
        CreationIsDebounced(x.h, ib.status.onCommit, ib, x.w.clock, c);
        DebouncedSame(x.h, h, c);
      } else {
        NotOnCommit(h, c);
      }
    }
  }

  lemma MarkKeepsSpacing(x: System, k: Key, w: Write, steps: nat)
    requires Inv(x, k, steps) && w.MarkTriggered? && Guard(x.w, k, w)
    ensures TriggersSpaced(Recorded(x, k, w))
  {
    hide PushesKept, TimesInOrder, CountersAgree, ReportsOwnRun, TriggersRecorded, RemainingWait, Debounced, Apply,
         RunName;
    var h, ib := Recorded(x, k, w), x.w.imageBuilds[k];
    DebouncedFrame(x.h, h);
    PendingWasReceived(x.h, ib.status.onCommit);
    TriggerIsSpaced(x.h, ib.status.onCommit, k.name, ib, x.w.clock);
  }

  lemma StepKeepsSpacing(x: System, k: Key, e: Event, steps: nat)
    requires Inv(x, k, steps) && Enabled(x, k, e)
    ensures TriggersSpaced(Next(x, k, e).h)
  {
    hide PushesKept, TimesInOrder, CountersAgree, ReportsOwnRun, TriggersRecorded, RemainingWait, Debounced, Guard,
         Apply, EnvStep;
    if e.Reconciler? && e.write.CreateRun? {
      CreateKeepsSpacing(x, k, e.write.run, steps);
    } else if e.Reconciler? && e.write.MarkTriggered? {
      MarkKeepsSpacing(x, k, e.write, steps);
    } else {
      DebouncedFrame(x.h, Next(x, k, e).h);
    }
  }

  lemma DebouncedSame(h: History, h': History, c: Creation)
    requires Debounced(h, c) && h.received == h'.received
    ensures Debounced(h', c)
  {
  }

  lemma NotOnCommit(h: History, c: Creation)
    requires c.family != OnCommit
    ensures Debounced(h, c)
  {
  }

  // ---- counters ------------------------------------------------------------

  lemma IndicesAppend(h: History, c: Creation, f: Family)
    ensures Indices(h.(created := h.created + [c]), f) == Indices(h, f) + if c.family == f then {c.index} else {}
  {
    var h' := h.(created := h.created + [c]);
    assert c in h'.created;
    assert forall d :: d in h'.created <==> d in h.created || d == c;
  }

  lemma CreateKeepsCounters(x: System, k: Key, r: BuildRun, steps: nat)
    requires Inv(x, k, steps) && steps < MAX_INT64 && Guard(x.w, k, CreateRun(r))
    ensures CountersAgree(Next(x, k, Reconciler(CreateRun(r))), k)
  {
    hide PushesKept, TimesInOrder, ReportsOwnRun, TriggersRecorded, TriggersSpaced, RemainingWait, RunName, Indices,
         GenerationsOrdered;
    var y, ib := Next(x, k, Reconciler(CreateRun(r))), x.w.imageBuilds[k];
    NextNamesDiffer(ib);
    var c := y.h.created[|x.h.created|];
    assert r.name == RunName(k.name, c.family, c.index);
    IndicesAppend(x.h, c, SpecChange);
    IndicesAppend(x.h, c, OnCommit);
    forall f: Family, i: int | OwnsRun(y.w, ib, RunName(k.name, f, i))
      ensures i in Indices(y.h, f)
    {
      if RunName(k.name, f, i) == r.name {
        RunNameInjective(k.name, f, i, k.name, c.family, c.index);
        assert i in Indices(y.h, c.family);
      } else {
        assert OwnsRun(x.w, ib, RunName(k.name, f, i));
        IndicesAppend(x.h, c, f);
      }
    }
  }

  lemma CountersFrame(x: System, k: Key, y: System)
    requires k in x.w.imageBuilds && k in y.w.imageBuilds && CountersAgree(x, k)
    requires x.w.imageBuilds[k].key == k && y.w.imageBuilds[k].key == k
    requires y.w.imageBuilds[k].uid == x.w.imageBuilds[k].uid
    requires y.h.created == x.h.created
    requires CounterAgrees(y.h, SpecChange, Counter(y.w.imageBuilds[k], SpecChange))
    requires CounterAgrees(y.h, OnCommit, Counter(y.w.imageBuilds[k], OnCommit))
    requires forall r :: r in y.w.runs && IsControlledBy(y.w.runs[r].controller, x.w.imageBuilds[k]) ==>
               r in x.w.runs && x.w.runs[r].controller == y.w.runs[r].controller
    ensures CountersAgree(y, k)
  {
    var ib := x.w.imageBuilds[k];
    assert forall f :: Indices(y.h, f) == Indices(x.h, f);
    forall f: Family, i: int | OwnsRun(y.w, y.w.imageBuilds[k], RunName(k.name, f, i))
      ensures i in Indices(y.h, f)
    {
      assert OwnsRun(x.w, ib, RunName(k.name, f, i));
    }
  }

  lemma CountKeepsCounters(h: History, f: Family, counter: int)
    requires CounterAgrees(h, f, counter) && counter + 1 in Indices(h, f)
    ensures CounterAgrees(h, f, counter + 1)
  {
  }

  lemma MarkKeepsCounters(x: System, k: Key, w: Write, steps: nat)
    requires Inv(x, k, steps) && steps < MAX_INT64 && Guard(x.w, k, w)
    requires w.MarkTriggered? || w.SetCounter?
    ensures CountersAgree(Next(x, k, Reconciler(w)), k)
    ensures Counter(Next(x, k, Reconciler(w)).w.imageBuilds[k], SpecChange) <= steps + 1
    ensures Counter(Next(x, k, Reconciler(w)).w.imageBuilds[k], OnCommit) <= steps + 1
  {
    hide PushesKept, TimesInOrder, ReportsOwnRun, TriggersRecorded, TriggersSpaced, RemainingWait, RunName, Indices,
         CounterAgrees, GenerationsOrdered;
    var y, ib := Next(x, k, Reconciler(w)), x.w.imageBuilds[k];
    CountersNonNegative(x, k);
    IndicesFrame(x.h, y.h);
    var f := if w.SetCounter? then SpecChange else OnCommit;
    assert OwnsRun(x.w, ib, RunName(k.name, f, w.counter));
    CountKeepsCounters(x.h, f, Counter(ib, f));
    CountersFrame(x, k, y);
  }

  lemma OtherWritesKeepCounters(x: System, k: Key, w: Write)
    requires k in x.w.imageBuilds && !w.MarkTriggered? && !w.SetCounter? && !w.CreateRun?
    ensures var y := Apply(x.w, k, w);
            && y.runs == x.w.runs && Recorded(x, k, w).created == x.h.created
            && y.imageBuilds[k].uid == x.w.imageBuilds[k].uid && y.imageBuilds[k].key == x.w.imageBuilds[k].key
            && Counter(y.imageBuilds[k], SpecChange) == Counter(x.w.imageBuilds[k], SpecChange)
            && Counter(y.imageBuilds[k], OnCommit) == Counter(x.w.imageBuilds[k], OnCommit)
  {
  }

  lemma StepKeepsCounters(x: System, k: Key, e: Event, steps: nat)
    requires Inv(x, k, steps) && steps < MAX_INT64 && Enabled(x, k, e)
    ensures CountersAgree(Next(x, k, e), k)
    ensures Counter(Next(x, k, e).w.imageBuilds[k], SpecChange) <= steps + 1
    ensures Counter(Next(x, k, e).w.imageBuilds[k], OnCommit) <= steps + 1
  {
    hide PushesKept, TimesInOrder, ReportsOwnRun, TriggersRecorded, TriggersSpaced, RemainingWait, RunName, Indices,
         CounterAgrees, CountersAgree, GenerationsOrdered, Guard, Written;
    var y, ib := Next(x, k, e), x.w.imageBuilds[k];
    if e.Reconciler? && e.write.CreateRun? {
      CreateKeepsCounters(x, k, e.write.run, steps);
    } else if e.Reconciler? && (e.write.SetCounter? || e.write.MarkTriggered?) {
      MarkKeepsCounters(x, k, e.write, steps);
    } else {
      if e.Reconciler? {
        OtherWritesKeepCounters(x, k, e.write);
      }
      CountersAgreeParts(x, k);
      IndicesFrame(x.h, y.h);
      CountersFrame(x, k, y);
    }
  }

  lemma CountersAgreeParts(x: System, k: Key)
    requires k in x.w.imageBuilds && CountersAgree(x, k)
    ensures CounterAgrees(x.h, SpecChange, Counter(x.w.imageBuilds[k], SpecChange))
    ensures CounterAgrees(x.h, OnCommit, Counter(x.w.imageBuilds[k], OnCommit))
  {
  }

  lemma CountersNonNegative(x: System, k: Key)
    requires k in x.w.imageBuilds && CountersAgree(x, k)
    ensures Counter(x.w.imageBuilds[k], SpecChange) >= 0 && Counter(x.w.imageBuilds[k], OnCommit) >= 0
  {
  }

  lemma IndicesFrame(h: History, h': History)
    requires h'.created == h.created
    ensures forall f, n :: CounterAgrees(h, f, n) ==> CounterAgrees(h', f, n)
  {
    assert forall f :: Indices(h', f) == Indices(h, f);
  }

  // ---- generations and ownership -------------------------------------------

  lemma WriteKeepsGenerations(ib: ImageBuild, now: int, w: Write)
    requires GenerationsOrdered(ib)
    ensures GenerationsOrdered(Written(ib, now, w))
    ensures Written(ib, now, w).status.observedGeneration >= ib.status.observedGeneration
  {
  }

  /** Besides keeping the order, no step takes the observed generation back. */
  lemma StepKeepsGenerations(x: System, k: Key, e: Event)
    requires k in x.w.imageBuilds && GenerationsOrdered(x.w.imageBuilds[k]) && Enabled(x, k, e)
    ensures GenerationsOrdered(Next(x, k, e).w.imageBuilds[k])
    ensures Next(x, k, e).w.imageBuilds[k].status.observedGeneration >= x.w.imageBuilds[k].status.observedGeneration
  {
    hide Guard, Written;
    if e.Reconciler? {
      WriteKeepsGenerations(x.w.imageBuilds[k], x.w.clock, e.write);
    }
  }

  lemma WriteKeepsOwnRun(x: System, k: Key, w: Write)
    requires WellFormed(x.w, k) && ReportsOwnRun(x, k) && Guard(x.w, k, w)
    ensures ReportsOwnRun(System(Apply(x.w, k, w), Recorded(x, k, w)), k)
  {
    hide IsDue, MayCreate, RemainingWait, RunName, Verdict, IsSpecDrifted;
    var y, ib := System(Apply(x.w, k, w), Recorded(x, k, w)), x.w.imageBuilds[k];
    if !w.SetBuildSucceeded? {
      assert y.w.imageBuilds[k].status.lastBuildRunRef == ib.status.lastBuildRunRef;
    }
    assert y.w.imageBuilds[k].uid == ib.uid && y.h.foreign == x.h.foreign;
  }

  lemma StepKeepsOwnRun(x: System, k: Key, e: Event, steps: nat)
    requires Inv(x, k, steps) && Enabled(x, k, e)
    ensures ReportsOwnRun(Next(x, k, e), k)
  {
    hide PushesKept, TimesInOrder, TriggersRecorded, TriggersSpaced, CountersAgree, Guard, Written, Recorded;
    if e.Reconciler? {
      WriteKeepsOwnRun(x, k, e.write);
    }
  }

  lemma StepKeepsWellFormed(x: System, k: Key, e: Event)
    requires WellFormed(x.w, k) && Enabled(x, k, e)
    ensures WellFormed(Next(x, k, e).w, k)
  {
    hide Guard, Apply;
    if e.Reconciler? {
      WriteKeepsWellFormed(x.w, k, e.write);
    }
  }

  lemma StepKeepsInv(x: System, k: Key, e: Event, steps: nat)
    requires Inv(x, k, steps) && steps < MAX_INT64 && Enabled(x, k, e)
    ensures Inv(Next(x, k, e), k, steps + 1)
  {
    hide PushesKept, TimesInOrder, TriggersRecorded, TriggersSpaced, CountersAgree, GenerationsOrdered, ReportsOwnRun,
         Next, Counter;
    StepKeepsWellFormed(x, k, e);
    StepKeepsPushes(x, k, e, steps);
    StepKeepsRecord(x, k, e, steps);
    StepKeepsTimes(x, k, e, steps);
    StepKeepsSpacing(x, k, e, steps);
    StepKeepsCounters(x, k, e, steps);
    StepKeepsGenerations(x, k, e);
    StepKeepsOwnRun(x, k, e, steps);
  }

  lemma {:induction false} RunKeepsInv(x: System, k: Key, es: seq<Event>, steps: nat)
    requires Inv(x, k, steps) && Legal(x, k, es) && steps + |es| <= MAX_INT64
    ensures Inv(After(x, k, es), k, steps + |es|)
    decreases |es|
  {
    if es != [] {
      StepKeepsInv(x, k, es[0], steps);
      RunKeepsInv(Next(x, k, es[0]), k, es[1..], steps + 1);
    }
  }
}
