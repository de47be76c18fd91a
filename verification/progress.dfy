/** Progress of a pending push, when passes complete and are repeated as they ask to be: the push
    is triggered or dropped after at most two waits and as many polls as the active run takes. */
module Progress {
  import opened ImageBuilds
  import opened Names
  import opened Cluster
  import opened ReconcileSpec
  import opened Guards
  import opened Protocol
  import opened Safety
  import opened CompletePasses
  import Convergence

  /** On-commit rebuilds are on, and the setup stands. */
  ghost predicate Admissible(s: World, k: Key)
    requires k in s.imageBuilds
  {
    OnCommitMode(s.imageBuilds[k].spec) && Convergence.SetupStands(s, k)
  }

  /** No BuildRun has the name of the ImageBuild's next on-commit run. */
  predicate NameIsFree(s: World, k: Key)
    requires k in s.imageBuilds
  {
    RunKey(k, NextName(s.imageBuilds[k], OnCommit)) !in s.runs
  }

  /** The pass waits for the active run. */
  predicate IsPolling(s: World, k: Key)
    requires k in s.imageBuilds
  {
    var ib := s.imageBuilds[k];
    IsDue(s, ib) && !IsDuplicateCommit(ib) && GetActiveBuildRun(s, ib).Some?
  }

  /** The pass changes nothing that matters to the pending push. */
  ghost predicate LeavesPush(s: World, k: Key, t: World)
    requires k in s.imageBuilds && k in t.imageBuilds
  {
    var a, b := s.imageBuilds[k], t.imageBuilds[k];
    && b.key == a.key && b.uid == a.uid
    && b.status.onCommit == a.status.onCommit && b.status.lastBuildRunRef == a.status.lastBuildRunRef
    && t.runs == s.runs && t.clock == s.clock
  }

  lemma StatusOutcome(s: World, k: Key, run: Option<BuildRun>)
    requires k in s.imageBuilds && run.Some?
    ensures ReconcileStatus(s, k, run).ret == Ok(Verdict(run.value).0 == Unknown)
  {
    hide ReportRun, ReportReady, ReportImage, Verdict;
    Convergence.StatusFacts(s, k, run);
  }

  lemma PollingOutcome(s: World, k: Key)
    requires WellFormed(s, k) && IsPolling(s, k)
    ensures LeavesPush(s, k, ReconcileRuns(s, k).st) && ReconcileRuns(s, k).ret == Outcome(POLL_INTERVAL, false)
  {
    hide ReconcileStatus, RemainingWait, IsReadyCurrent;
    var run := GetActiveBuildRun(s, s.imageBuilds[k]);
    Convergence.StatusFacts(s, k, run);
    StatusOutcome(s, k, run);
    assert ReconcileBuildRun(s, k) == Plan([], s, Ok(Use(run)));
  }

  lemma FallBackKeepsOnCommit(s: World, k: Key)
    requires WellFormed(s, k)
    ensures FallBack(s, k).st.imageBuilds[k].status.onCommit == s.imageBuilds[k].status.onCommit
  {
    hide ReconcileDefaultBuildRun;
    Convergence.DefaultFacts(s, k);
  }

  lemma DuplicateOutcome(s: World, k: Key)
    requires WellFormed(s, k) && IsDue(s, s.imageBuilds[k]) && IsDuplicateCommit(s.imageBuilds[k])
    ensures !HasPending(ReconcileRuns(s, k).st.imageBuilds[k])
  {
    hide ReconcileStatus, RemainingWait, FallBack, IsReadyCurrent;
    var m := Apply(s, k, ClearPending);
    WriteKeepsWellFormed(s, k, ClearPending);
    FallBackKeepsOnCommit(m, k);
    assert ReconcileRuns(s, k).st == ReconcileRuns(m, k).st;
    var f := FallBack(m, k);
    if f.ret.Ok? {
      Convergence.StatusFacts(f.st, k, f.ret.value.run);
    }
  }

  lemma RunsOutcome(s: World, k: Key)
    requires WellFormed(s, k) && OnCommitMode(s.imageBuilds[k].spec) && HasPending(s.imageBuilds[k]) && NameIsFree(s, k)
    ensures var ib := s.imageBuilds[k];
            var t, r := ReconcileRuns(s, k).st, ReconcileRuns(s, k).ret;
            if !IsDue(s, ib) then LeavesPush(s, k, t) && r == Outcome(RemainingWait(ib, s.clock).value, false)
            else if IsPolling(s, k) then LeavesPush(s, k, t) && r == Outcome(POLL_INTERVAL, false)
            else !HasPending(t.imageBuilds[k])
  {
    hide ReconcileStatus, FallBack, RunName, RemainingWait;
    var ib := s.imageBuilds[k];
    if IsDue(s, ib) {
      hide ReconcileRuns;
      if IsDuplicateCommit(ib) {
        DuplicateOutcome(s, k);
      } else if IsPolling(s, k) {
        PollingOutcome(s, k);
      } else {
        Convergence.TriggerConsumes(s, k);
      }
    }
  }

  lemma SameOutcome(s: World, k: Key, mid: World)
    requires WellFormed(s, k) && WellFormed(mid, k) && Convergence.SameRuns(s, k, mid)
    requires HasPending(s.imageBuilds[k])
    ensures IsDue(mid, mid.imageBuilds[k]) == IsDue(s, s.imageBuilds[k]) && IsPolling(mid, k) == IsPolling(s, k)
    ensures RemainingWait(mid.imageBuilds[k], mid.clock) == RemainingWait(s.imageBuilds[k], s.clock)
    ensures NameIsFree(mid, k) == NameIsFree(s, k)
  {
    hide RunName;
  }

  /** A pass over a pending push: it waits for the windows, and says for how long; or it waits for
      the active run, and will poll; or it consumes the push. */
  lemma PassOutcome(s: World, k: Key)
    requires WellFormed(s, k) && Admissible(s, k) && HasPending(s.imageBuilds[k]) && NameIsFree(s, k)
    ensures var ib := s.imageBuilds[k];
            var t, r := Reconcile(s, k).st, Reconcile(s, k).ret;
            if !IsDue(s, ib) then LeavesPush(s, k, t) && r == Outcome(RemainingWait(ib, s.clock).value, false)
            else if IsPolling(s, k) then LeavesPush(s, k, t) && r == Outcome(POLL_INTERVAL, false)
            else !HasPending(t.imageBuilds[k])
  {
    hide Reconcile, ReconcileRuns, IsDue, IsPolling, RemainingWait, NameIsFree;
    var mid := Convergence.SetUpWorld(s, k);
    Convergence.SetupSucceeds(s, k);
    SameOutcome(s, k, mid);
    RunsOutcome(mid, k);
  }

  // ---- repeated passes -----------------------------------------------------

  /** Until the next pass: anything but pushes, edits that get in the way, and somebody else taking
      the next on-commit name; the requested delay passes. */
  ghost predicate Between(t: World, k: Key, delay: int, u: World)
    requires k in t.imageBuilds
  {
    && EnvStep(t, k, u) && Admissible(u, k)
    && u.clock >= t.clock + delay
    && (NameIsFree(t, k) ==> NameIsFree(u, k))
  }

  /** The worlds in which consecutive passes start. */
  ghost predicate Driven(ws: seq<World>, k: Key) {
    && (forall i :: 0 <= i < |ws| ==> WellFormed(ws[i], k) && Admissible(ws[i], k))
    && (forall i, j :: 0 <= i && j == i + 1 && j < |ws| ==>
          Between(Reconcile(ws[i], k).st, k, Reconcile(ws[i], k).ret.requeueAfter, ws[j]))
  }

  /** How many of the passes find the windows not over, and how many a run still active. */
  function Waits(ws: seq<World>, k: Key): nat
    requires forall i :: 0 <= i < |ws| ==> k in ws[i].imageBuilds
  {
    if ws == [] then 0
    else (if IsDue(ws[0], ws[0].imageBuilds[k]) then 0 else 1) + Waits(ws[1..], k)
  }

  function Polls(ws: seq<World>, k: Key): nat
    requires forall i :: 0 <= i < |ws| ==> k in ws[i].imageBuilds
  {
    if ws == [] then 0 else (if IsPolling(ws[0], k) then 1 else 0) + Polls(ws[1..], k)
  }

  /** How many of the two windows are not over. */
  function WindowsLeft(ib: ImageBuild, now: int): nat
    requires HasPending(ib)
  {
    var oc := ib.status.onCommit.value;
    var received := oc.pending.value.receivedAt;
    (if received != 0 && received + DEBOUNCE > now then 1 else 0) +
    (if oc.lastTriggered.Some? && oc.lastTriggered.value.triggeredAt != 0
        && oc.lastTriggered.value.triggeredAt + MIN_INTERVAL > now then 1 else 0)
  }

  lemma WaitIsWorthIt(ib: ImageBuild, now: int, ib': ImageBuild, now': int)
    requires HasPending(ib) && ib'.status.onCommit == ib.status.onCommit
    ensures RemainingWait(ib, now).Some? <==> WindowsLeft(ib, now) > 0
    ensures now' >= now ==> WindowsLeft(ib', now') <= WindowsLeft(ib, now)
    ensures RemainingWait(ib, now).Some? && now' >= now + RemainingWait(ib, now).value ==>
              WindowsLeft(ib', now') < WindowsLeft(ib, now)
  {
  }

  lemma DueOrWaiting(s: World, k: Key)
    requires k in s.imageBuilds && Admissible(s, k) && HasPending(s.imageBuilds[k])
    ensures IsDue(s, s.imageBuilds[k]) <==> RemainingWait(s.imageBuilds[k], s.clock) == None
    ensures IsPolling(s, k) ==> IsDue(s, s.imageBuilds[k])
  {
    hide RemainingWait;
  }

  /** One pass that leaves the push pending, and the world the next pass starts in. */
  lemma OneMorePass(s: World, k: Key, u: World)
    requires WellFormed(s, k) && Admissible(s, k) && HasPending(s.imageBuilds[k]) && NameIsFree(s, k)
    requires HasPending(Reconcile(s, k).st.imageBuilds[k])
    requires Between(Reconcile(s, k).st, k, Reconcile(s, k).ret.requeueAfter, u)
    ensures var a, b := s.imageBuilds[k], u.imageBuilds[k];
            && HasPending(b) && NameIsFree(u, k) && b.status.lastBuildRunRef == a.status.lastBuildRunRef
            && WindowsLeft(b, u.clock) <= WindowsLeft(a, s.clock) - (if IsDue(s, a) then 0 else 1)
            && (IsDue(s, a) ==> IsPolling(s, k))
            && Reconcile(s, k).ret.requeueAfter > 0 && !Reconcile(s, k).ret.failed
  {
    hide Reconcile, IsPolling, RemainingWait, WindowsLeft, Admissible, RunName, IsDue;
    PassOutcome(s, k);
    DueOrWaiting(s, k);
    WaitIsWorthIt(s.imageBuilds[k], s.clock, u.imageBuilds[k], u.clock);
  }

  /** While passes leave a push pending: each waits for a window or polls an active run, at most two
      wait, those that poll all poll the same run, and every pass asks to be repeated. */
  lemma {:induction false} PendingPassesAreFew(ws: seq<World>, k: Key)
    requires |ws| > 0 && Driven(ws, k)
    requires HasPending(ws[0].imageBuilds[k]) && NameIsFree(ws[0], k)
    requires forall i :: 0 <= i < |ws| ==> HasPending(Reconcile(ws[i], k).st.imageBuilds[k])
    ensures |ws| == Waits(ws, k) + Polls(ws, k)
    ensures Waits(ws, k) <= WindowsLeft(ws[0].imageBuilds[k], ws[0].clock) <= 2
    ensures forall i :: 0 <= i < |ws| ==>
              && ws[i].imageBuilds[k].status.lastBuildRunRef == ws[0].imageBuilds[k].status.lastBuildRunRef
              && Reconcile(ws[i], k).ret.requeueAfter > 0 && !Reconcile(ws[i], k).ret.failed
    decreases |ws|
  {
    hide Reconcile, IsPolling, RemainingWait, Admissible, RunName, NameIsFree, Between, IsDue;
    PassOutcome(ws[0], k);
    DueOrWaiting(ws[0], k);
    WaitIsWorthIt(ws[0].imageBuilds[k], ws[0].clock, ws[0].imageBuilds[k], ws[0].clock);
    if |ws| == 1 {
      assert ws[1..] == [];
    } else {
      OneMorePass(ws[0], k, ws[1]);
      var rest := ws[1..];
      assert forall i :: 0 <= i < |rest| ==> rest[i] == ws[i + 1];
      PendingPassesAreFew(rest, k);
      assert forall i :: 0 < i < |ws| ==> ws[i] == rest[i - 1];
    }
  }

  /** Progress is bounded.  After any run of complete passes that leaves a push pending, with no
      further push, let passes go on as each asks, while the setup stands and nobody else holds the
      next on-commit name.  If the passes find a run of the ImageBuild still active at most so many
      times, the push is triggered or dropped within two passes more than that and the one that
      does it. */
  lemma PushIsConsumed(x: System, k: Key, acts: seq<Action>, ws: seq<World>, polls: nat)
    requires IsRun(x, k, acts) && MAX_WRITES * |acts| < MAX_INT64 && forall a :: a in acts ==> IsComplete(a)
    requires |ws| == 3 + polls && ws[0] == Play(x, k, acts).w && Driven(ws, k) && Polls(ws, k) <= polls
    requires HasPending(ws[0].imageBuilds[k])
    requires NameIsFree(ws[0], k) || OwnsRun(ws[0], ws[0].imageBuilds[k], NextName(ws[0].imageBuilds[k], OnCommit))
    ensures exists i :: 0 <= i < |ws| && !HasPending(Reconcile(ws[i], k).st.imageBuilds[k])
  {
    hide Inv, LegalRun, Play, Reconcile, RunName, IsPolling, IsDue, Between, Admissible, WindowsLeft;
    NextIsFreeAfter(x, k, acts, OnCommit);
    if forall i :: 0 <= i < |ws| ==> HasPending(Reconcile(ws[i], k).st.imageBuilds[k]) {
      PendingPassesAreFew(ws, k);
    }
  }
}
