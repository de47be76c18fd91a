/** The two writers interleaved at the granularity of reads and patches.  Each computes its patch
    from the status it read, and the API server merges it into the status as it is by then; no
    patch carries a resource version, so none is refused. */
module Interleaving {
  import opened ImageBuilds
  import opened MergePatch
  import opened Names
  import opened Cluster
  import opened Guards
  import opened Protocol
  import opened ReconcileSpec

  /** The patch of a webhook delivery that read status h. */
  function PushPatch(h: Status, e: PushRecord): StatusPatch {
    Diff(h, Pushed(h, e))
  }

  /** The patch of a status write of the reconciler whose copy is r. */
  function WritePatch(r: ImageBuild, now: int, w: Write): StatusPatch {
    Diff(r.status, Written(r, now, w).status)
  }

  predicate TouchesOnCommit(w: Write) {
    w.ClearPending? || w.MarkTriggered?
  }

  // ---- commutation ---------------------------------------------------------

  lemma OtherWritesKeepOnCommit(r: ImageBuild, now: int, w: Write)
    requires !TouchesOnCommit(w)
    ensures WritePatch(r, now, w).onCommit == KeepObject
  {
  }

  lemma PushKeepsRest(h: Status, e: PushRecord)
    ensures var p := PushPatch(h, e);
            p == StatusPatch(Keep, Keep, Keep, Keep, Keep, Keep, p.onCommit)
  {
  }

  /** A delivery commutes with every status patch of the reconciler but the two that consume the
      pending push: whatever either had read, and whatever the status is by then, both orders end
      the same, with the on-commit status as the delivery alone leaves it and all else as the
      reconciler's patch alone leaves it. */
  lemma PatchesCommute(t: Status, h: Status, e: PushRecord, r: ImageBuild, now: int, w: Write)
    requires !TouchesOnCommit(w)
    ensures var p, q := PushPatch(h, e), WritePatch(r, now, w);
            && Merge(Merge(t, p), q) == Merge(Merge(t, q), p)
            && Merge(Merge(t, p), q) == Merge(t, q).(onCommit := Merge(t, p).onCommit)
  {
    hide Written;
    OtherWritesKeepOnCommit(r, now, w);
    PushKeepsRest(h, e);
  }

  predicate SameButPending(a: Status, b: Status) {
    && b == a.(onCommit := b.onCommit)
    && (a.onCommit.Some? <==> b.onCommit.Some?)
    && (a.onCommit.Some? ==> b.onCommit.value == a.onCommit.value.(pending := b.onCommit.value.pending))
  }

  lemma PushMembers(h: Status, e: PushRecord)
    ensures var c := PushPatch(h, e).onCommit;
            !c.Remove? && (c.Members? ==> c.members.lastTriggered == KeepObject && c.members.triggerCounter == Keep)
  {
    hide DiffPush;
  }

  lemma ConsumingMembers(r: ImageBuild, now: int, w: Write)
    requires TouchesOnCommit(w)
    ensures var q := WritePatch(r, now, w);
            && q == StatusPatch(Keep, Keep, Keep, Keep, Keep, Keep, q.onCommit)
            && !q.onCommit.Remove? && (q.onCommit.Members? ==> q.onCommit.members.lastReceived == KeepObject)
  {
  }

  lemma MembersCommute(t: Option<OnCommitStatus>, p: ObjectChange<OnCommitMembers>, q: ObjectChange<OnCommitMembers>)
    requires !p.Remove? && !q.Remove?
    requires p.Members? ==> p.members.lastTriggered == KeepObject && p.members.triggerCounter == Keep
    requires q.Members? ==> q.members.lastReceived == KeepObject
    ensures var a, b := MergeOnCommit(MergeOnCommit(t, p), q), MergeOnCommit(MergeOnCommit(t, q), p);
            && (a.Some? <==> b.Some?)
            && (a.Some? ==> b.value == a.value.(pending := b.value.pending))
  {
    hide MergePush, MergeTrigger;
    assert forall x :: MergePush(x, KeepObject) == x by {
      forall x ensures MergePush(x, KeepObject) == x { KeepPush(x); }
    }
    assert forall x :: MergeTrigger(x, KeepObject) == x by {
      forall x ensures MergeTrigger(x, KeepObject) == x { KeepTrigger(x); }
    }
  }

  lemma KeepPush(x: Option<PushRecord>)
    ensures MergePush(x, KeepObject) == x
  {
  }

  lemma KeepTrigger(x: Option<TriggerRecord>)
    ensures MergeTrigger(x, KeepObject) == x
  {
  }

  /** Against the patches that consume the pending push, every field but that push ends the same in
      either order. */
  lemma ConsumingCommutesButPending(t: Status, h: Status, e: PushRecord, r: ImageBuild, now: int, w: Write)
    requires TouchesOnCommit(w)
    ensures var p, q := PushPatch(h, e), WritePatch(r, now, w);
            SameButPending(Merge(Merge(t, p), q), Merge(Merge(t, q), p))
  {
    hide Diff, Pushed, Written, MergeOnCommit;
    PushKeepsRest(h, e);
    PushMembers(h, e);
    ConsumingMembers(r, now, w);
    MembersCommute(t.onCommit, PushPatch(h, e).onCommit, WritePatch(r, now, w).onCommit);
  }

  // ---- the window ----------------------------------------------------------

  datatype Step = ReconcilerReads | ReconcilerPatches | WebhookReads | WebhookPatches

  /** The stored status, and the copies the two writers work on. */
  datatype Shared = Shared(status: Status, reconciler: Status, webhook: Status)

  /** How the reconciler consumes the pending push of its copy, once it is due: it drops a duplicate
      of the commit last triggered, and triggers any other. */
  function ConsumingWrite(mem: ImageBuild): Write
    requires HasPending(mem)
  {
    if IsDuplicateCommit(mem) then ClearPending
    else MarkTriggered(NextCounter(Counter(mem, OnCommit)), NextName(mem, OnCommit),
                       mem.status.onCommit.value.pending.value.commitSHA)
  }

  function ConsumingPatch(ib: ImageBuild, r: Status, now: int): StatusPatch
    requires r.onCommit.Some? && r.onCommit.value.pending.Some?
  {
    var mem := ib.(status := r);
    WritePatch(mem, now, ConsumingWrite(mem))
  }

  function Take(x: Shared, ib: ImageBuild, now: int, e: PushRecord, step: Step): Shared {
    match step
    case ReconcilerReads => x.(reconciler := x.status)
    case WebhookReads => x.(webhook := x.status)
    case WebhookPatches => x.(status := Merge(x.status, PushPatch(x.webhook, e)))
    case ReconcilerPatches =>
      if Pending(x.reconciler.onCommit).None? then x
      else x.(status := Merge(x.status, ConsumingPatch(ib, x.reconciler, now)))
  }

  function TakeAll(x: Shared, ib: ImageBuild, now: int, e: PushRecord, steps: seq<Step>): Shared
    decreases |steps|
  {
    if steps == [] then x else TakeAll(Take(x, ib, now, e, steps[0]), ib, now, e, steps[1..])
  }

  function Position(steps: seq<Step>, step: Step): nat {
    if steps == [] || steps[0] == step then 0 else 1 + Position(steps[1..], step)
  }

  /** Whether one step comes before another. */
  predicate Before(steps: seq<Step>, a: Step, b: Step) {
    Position(steps, a) < Position(steps, b)
  }

  /** Each writer reads and then patches, once: the six ways in which they may interleave. */
  predicate IsInterleaving(steps: seq<Step>) {
    || steps == [ReconcilerReads, ReconcilerPatches, WebhookReads, WebhookPatches]
    || steps == [ReconcilerReads, WebhookReads, ReconcilerPatches, WebhookPatches]
    || steps == [ReconcilerReads, WebhookReads, WebhookPatches, ReconcilerPatches]
    || steps == [WebhookReads, ReconcilerReads, ReconcilerPatches, WebhookPatches]
    || steps == [WebhookReads, ReconcilerReads, WebhookPatches, ReconcilerPatches]
    || steps == [WebhookReads, WebhookPatches, ReconcilerReads, ReconcilerPatches]
  }

  /** A push that was merged into nothing, by a writer who had read the push p: the members it
      shares with p are missing. */
  function Torn(p: PushRecord, e: PushRecord): PushRecord {
    PushRecord(if e.ref == p.ref then "" else e.ref,
               if e.commitSHA == p.commitSHA then "" else e.commitSHA,
               if e.receivedAt == p.receivedAt then 0 else e.receivedAt)
  }

  lemma Positions(a: Step, b: Step, c: Step, d: Step)
    requires a != b && a != c && a != d && b != c && b != d && c != d
    ensures var steps := [a, b, c, d];
            Position(steps, a) == 0 && Position(steps, b) == 1 && Position(steps, c) == 2 && Position(steps, d) == 3
  {
    assert [a, b, c, d][1..] == [b, c, d] && [b, c, d][1..] == [c, d] && [c, d][1..] == [d];
    assert Position([c, d], c) == 0 && Position([c, d], d) == 1;
    assert Position([b, c, d], c) == 1 && Position([b, c, d], d) == 2;
  }

  lemma TakeFour(x: Shared, ib: ImageBuild, now: int, e: PushRecord, a: Step, b: Step, c: Step, d: Step)
    ensures TakeAll(x, ib, now, e, [a, b, c, d])
         == Take(Take(Take(Take(x, ib, now, e, a), ib, now, e, b), ib, now, e, c), ib, now, e, d)
  {
    hide Take;
    assert [a, b, c, d][1..] == [b, c, d] && [b, c, d][1..] == [c, d] && [c, d][1..] == [d] && [d][1..] == [];
    var y := Take(x, ib, now, e, a);
    var z := Take(y, ib, now, e, b);
    var w := Take(z, ib, now, e, c);
    assert TakeAll(w, ib, now, e, [d]) == TakeAll(Take(w, ib, now, e, d), ib, now, e, []);
    assert TakeAll(z, ib, now, e, [c, d]) == TakeAll(w, ib, now, e, [d]);
    assert TakeAll(y, ib, now, e, [b, c, d]) == TakeAll(z, ib, now, e, [c, d]);
  }

  function Start(s: Status): Shared {
    Shared(s, s, s)
  }

  /** The pushes and the trigger on record. */
  datatype Record = Record(received: Option<PushRecord>, pending: Option<PushRecord>, triggered: Option<TriggerRecord>)

  function RecordOf(s: Status): Record {
    Record(LastReceived(s.onCommit), Pending(s.onCommit), LastTriggered(s.onCommit))
  }

  lemma DeliveryEffect(t: Status, h: Status, e: PushRecord)
    requires t.onCommit.Some? && h.onCommit.Some?
    ensures var a, s := RecordOf(t), Merge(t, PushPatch(h, e));
            && s.onCommit.Some?
            && RecordOf(s) == Record(MergePush(a.received, DiffPush(RecordOf(h).received, Some(e))),
                                     MergePush(a.pending, DiffPush(RecordOf(h).pending, Some(e))),
                                     a.triggered)
  {
  }

  lemma ConsumingEffect(t: Status, ib: ImageBuild, r: Status, now: int)
    requires t.onCommit.Some? && r.onCommit.Some? && r.onCommit.value.pending.Some?
    requires RecordOf(t).triggered == RecordOf(r).triggered
    ensures var a, s := RecordOf(t), Merge(t, ConsumingPatch(ib, r, now));
            && s.onCommit.Some?
            && RecordOf(s).received == a.received && RecordOf(s).pending == None
            && RecordOf(s).triggered.Some?
            && RecordOf(s).triggered.value.commitSHA == r.onCommit.value.pending.value.commitSHA
  {
    hide FormatInt;
  }

  lemma PushMerges(t: Option<PushRecord>, e: PushRecord)
    ensures MergePush(t, DiffPush(t, Some(e))) == Some(e)
  {
  }

  lemma PushTears(p: PushRecord, e: PushRecord)
    requires p != e
    ensures MergePush(None, DiffPush(Some(p), Some(e))) == Some(Torn(p, e))
  {
  }

  /** The status after the two writers, of which the reconciler finds the pending push p due and the
      webhook delivers e: the record of e is last received in any case, but it stays pending as it
      is only if it was read after p had been consumed. */
  lemma InterleavingEffect(ib: ImageBuild, now: int, e: PushRecord, steps: seq<Step>)
    requires HasPending(ib) && IsInterleaving(steps)
    ensures var p := Pending(ib.status.onCommit).value;
            var f := RecordOf(TakeAll(Start(ib.status), ib, now, e, steps).status);
            && f.received == Some(e)
            && f.pending == (if Before(steps, ReconcilerPatches, WebhookReads) then Some(e)
                             else if Before(steps, ReconcilerPatches, WebhookPatches) && p != e then Some(Torn(p, e))
                             else None)
            && f.triggered.Some?
            && f.triggered.value.commitSHA ==
                 (if Before(steps, WebhookPatches, ReconcilerReads) then e.commitSHA else p.commitSHA)
  {
    hide Merge, PushPatch, ConsumingPatch, MergePush, DiffPush, TakeAll, Position;
    var s := ib.status;
    var p := Pending(s.onCommit).value;
    var t, d := Merge(s, ConsumingPatch(ib, s, now)), Merge(s, PushPatch(s, e));
    TakeFour(Start(s), ib, now, e, steps[0], steps[1], steps[2], steps[3]);
    Positions(steps[0], steps[1], steps[2], steps[3]);
    assert steps == [steps[0], steps[1], steps[2], steps[3]];
    PushMerges(LastReceived(s.onCommit), e);
    PushMerges(Pending(s.onCommit), e);
    PushMerges(None, e);
    NothingMerges();
    ConsumingEffect(s, ib, s, now);
    DeliveryEffect(s, s, e);
    DeliveryEffect(t, t, e);
    DeliveryEffect(t, s, e);
    ConsumingEffect(d, ib, s, now);
    ConsumingEffect(d, ib, d, now);
    if p != e {
      PushTears(p, e);
    }
  }

  lemma NothingMerges()
    ensures forall p: PushRecord :: MergePush(None, DiffPush(Some(p), Some(p))) == None
  {
  }

  /** The commit of a push is on record as pending or as last triggered. */
  predicate IsKept(f: Record, e: PushRecord) {
    || (f.pending.Some? && f.pending.value.commitSHA == e.commitSHA)
    || (f.triggered.Some? && f.triggered.value.commitSHA == e.commitSHA)
  }

  /** The window in which a push is lost, exactly: it is for another commit than the pending push,
      and it is recorded after the reconciler has read the status and before the reconciler's
      patch. */
  lemma LossWindowIsExact(ib: ImageBuild, now: int, e: PushRecord, steps: seq<Step>)
    requires HasPending(ib) && IsInterleaving(steps)
    ensures var f := RecordOf(TakeAll(Start(ib.status), ib, now, e, steps).status);
            IsKept(f, e) <==>
              !(&& e.commitSHA != Pending(ib.status.onCommit).value.commitSHA
                && Before(steps, ReconcilerReads, WebhookPatches)
                && Before(steps, WebhookPatches, ReconcilerPatches))
  {
    hide TakeAll;
    InterleavingEffect(ib, now, e, steps);
    Distinct(steps);
  }

  /** And a push whose commit stays pending keeps the whole of its record exactly if it was read
      after the other was consumed, or shares nothing but empty members with it. */
  lemma TearingIsExact(ib: ImageBuild, now: int, e: PushRecord, steps: seq<Step>)
    requires HasPending(ib) && IsInterleaving(steps)
    requires Before(steps, ReconcilerPatches, WebhookPatches) && e != Pending(ib.status.onCommit).value
    ensures var p := Pending(ib.status.onCommit).value;
            var f := RecordOf(TakeAll(Start(ib.status), ib, now, e, steps).status);
            f.pending == Some(e) <==>
              || Before(steps, ReconcilerPatches, WebhookReads)
              || (&& (e.ref == p.ref ==> e.ref == "")
                  && (e.commitSHA == p.commitSHA ==> e.commitSHA == "")
                  && (e.receivedAt == p.receivedAt ==> e.receivedAt == 0))
  {
    hide TakeAll;
    InterleavingEffect(ib, now, e, steps);
  }

  lemma Distinct(steps: seq<Step>)
    requires IsInterleaving(steps)
    ensures Before(steps, ReconcilerReads, ReconcilerPatches) && Before(steps, WebhookReads, WebhookPatches)
    ensures Position(steps, ReconcilerReads) != Position(steps, WebhookPatches)
    ensures Position(steps, ReconcilerPatches) != Position(steps, WebhookPatches)
    ensures Position(steps, ReconcilerPatches) != Position(steps, WebhookReads)
  {
    hide Position;
    Positions(steps[0], steps[1], steps[2], steps[3]);
    assert steps == [steps[0], steps[1], steps[2], steps[3]];
  }

  /** At this level, then, a push can be lost: received, and neither pending nor triggered. */
  lemma PushInWindowIsLost(ib: ImageBuild, now: int, e: PushRecord)
    requires HasPending(ib) && e.commitSHA != Pending(ib.status.onCommit).value.commitSHA
    ensures var steps := [ReconcilerReads, WebhookReads, WebhookPatches, ReconcilerPatches];
            var f := RecordOf(TakeAll(Start(ib.status), ib, now, e, steps).status);
            f.received == Some(e) && f.pending == None && !IsKept(f, e)
  {
    hide TakeAll, Position;
    var steps := [ReconcilerReads, WebhookReads, WebhookPatches, ReconcilerPatches];
    Positions(steps[0], steps[1], steps[2], steps[3]);
    InterleavingEffect(ib, now, e, steps);
  }

  // ---- many deliveries in the window ---------------------------------------

  /** A delivery, by whatever status its handler had read. */
  datatype Delivered = Delivered(read: Status, push: PushRecord)

  function DeliverAll(t: Status, ds: seq<Delivered>): Status
    decreases |ds|
  {
    if ds == [] then t
    else
      var n := |ds| - 1;
      Merge(DeliverAll(t, ds[..n]), PushPatch(ds[n].read, ds[n].push))
  }

  lemma DeliveryKeepsTrigger(t: Status, h: Status, e: PushRecord)
    requires t.onCommit.Some?
    ensures var s := Merge(t, PushPatch(h, e)); s.onCommit.Some? && RecordOf(s).triggered == RecordOf(t).triggered
  {
    hide DiffPush, MergePush;
    PushMembers(h, e);
  }

  lemma {:induction false} DeliveriesKeepTrigger(t: Status, ds: seq<Delivered>)
    requires t.onCommit.Some?
    ensures var s := DeliverAll(t, ds); s.onCommit.Some? && RecordOf(s).triggered == RecordOf(t).triggered
    decreases |ds|
  {
    hide Merge, PushPatch;
    if ds != [] {
      var n := |ds| - 1;
      DeliveriesKeepTrigger(t, ds[..n]);
      DeliveryKeepsTrigger(DeliverAll(t, ds[..n]), ds[n].read, ds[n].push);
    }
  }

  lemma FreshDelivery(t: Status, e: PushRecord)
    requires t.onCommit.Some?
    ensures RecordOf(Merge(t, PushPatch(t, e))).received == Some(e)
  {
    hide DiffPush, MergePush, Merge, PushPatch;
    DeliveryEffect(t, t, e);
    PushMerges(RecordOf(t).received, e);
  }

  /** Any number of pushes recorded between the reconciler's read and its consuming patch, by
      handlers that had read whatever they had: of all of them, exactly those for the commit being
      consumed are kept.  The last one, if its handler read the status as it was, is still the last
      received, so that it is lost exactly if it is for another commit. */
  lemma ManyInWindow(ib: ImageBuild, now: int, ds: seq<Delivered>)
    requires HasPending(ib)
    ensures var p := Pending(ib.status.onCommit).value;
            var f := RecordOf(Merge(DeliverAll(ib.status, ds), ConsumingPatch(ib, ib.status, now)));
            && f.pending == None
            && (forall d :: d in ds ==> (IsKept(f, d.push) <==> d.push.commitSHA == p.commitSHA))
            && (forall n :: 0 <= n && |ds| == n + 1 && ds[n].read == DeliverAll(ib.status, ds[..n]) ==>
                  f.received == Some(ds[n].push))
  {
    hide Merge, PushPatch, ConsumingPatch;
    DeliveriesKeepTrigger(ib.status, ds);
    ConsumingEffect(DeliverAll(ib.status, ds), ib, ib.status, now);
    if ds != [] {
      var n := |ds| - 1;
      DeliveriesKeepTrigger(ib.status, ds[..n]);
      FreshDelivery(DeliverAll(ib.status, ds[..n]), ds[n].push);
    }
  }
}
