/** What webhook requests guarantee, in the terms of the objects themselves: Webhook.IsHandled is what
    Webhook.Handler.ServeHTTP is proved to do, and it is written out field by field. */
module Deliveries {
  import opened ImageBuilds
  import opened Cluster
  import opened Webhook
  import Answers
  import Builds

  lemma IndexHas(q: Request, k: Key) returns (j: nat)
    requires q.Valid() && k in q.stored
    ensures j < |q.index| && q.index[j] == k
  {
    j :| 0 <= j < |q.index| && q.index[j] == k;
  }

  lemma NoneIsLost(q: Request, after: map<Key, ImageBuild>, code: int)
    requires q.Valid() && IsHandled(q, after, code)
    ensures after.Keys == q.stored.Keys
  {
  }

  /** A request changes an ImageBuild only to record the push, and only if the specification asks for
      this very branch of this very repository and the push is genuine by its own secret. */
  lemma ChangeIsDue(q: Request, after: map<Key, ImageBuild>, code: int, k: Key)
    requires q.Valid() && IsHandled(q, after, code) && k in q.stored
    ensures k in after
    ensures after[k] != q.stored[k] ==>
              && AsksFor(q.stored[k], q.event, q.o) && IsGenuine(q.stored[k], q.secrets, q.o)
              && IsRecorded(q.stored[k], after[k], q.event, q.now)
  {
    hide AsksFor, IsGenuine, IsRecorded;
    var j := IndexHas(q, k);
  }

  /** Unless the answer is an internal error, the push is recorded with every ImageBuild that is
      selected and that it is genuine for. */
  lemma EveryGenuineIsRecorded(q: Request, after: map<Key, ImageBuild>, code: int, k: Key)
    requires q.Valid() && IsHandled(q, after, code) && k in q.stored && code != 500
    ensures k in after
    ensures q.Selects(k) && q.IsGenuineFor(k) ==> IsRecorded(q.stored[k], after[k], q.event, q.now)
  {
    hide IsSelected, IsGenuine, IsRecorded;
    var j := IndexHas(q, k);
  }

  /** The answer is an internal error exactly if a selected ImageBuild has no secret. */
  lemma ErrorMeans(q: Request, after: map<Key, ImageBuild>, code: int)
    requires q.Valid() && IsHandled(q, after, code)
    ensures code == 500 <==> exists k :: k in q.stored && q.Selects(k) && !q.HasSecretFor(k)
  {
    hide IsSelected, IsGenuine, HasSecret, IsRecorded;
    var n: nat :| IsCut(q, n) && IsHandledUpTo(q, after, code, n);
    if n < |q.index| {
      assert q.index[n] in q.stored;
    }
    if k :| k in q.stored && q.Selects(k) && !q.HasSecretFor(k) {
      var j := IndexHas(q, k);
    }
  }

  ghost predicate IsForged(secrets: Secrets, o: Oracle) {
    forall s, key :: s in secrets && key in secrets[s] ==> !o.authenticates(secrets[s][key])
  }

  /** A push that no stored secret authenticates changes nothing, and is accepted only if it concerns
      no ImageBuild at all. */
  lemma ForgedPushIsRefused(q: Request, after: map<Key, ImageBuild>, code: int)
    requires q.Valid() && IsHandled(q, after, code) && IsForged(q.secrets, q.o)
    ensures after == q.stored
    ensures code == 202 <==> forall k :: k in q.stored ==> !q.Selects(k)
  {
    hide IsSelected, IsRecorded;
    NoneIsLost(q, after, code);
    forall k | k in q.stored
      ensures after[k] == q.stored[k] && !q.IsGenuineFor(k)
    {
      ChangeIsDue(q, after, code, k);
    }
    ErrorMeans(q, after, code);
  }

  /** A push to repositories none of the ImageBuilds is built from changes nothing and is accepted. */
  lemma OtherRepositoryIsLeft(q: Request, after: map<Key, ImageBuild>, code: int)
    requires q.Valid() && IsHandled(q, after, code)
    requires forall k, u :: k in q.stored && u in q.event.cloneURLs ==>
               q.o.identity(u) != q.o.identity(q.stored[k].spec.source.git.url)
    ensures after == q.stored && code == 202
  {
    hide IsGenuine, HasSecret, IsRecorded;
    NoneIsLost(q, after, code);
    forall k | k in q.stored
      ensures after[k] == q.stored[k] && !q.Selects(k)
    {
      ChangeIsDue(q, after, code, k);
    }
    ErrorMeans(q, after, code);
  }

  /** Whatever lies between two requests: if both change an ImageBuild whose specification is the same
      both times, they are pushes to one and the same branch of the same repository. */
  lemma OneBranchOnly(p: Request, afterP: map<Key, ImageBuild>, codeP: int,
                      q: Request, afterQ: map<Key, ImageBuild>, codeQ: int, k: Key)
    requires p.Valid() && IsHandled(p, afterP, codeP) && q.Valid() && IsHandled(q, afterQ, codeQ)
    requires k in p.stored && k in q.stored && p.stored[k].spec == q.stored[k].spec && p.o.identity == q.o.identity
    requires afterP[k] != p.stored[k] && afterQ[k] != q.stored[k]
    ensures p.event.ref == q.event.ref
    ensures exists u, v :: u in p.event.cloneURLs && v in q.event.cloneURLs && p.o.identity(u) == p.o.identity(v)
  {
    hide IsGenuine, IsRecorded, IsHandled;
    ChangeIsDue(p, afterP, codeP, k);
    ChangeIsDue(q, afterQ, codeQ, k);
  }

  // ---- once the ImageBuilds are ready --------------------------------------

  /** No webhook secret is configured, or its value is empty. */
  ghost predicate HasNoValue(t: World, k: Key)
    requires k in t.imageBuilds
  {
    match t.imageBuilds[k].spec.onCommit
    case None => true
    case Some(ref) =>
      var secret := Key(k.ns, ref.name);
      secret in t.secrets && ref.key in t.secrets[secret] && t.secrets[secret][ref.key] == ""
  }

  lemma InStepMeans(t: World, k: Key, event: PushEvent, o: Oracle)
    requires k in t.imageBuilds && t.imageBuilds[k].key == k && Builds.IsInStep(t, k)
    ensures IsSelected(t.imageBuilds[k], event, o) <==> AsksFor(t.imageBuilds[k], event, o)
    ensures HasSecret(t.imageBuilds[k], t.secrets) <==> !HasNoValue(t, k)
  {
    hide Builds.IsCalledFor, Answers.StrategyIsMissing;
  }

  /** The two processes together.  When every ImageBuild is in step, as it is after a pass that leaves
      it ready, a push is recorded with exactly the ImageBuilds whose specification asks for it and
      that it is genuine for; unless one that asks has no webhook secret configured or an empty one:
      then, and only then, the answer is an internal error. */
  lemma PushesReachTheReady(t: World, q: Request, after: map<Key, ImageBuild>, code: int)
    requires q.Valid() && q.stored == t.imageBuilds && q.secrets == t.secrets && IsHandled(q, after, code)
    requires forall k :: k in t.imageBuilds ==> Builds.IsInStep(t, k)
    ensures code == 500 <==> exists k :: k in q.stored && AsksFor(q.stored[k], q.event, q.o) && HasNoValue(t, k)
    ensures after.Keys == q.stored.Keys
    ensures code != 500 ==>
              forall k :: k in q.stored ==>
                if AsksFor(q.stored[k], q.event, q.o) && q.IsGenuineFor(k)
                then IsRecorded(q.stored[k], after[k], q.event, q.now)
                else after[k] == q.stored[k]
  {
    hide AsksFor, IsSelected, IsGenuine, HasSecret, IsRecorded, HasNoValue, IsHandled, Builds.IsInStep;
    NoneIsLost(q, after, code);
    ErrorMeans(q, after, code);
    forall k | k in q.stored
      ensures q.Selects(k) <==> AsksFor(q.stored[k], q.event, q.o)
      ensures q.HasSecretFor(k) <==> !HasNoValue(t, k)
    {
      InStepMeans(t, k, q.event, q.o);
    }
    forall k | k in q.stored && code != 500
      ensures if AsksFor(q.stored[k], q.event, q.o) && q.IsGenuineFor(k)
              then IsRecorded(q.stored[k], after[k], q.event, q.now)
              else after[k] == q.stored[k]
    {
      ChangeIsDue(q, after, code, k);
      EveryGenuineIsRecorded(q, after, code, k);
    }
  }
}
