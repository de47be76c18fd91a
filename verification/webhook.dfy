/** The git webhook: it finds the ImageBuilds that a push concerns by their label and their
    specification, and records the push with each whose secret authenticates the request. */
module Webhook {
  import opened ImageBuilds
  import opened MergePatch
  import opened Cluster
  import opened ReconcileSpec
  import opened Api

  datatype PushEvent = PushEvent(cloneURLs: seq<string>, ref: string, commitSHA: string)

  /** What becomes of the request before any ImageBuild is looked at. */
  datatype Reading = NotAllowed | Unsupported | InvalidPayload | Readable(event: PushEvent)

  const ACCEPTED := 202
  const BAD_REQUEST := 400
  const UNAUTHENTICATED := 401
  const METHOD_NOT_ALLOWED := 405
  const INTERNAL_ERROR := 500

  const BRANCH := "refs/heads/"

  /** What the handler cannot see into: which repository a URL stands for, and whether a secret
      authenticates the request at hand. */
  datatype Oracle = Oracle(identity: string -> string, authenticates: string -> bool)

  type Secrets = map<Key, map<string, string>>

  // ---- what a push concerns ------------------------------------------------

  predicate Labelled(ib: ImageBuild) {
    LABEL_ON_COMMIT in ib.labels && ib.labels[LABEL_ON_COMMIT] == "true"
  }

  predicate NamesBranch(ib: ImageBuild, event: PushEvent) {
    var git := ib.spec.source.git;
    && OnCommitMode(ib.spec)
    && ib.spec.source.kind == SOURCE_GIT
    && git.url != "" && git.revision != "" && event.ref == BRANCH + git.revision
  }

  /** The specification asks for a rebuild on this push. */
  predicate Matches(ib: ImageBuild, event: PushEvent, o: Oracle) {
    && NamesBranch(ib, event)
    && exists u :: u in event.cloneURLs && o.identity(u) == o.identity(ib.spec.source.git.url)
  }

  function LabelledIn(list: seq<ImageBuild>): (r: seq<ImageBuild>)
    ensures forall ib :: ib in r <==> ib in list && Labelled(ib)
  {
    if list == [] then []
    else
      var n := |list| - 1;
      LabelledIn(list[..n]) + if Labelled(list[n]) then [list[n]] else []
  }

  function MatchingIn(list: seq<ImageBuild>, event: PushEvent, o: Oracle): (r: seq<ImageBuild>)
    ensures forall ib :: ib in r <==> ib in list && Matches(ib, event, o)
  {
    if list == [] then []
    else
      var n := |list| - 1;
      MatchingIn(list[..n], event, o) + if Matches(list[n], event, o) then [list[n]] else []
  }

  /** The secret that is to authenticate pushes, if it is there and not empty. */
  function SecretOf(secrets: Secrets, ib: ImageBuild): Option<string> {
    match ib.spec.onCommit
    case None => None
    case Some(ref) =>
      var key := Key(ib.key.ns, ref.name);
      if key !in secrets || ref.key !in secrets[key] || secrets[key][ref.key] == "" then None
      else Some(secrets[key][ref.key])
  }

  predicate Authentic(secrets: Secrets, ib: ImageBuild, o: Oracle) {
    SecretOf(secrets, ib).Some? && o.authenticates(SecretOf(secrets, ib).value)
  }

  // ---- what becomes of it --------------------------------------------------

  /** The matches up to the first whose secret cannot be resolved. */
  function Attempted(matches: seq<ImageBuild>, secrets: Secrets): seq<ImageBuild> {
    if matches == [] || SecretOf(secrets, matches[0]).None? then []
    else [matches[0]] + Attempted(matches[1..], secrets)
  }

  function Accepted(matches: seq<ImageBuild>, secrets: Secrets, o: Oracle): set<Key> {
    set ib | ib in matches && Authentic(secrets, ib, o) :: ib.key
  }

  function Updated(stored: map<Key, ImageBuild>, keys: set<Key>, e: PushRecord): map<Key, ImageBuild> {
    map k | k in stored :: if k in keys then stored[k].(status := Pushed(stored[k].status, e)) else stored[k]
  }

  function Answer(matches: seq<ImageBuild>, secrets: Secrets, o: Oracle): int {
    if Attempted(matches, secrets) != matches then INTERNAL_ERROR
    else if matches != [] && Accepted(matches, secrets, o) == {} then UNAUTHENTICATED
    else ACCEPTED
  }

  lemma {:induction false} AttemptedIsPrefix(matches: seq<ImageBuild>, secrets: Secrets, i: nat)
    requires i <= |matches| && forall j :: 0 <= j < i ==> SecretOf(secrets, matches[j]).Some?
    requires i == |matches| || SecretOf(secrets, matches[i]).None?
    ensures Attempted(matches, secrets) == matches[..i]
  {
    if i > 0 {
      AttemptedIsPrefix(matches[1..], secrets, i - 1);
      assert matches[..i] == [matches[0]] + matches[1..][..i - 1];
    }
  }

  lemma AcceptedMore(matches: seq<ImageBuild>, secrets: Secrets, o: Oracle, i: nat)
    requires i < |matches|
    ensures var before, after := Accepted(matches[..i], secrets, o), Accepted(matches[..i + 1], secrets, o);
            after == if Authentic(secrets, matches[i], o) then before + {matches[i].key} else before
  {
    assert matches[..i + 1] == matches[..i] + [matches[i]];
    assert matches[i] in matches[..i + 1];
    assert forall ib :: ib in matches[..i + 1] <==> ib in matches[..i] || ib == matches[i];
  }

  lemma UpdatedMore(stored: map<Key, ImageBuild>, keys: set<Key>, k: Key, e: PushRecord)
    requires k in stored
    ensures var m := Updated(stored, keys, e);
            m[k := m[k].(status := Pushed(m[k].status, e))] == Updated(stored, keys + {k}, e)
  {
  }

  lemma NothingAccepted(stored: map<Key, ImageBuild>, secrets: Secrets, o: Oracle, e: PushRecord)
    ensures Accepted([], secrets, o) == {} && Attempted([], secrets) == [] && Updated(stored, {}, e) == stored
  {
  }

  // ---- the same, in the terms of the objects themselves --------------------

  /** The specification asks for rebuilds on commits to the branch pushed to, in a repository that
      one of the push's clone URLs stands for. */
  ghost predicate AsksFor(ib: ImageBuild, event: PushEvent, o: Oracle) {
    var source := ib.spec.source;
    && ib.spec.rebuild == Some("OnCommit") && source.kind == "Git"
    && source.git.url != "" && source.git.revision != "" && event.ref == "refs/heads/" + source.git.revision
    && exists u :: u in event.cloneURLs && o.identity(u) == o.identity(source.git.url)
  }

  ghost predicate IsSelected(ib: ImageBuild, event: PushEvent, o: Oracle) {
    && "build.dana.io/oncommit-enabled" in ib.labels && ib.labels["build.dana.io/oncommit-enabled"] == "true"
    && AsksFor(ib, event, o)
  }

  /** The secret the ImageBuild refers to, in its own namespace, has a value under the key named. */
  ghost predicate HasSecret(ib: ImageBuild, secrets: Secrets) {
    match ib.spec.onCommit
    case None => false
    case Some(ref) =>
      var secret := Key(ib.key.ns, ref.name);
      secret in secrets && ref.key in secrets[secret] && secrets[secret][ref.key] != ""
  }

  /** That very value authenticates the request. */
  ghost predicate IsGenuine(ib: ImageBuild, secrets: Secrets, o: Oracle) {
    && HasSecret(ib, secrets)
    && o.authenticates(secrets[Key(ib.key.ns, ib.spec.onCommit.value.name)][ib.spec.onCommit.value.key])
  }

  /** The push is the last received and the pending one, with its time in whole seconds; nothing
      else has changed. */
  ghost predicate IsRecorded(a: ImageBuild, b: ImageBuild, event: PushEvent, now: int) {
    && b == a.(status := a.status.(onCommit := b.status.onCommit))
    && b.status.onCommit != None
    && var oc := b.status.onCommit.value;
       && oc.lastReceived != None && oc.pending == oc.lastReceived
       && oc.lastReceived.value.ref == event.ref && oc.lastReceived.value.commitSHA == event.commitSHA
       && oc.lastReceived.value.receivedAt % 1_000_000_000 == 0
       && now - 1_000_000_000 < oc.lastReceived.value.receivedAt <= now
       && match a.status.onCommit
          case None => oc.lastTriggered == None && oc.triggerCounter == 0
          case Some(was) => oc.lastTriggered == was.lastTriggered && oc.triggerCounter == was.triggerCounter
  }

  /** A push as it reaches the server: what is stored by then, and in which order it is listed. */
  datatype Request = Request(
    index: seq<Key>,
    stored: map<Key, ImageBuild>,
    secrets: Secrets,
    event: PushEvent,
    o: Oracle,
    now: int)
  {
    /** The index lists the stored ImageBuilds, each once and under its own key. */
    ghost predicate Valid() {
      && (forall k :: k in index <==> k in stored)
      && (forall i, j :: 0 <= i < j < |index| ==> index[i] != index[j])
      && (forall k :: k in stored ==> stored[k].key == k)
    }

    ghost predicate Selects(k: Key)
      requires k in stored
    {
      IsSelected(stored[k], event, o)
    }

    ghost predicate IsGenuineFor(k: Key)
      requires k in stored
    {
      IsGenuine(stored[k], secrets, o)
    }

    ghost predicate HasSecretFor(k: Key)
      requires k in stored
    {
      HasSecret(stored[k], secrets)
    }

    /** The ImageBuilds in the order of the index. */
    ghost function Listed(): (list: seq<ImageBuild>)
      requires Valid()
      ensures |list| == |index| && forall i :: 0 <= i < |list| ==> list[i] == stored[index[i]]
    {
      seq(|index|, i requires 0 <= i < |index| => stored[index[i]])
    }

    ghost function Selected(): seq<ImageBuild>
      requires Valid()
    {
      MatchingIn(LabelledIn(Listed()), event, o)
    }

    ghost function Stamped(): PushRecord {
      PushRecord(event.ref, event.commitSHA, Stamp(now))
    }
  }

  /** Up to the n-th in the index, every selected ImageBuild has a secret, and the n-th, if there is
      one, is selected and has none. */
  ghost predicate IsCut(q: Request, n: nat)
    requires q.Valid()
  {
    && n <= |q.index|
    && (forall j :: 0 <= j < n && q.Selects(q.index[j]) ==> q.HasSecretFor(q.index[j]))
    && (n < |q.index| ==> q.Selects(q.index[n]) && !q.HasSecretFor(q.index[n]))
  }

  ghost predicate IsHandledUpTo(q: Request, after: map<Key, ImageBuild>, code: int, n: nat)
    requires q.Valid() && after.Keys == q.stored.Keys
  {
    && (forall j :: 0 <= j < |q.index| ==>
          var k := q.index[j];
          if j < n && q.Selects(k) && q.IsGenuineFor(k) then IsRecorded(q.stored[k], after[k], q.event, q.now)
          else after[k] == q.stored[k])
    && code == if n < |q.index| then 500
               else if (exists k :: k in q.stored && q.Selects(k)) &&
                       !(exists k :: k in q.stored && q.Selects(k) && q.IsGenuineFor(k)) then 401
               else 202
  }

  /** What a push does.  It is recorded with the selected ImageBuilds that it is genuine for, and with
      no other, as far as the first selected one that has no secret.  The answer is 500 if there is
      such a one, else 401 if some are selected and it is genuine for none, else 202. */
  ghost predicate IsHandled(q: Request, after: map<Key, ImageBuild>, code: int)
    requires q.Valid()
  {
    after.Keys == q.stored.Keys && exists n: nat :: IsCut(q, n) && IsHandledUpTo(q, after, code, n)
  }

  lemma SelectedMeans(ib: ImageBuild, event: PushEvent, o: Oracle)
    ensures Matches(ib, event, o) <==> AsksFor(ib, event, o)
    ensures Labelled(ib) && Matches(ib, event, o) <==> IsSelected(ib, event, o)
  {
  }

  lemma GenuineMeans(ib: ImageBuild, secrets: Secrets, o: Oracle)
    ensures SecretOf(secrets, ib).Some? <==> HasSecret(ib, secrets)
    ensures Authentic(secrets, ib, o) <==> IsGenuine(ib, secrets, o)
  {
  }

  lemma RecordMeans(ib: ImageBuild, event: PushEvent, now: int)
    ensures var e := PushRecord(event.ref, event.commitSHA, Stamp(now));
            IsRecorded(ib, ib.(status := Pushed(ib.status, e)), event, now)
  {
  }

  lemma SelectedAppend(list: seq<ImageBuild>, ib: ImageBuild, event: PushEvent, o: Oracle)
    ensures MatchingIn(LabelledIn(list + [ib]), event, o) ==
              MatchingIn(LabelledIn(list), event, o) + if IsSelected(ib, event, o) then [ib] else []
  {
    hide Matches, Labelled, IsSelected;
    SelectedMeans(ib, event, o);
    assert (list + [ib])[..|list|] == list;
    var l := LabelledIn(list);
    assert (l + [ib])[..|l|] == l && l + [] == l;
  }

  /** The matches among the first n come first, and the n-th, if it is selected, next. */
  lemma {:induction false} SelectedPrefix(list: seq<ImageBuild>, event: PushEvent, o: Oracle, n: nat)
    requires n < |list| && IsSelected(list[n], event, o)
    ensures var some, all := MatchingIn(LabelledIn(list[..n]), event, o), MatchingIn(LabelledIn(list), event, o);
            |some| < |all| && all[..|some|] == some && all[|some|] == list[n]
  {
    hide LabelledIn, MatchingIn, IsSelected;
    var m := |list| - 1;
    var init := list[..m];
    assert list == init + [list[m]];
    SelectedAppend(init, list[m], event, o);
    if n < m {
      assert init[..n] == list[..n];
      SelectedPrefix(init, event, o, n);
    }
  }

  lemma FirstWithout(q: Request) returns (n: nat)
    requires q.Valid()
    ensures IsCut(q, n)
  {
    n := 0;
    while n < |q.index| && (q.Selects(q.index[n]) ==> q.HasSecretFor(q.index[n]))
      invariant n <= |q.index|
      invariant forall j :: 0 <= j < n && q.Selects(q.index[j]) ==> q.HasSecretFor(q.index[j])
    {
      n := n + 1;
    }
  }

  lemma SelectedIn(list: seq<ImageBuild>, event: PushEvent, o: Oracle)
    ensures forall ib :: ib in MatchingIn(LabelledIn(list), event, o) <==> ib in list && IsSelected(ib, event, o)
  {
    hide LabelledIn, MatchingIn, Matches, Labelled, IsSelected;
    forall ib {
      SelectedMeans(ib, event, o);
    }
  }

  /** What is recorded and answered in terms of lists is what IsHandled says. */
  lemma RequestMeans(q: Request)
    requires q.Valid()
    ensures var matches := q.Selected();
            var after := Updated(q.stored, Accepted(Attempted(matches, q.secrets), q.secrets, q.o), q.Stamped());
            IsHandled(q, after, Answer(matches, q.secrets, q.o))
  {
    hide MatchingIn, LabelledIn, Attempted, Accepted, IsSelected, IsGenuine, HasSecret, IsRecorded, Pushed, Authentic,
         SecretOf, IsHandledUpTo;
    var n := FirstWithout(q);
    UpToMeans(q, n);
  }

  lemma AttemptedMeans(list: seq<ImageBuild>, secrets: Secrets, event: PushEvent, o: Oracle, n: nat)
    requires n <= |list|
    requires forall j :: 0 <= j < n && IsSelected(list[j], event, o) ==> HasSecret(list[j], secrets)
    requires n < |list| ==> IsSelected(list[n], event, o) && !HasSecret(list[n], secrets)
    ensures var matches := MatchingIn(LabelledIn(list), event, o);
            var some := Attempted(matches, secrets);
            && some == MatchingIn(LabelledIn(list[..n]), event, o) && (some != matches <==> n < |list|)
  {
    hide MatchingIn, LabelledIn, IsSelected, IsGenuine, HasSecret, Authentic, SecretOf;
    var some, all := MatchingIn(LabelledIn(list[..n]), event, o), MatchingIn(LabelledIn(list), event, o);
    SelectedIn(list[..n], event, o);
    forall ib {
      GenuineMeans(ib, secrets, o);
    }
    if n < |list| {
      SelectedPrefix(list, event, o, n);
    } else {
      assert list[..n] == list;
    }
    assert all[..|some|] == some;
    forall j | 0 <= j < |some|
      ensures SecretOf(secrets, all[j]).Some?
    {
      assert all[j] == some[j] && some[j] in some && some[j] in list[..n];
    }
    AttemptedIsPrefix(all, secrets, |some|);
  }

  lemma UpToMeans(q: Request, n: nat)
    requires q.Valid() && IsCut(q, n)
    ensures var matches := q.Selected();
            var after := Updated(q.stored, Accepted(Attempted(matches, q.secrets), q.secrets, q.o), q.Stamped());
            IsHandledUpTo(q, after, Answer(matches, q.secrets, q.o), n)
  {
    hide MatchingIn, LabelledIn, Attempted, Accepted, IsSelected, IsGenuine, HasSecret, IsRecorded, Pushed, Authentic,
         SecretOf, Updated;
    var list := q.Listed();
    var accepted := Accepted(Attempted(q.Selected(), q.secrets), q.secrets, q.o);
    AttemptedMeans(list, q.secrets, q.event, q.o, n);
    AcceptedAre(list, q.secrets, q.event, q.o, n);
    AcceptedKeys(q, accepted, n);
    UpdatedMeans(q, accepted, n);
    if n == |q.index| {
      AnswerMeans(q, accepted);
    }
  }

  lemma AcceptedKeys(q: Request, accepted: set<Key>, n: nat)
    requires q.Valid() && n <= |q.index|
    requires var list := q.Listed();
             && (forall j :: 0 <= j < |list| ==>
                   (list[j].key in accepted <==>
                      j < n && IsSelected(list[j], q.event, q.o) && IsGenuine(list[j], q.secrets, q.o)))
             && (forall k :: k in accepted ==> exists j :: 0 <= j < n && list[j].key == k)
    ensures forall j :: 0 <= j < |q.index| ==>
              (q.index[j] in accepted <==> j < n && q.Selects(q.index[j]) && q.IsGenuineFor(q.index[j]))
    ensures forall k :: k in accepted ==> k in q.stored
  {
    hide IsSelected, IsGenuine;
    var list := q.Listed();
    forall j | 0 <= j < |list|
      ensures list[j].key == q.index[j] && q.stored[q.index[j]] == list[j]
    {
    }
  }

  lemma UpdatedMeans(q: Request, accepted: set<Key>, n: nat)
    requires q.Valid()
    requires forall j :: 0 <= j < |q.index| ==>
               (q.index[j] in accepted <==> j < n && q.Selects(q.index[j]) && q.IsGenuineFor(q.index[j]))
    ensures var after := Updated(q.stored, accepted, q.Stamped());
            forall j :: 0 <= j < |q.index| ==>
              var k := q.index[j];
              if j < n && q.Selects(k) && q.IsGenuineFor(k) then IsRecorded(q.stored[k], after[k], q.event, q.now)
              else after[k] == q.stored[k]
  {
    hide IsSelected, IsGenuine, IsRecorded, Pushed;
    forall ib {
      RecordMeans(ib, q.event, q.now);
    }
  }

  lemma AnswerMeans(q: Request, accepted: set<Key>)
    requires q.Valid() && Attempted(q.Selected(), q.secrets) == q.Selected()
    requires accepted == Accepted(q.Selected(), q.secrets, q.o)
    requires forall j :: 0 <= j < |q.index| ==>
               (q.index[j] in accepted <==> q.Selects(q.index[j]) && q.IsGenuineFor(q.index[j]))
    requires forall k :: k in accepted ==> k in q.stored
    ensures Answer(q.Selected(), q.secrets, q.o) ==
              if (exists k :: k in q.stored && q.Selects(k)) &&
                 !(exists k :: k in q.stored && q.Selects(k) && q.IsGenuineFor(k)) then 401
              else 202
  {
    hide MatchingIn, LabelledIn, Attempted, Accepted, IsSelected, IsGenuine;
    SomeIsSelected(q);
    SomeIsGenuine(q, accepted);
  }

  lemma SomeIsGenuine(q: Request, accepted: set<Key>)
    requires q.Valid()
    requires forall j :: 0 <= j < |q.index| ==>
               (q.index[j] in accepted <==> q.Selects(q.index[j]) && q.IsGenuineFor(q.index[j]))
    requires forall k :: k in accepted ==> k in q.stored
    ensures accepted != {} <==> exists k :: k in q.stored && q.Selects(k) && q.IsGenuineFor(k)
  {
    hide IsSelected, IsGenuine;
    forall k | k in q.stored
      ensures k in accepted <==> q.Selects(k) && q.IsGenuineFor(k)
    {
      var j :| 0 <= j < |q.index| && q.index[j] == k;
    }
    if k :| k in accepted {
      assert q.Selects(k) && q.IsGenuineFor(k);
    }
  }

  lemma SomeIsSelected(q: Request)
    requires q.Valid()
    ensures q.Selected() != [] <==> exists k :: k in q.stored && q.Selects(k)
  {
    hide MatchingIn, LabelledIn, IsSelected;
    var list := q.Listed();
    SelectedIn(list, q.event, q.o);
    if q.Selected() != [] {
      var ib := q.Selected()[0];
      assert ib in q.Selected() && ib in list;
      assert q.stored[ib.key] == ib && q.Selects(ib.key);
    }
    forall k | k in q.stored && q.Selects(k)
      ensures q.stored[k] in q.Selected()
    {
      var j :| 0 <= j < |q.index| && q.index[j] == k;
      assert list[j] in list;
    }
  }

  lemma AcceptedAre(list: seq<ImageBuild>, secrets: Secrets, event: PushEvent, o: Oracle, n: nat)
    requires n <= |list|
    requires forall i, j :: 0 <= i < j < |list| ==> list[i].key != list[j].key
    ensures var accepted := Accepted(MatchingIn(LabelledIn(list[..n]), event, o), secrets, o);
            && (forall j :: 0 <= j < |list| ==>
                  (list[j].key in accepted <==>
                     j < n && IsSelected(list[j], event, o) && IsGenuine(list[j], secrets, o)))
            && (forall k :: k in accepted ==> exists j :: 0 <= j < n && list[j].key == k)
  {
    hide MatchingIn, LabelledIn, IsSelected, IsGenuine, Authentic;
    SelectedIn(list[..n], event, o);
    forall ib {
      GenuineMeans(ib, secrets, o);
    }
    forall j | 0 <= j < n
      ensures list[j] in list[..n]
    {
    }
  }

  // ---- handler.go ----------------------------------------------------------

  class Handler {
    const api: ApiServer

    constructor (api: ApiServer)
      ensures this.api == api
    {
      this.api := api;
    }

    /** The ImageBuilds in the order of the server's index. */
    function Stored(): seq<ImageBuild>
      requires api.Indexed()
      reads api
    {
      seq(|api.index|, i requires 0 <= i < |api.index| && api.index[i] in api.imageBuilds reads api =>
        api.imageBuilds[api.index[i]])
    }

    method ListLabelled() returns (list: seq<ImageBuild>)
      requires api.Indexed()
      ensures list == LabelledIn(Stored())
    {
      list := [];
      var i := 0;
      while i < |api.index|
        invariant 0 <= i <= |api.index|
        invariant list == LabelledIn(Stored()[..i])
      {
        var ib := api.imageBuilds[api.index[i]];
        if Labelled(ib) {
          list := list + [ib];
        }
        assert Stored()[..i + 1][..i] == Stored()[..i];
        i := i + 1;
      }
      assert Stored()[..|api.index|] == Stored();
    }

    method FindMatches(list: seq<ImageBuild>, event: PushEvent, o: Oracle) returns (matches: seq<ImageBuild>)
      ensures matches == MatchingIn(list, event, o)
      ensures forall ib :: ib in matches <==> ib in list && AsksFor(ib, event, o)
    {
      var identities := [];
      for i := 0 to |event.cloneURLs|
        invariant |identities| == i
        invariant forall j :: 0 <= j < i ==> identities[j] == o.identity(event.cloneURLs[j])
      {
        identities := identities + [o.identity(event.cloneURLs[i])];
      }
      matches := [];
      for i := 0 to |list|
        invariant matches == MatchingIn(list[..i], event, o)
      {
        var ib := list[i];
        assert list[..i + 1][..i] == list[..i];
        if !NamesBranch(ib, event) {
          continue;
        }
        var id := o.identity(ib.spec.source.git.url);
        var matched := false;
        for j := 0 to |identities|
          invariant !matched && forall l :: 0 <= l < j ==> identities[l] != id
        {
          if id == identities[j] {
            matched := true;
            break;
          }
        }
        if !matched {
          continue;
        }
        matches := matches + [ib];
      }
      assert list[..|list|] == list;
    }

    method GetWebhookSecret(ib: ImageBuild) returns (secret: Option<string>)
      ensures secret == SecretOf(api.secrets, ib)
    {
      if ib.spec.onCommit.None? {
        return None;
      }
      var ref := ib.spec.onCommit.value;
      var key := Key(ib.key.ns, ref.name);
      if key !in api.secrets {
        return None;
      }
      var data := api.secrets[key];
      if ref.key !in data || |data[ref.key]| == 0 {
        return None;
      }
      return Some(data[ref.key]);
    }

    method PatchOnCommitStatus(k: Key, e: PushRecord)
      requires k in api.imageBuilds
      modifies api`imageBuilds
      ensures var ib := old(api.imageBuilds)[k];
              api.imageBuilds == old(api.imageBuilds)[k := ib.(status := Pushed(ib.status, e))]
    {
      var latest := api.imageBuilds[k];
      var orig := latest;
      if latest.status.onCommit.None? {
        latest := latest.(status := latest.status.(onCommit := Some(NO_ON_COMMIT)));
      }
      var oc := latest.status.onCommit.value;
      oc := oc.(lastReceived := Some(e));
      oc := oc.(pending := Some(e));
      latest := latest.(status := latest.status.(onCommit := Some(oc)));
      MergeDiff(orig.status, latest.status);
      var _ := api.PatchStatus(k, Diff(orig.status, latest.status));
    }

    /** Records the push with each match whose secret authenticates it, up to one without secret. */
    method DeliverTo(matches: seq<ImageBuild>, o: Oracle, e: PushRecord) returns (code: int)
      requires matches != [] && forall ib :: ib in matches ==> ib.key in api.imageBuilds
      modifies api`imageBuilds
      ensures code == Answer(matches, api.secrets, o)
      ensures api.imageBuilds ==
                Updated(old(api.imageBuilds), Accepted(Attempted(matches, api.secrets), api.secrets, o), e)
    {
      hide Accepted, Attempted, Updated, Pushed;
      ghost var before := api.imageBuilds;
      NothingAccepted(before, api.secrets, o, e);
      var authenticated := 0;
      var i := 0;
      assert matches[..0] == [];
      while i < |matches|
        invariant 0 <= i <= |matches|
        invariant api.imageBuilds.Keys == before.Keys
        invariant forall j :: 0 <= j < i ==> SecretOf(api.secrets, matches[j]).Some?
        invariant api.imageBuilds == Updated(before, Accepted(matches[..i], api.secrets, o), e)
        invariant authenticated >= 0 && (authenticated == 0 <==> Accepted(matches[..i], api.secrets, o) == {})
      {
        var ib := matches[i];
        var secret := GetWebhookSecret(ib);
        if secret.None? {
          AttemptedIsPrefix(matches, api.secrets, i);
          return INTERNAL_ERROR;
        }
        AcceptedMore(matches, api.secrets, o, i);
        UpdatedMore(before, Accepted(matches[..i], api.secrets, o), ib.key, e);
        i := i + 1;
        if !o.authenticates(secret.value) {
          continue;
        }
        authenticated := authenticated + 1;
        PatchOnCommitStatus(ib.key, e);
      }
      assert matches[..|matches|] == matches;
      AttemptedIsPrefix(matches, api.secrets, |matches|);
      if authenticated == 0 {
        return UNAUTHENTICATED;
      }
      return ACCEPTED;
    }

    method ServeHTTP(reading: Reading, o: Oracle) returns (code: int)
      requires api.Indexed()
      modifies api`imageBuilds
      ensures !reading.Readable? ==>
                && api.imageBuilds == old(api.imageBuilds)
                && code == if reading.NotAllowed? then METHOD_NOT_ALLOWED else BAD_REQUEST
      ensures reading.Readable? ==>
                var matches := MatchingIn(LabelledIn(old(Stored())), reading.event, o);
                var e := PushRecord(reading.event.ref, reading.event.commitSHA, Stamp(api.clock));
                && code == Answer(matches, api.secrets, o)
                && api.imageBuilds ==
                     Updated(old(api.imageBuilds), Accepted(Attempted(matches, api.secrets), api.secrets, o), e)
      ensures reading.Readable? ==>
                var q := Request(api.index, old(api.imageBuilds), api.secrets, reading.event, o, api.clock);
                q.Valid() && IsHandled(q, api.imageBuilds, code)
    {
      hide MatchingIn, LabelledIn, Attempted, Accepted, Updated, IsHandled;
      match reading {
        case NotAllowed => return METHOD_NOT_ALLOWED;
        case Unsupported => return BAD_REQUEST;
        case InvalidPayload => return BAD_REQUEST;
        case Readable(_) =>
      }
      var event := reading.event;
      ghost var q := Request(api.index, api.imageBuilds, api.secrets, event, o, api.clock);
      RequestMeans(q);
      assert Stored() == q.Listed();
      var list := ListLabelled();
      var matches := FindMatches(list, event, o);
      var e := PushRecord(event.ref, event.commitSHA, Stamp(api.clock));
      if |matches| == 0 {
        NothingAccepted(api.imageBuilds, api.secrets, o, e);
        return ACCEPTED;
      }
      code := DeliverTo(matches, o, e);
    }
  }

  // ---- exactness -----------------------------------------------------------

  ghost predicate KeysAreUnique(list: seq<ImageBuild>) {
    forall a, b :: a in list && b in list && a.key == b.key ==> a == b
  }

  /** The answer tells exactly which ImageBuilds the push was recorded with.  Accepted: with every
      labelled and matching one whose secret authenticates it, and no other.  Internal error: a
      secret is missing, and the push was recorded with exactly those before it in the list whose
      secret authenticates it.  Unauthenticated: with none. */
  lemma DeliveryIsExact(list: seq<ImageBuild>, secrets: Secrets, event: PushEvent, o: Oracle)
    requires KeysAreUnique(list)
    ensures var matches := MatchingIn(LabelledIn(list), event, o);
            var accepted := Accepted(Attempted(matches, secrets), secrets, o);
            var code := Answer(matches, secrets, o);
            && (code == INTERNAL_ERROR <==>
                  exists ib :: ib in list && Labelled(ib) && Matches(ib, event, o) && SecretOf(secrets, ib) == None)
            && (code == INTERNAL_ERROR ==>
                  exists i :: 0 <= i < |matches| && SecretOf(secrets, matches[i]) == None &&
                    forall ib :: ib in list ==>
                      (ib.key in accepted <==> ib in matches[..i] && Authentic(secrets, ib, o)))
            && (code != INTERNAL_ERROR ==>
                  forall ib :: ib in list ==>
                    (ib.key in accepted <==> Labelled(ib) && Matches(ib, event, o) && Authentic(secrets, ib, o)))
            && (code == UNAUTHENTICATED <==> code != INTERNAL_ERROR && matches != [] && accepted == {})
            && (code == ACCEPTED <==> code != INTERNAL_ERROR && (matches == [] || accepted != {}))
  {
    hide Matches, Labelled, SecretOf, Authentic, MatchingIn, LabelledIn, Accepted;
    var matches := MatchingIn(LabelledIn(list), event, o);
    var i := FirstFailure(matches, secrets);
    AttemptedIsPrefix(matches, secrets, i);
    assert i == |matches| ==> matches[..i] == matches;
    AcceptedMeans(matches[..i], list, secrets, o);
    if i < |matches| {
      assert matches[i] in list;
    }
  }

  lemma FirstFailure(matches: seq<ImageBuild>, secrets: Secrets) returns (i: nat)
    ensures i <= |matches| && (forall j :: 0 <= j < i ==> SecretOf(secrets, matches[j]).Some?)
    ensures i < |matches| ==> SecretOf(secrets, matches[i]).None?
  {
    i := 0;
    while i < |matches| && SecretOf(secrets, matches[i]).Some?
      invariant i <= |matches| && forall j :: 0 <= j < i ==> SecretOf(secrets, matches[j]).Some?
    {
      i := i + 1;
    }
  }

  lemma AcceptedMeans(matches: seq<ImageBuild>, list: seq<ImageBuild>, secrets: Secrets, o: Oracle)
    requires KeysAreUnique(list) && forall ib :: ib in matches ==> ib in list
    ensures forall ib :: ib in list ==>
              (ib.key in Accepted(matches, secrets, o) <==> ib in matches && Authentic(secrets, ib, o))
  {
    forall ib | ib in list && ib.key in Accepted(matches, secrets, o)
      ensures ib in matches && Authentic(secrets, ib, o)
    {
      var a :| a in matches && Authentic(secrets, a, o) && a.key == ib.key;
      assert a in list;
    }
  }
}
