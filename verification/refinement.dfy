/** The two processes take part in the protocol: whatever Controller.Reconciler and Webhook.Handler
    are proved to do to the API server is an action of the runs that Safety and the modules after it
    are about. */
module Refinement {
  import opened ImageBuilds
  import opened Cluster
  import opened ReconcileSpec
  import opened Guards
  import opened Protocol
  import opened Safety
  import opened Controller
  import opened Webhook
  import Convergence

  /** A pass by a process with b writes left is the action of a pass that stops after b writes. */
  lemma PassIsAction(x: System, k: Key, b: nat, t: World, left: nat)
    requires WellFormed(x.w, k) && Performed(x.w, k, ReconcileSpec.Reconcile(x.w, k), b, t, left)
    ensures var es := Events(x, k, Pass(b)); Legal(x, k, es) && After(x, k, es).w == t
  {
    hide ReconcileSpec.Reconcile, Exec, Legal, After;
    StoppedPassIsLegal(x, k, b);
    var ws := ReconcileSpec.Reconcile(x.w, k).writes;
    assert ws[..|ws|] == ws;
  }

  /** A request, as each ImageBuild sees it: if it is among those the push is recorded with, a
      delivery, and what becomes of the others is up to the environment. */
  lemma RequestIsAction(x: System, k: Key, keys: set<Key>, ref: string, sha: string)
    requires WellFormed(x.w, k)
    ensures var t := x.w.(imageBuilds := Updated(x.w.imageBuilds, keys, PushRecord(ref, sha, Stamp(x.w.clock))));
            if k in keys then
              var es := Events(x, k, Safety.Deliver(ref, sha));
              Legal(x, k, es) && EnvStep(After(x, k, es).w, k, t)
            else EnvStep(x.w, k, t)
  {
    if k in keys {
      var e := Push(ref, sha);
      assert [e][1..] == [] && Legal(Next(x, k, e), k, []);
      OneEvent(x, k, e);
    }
  }

  /** A pass over another ImageBuild, however early it stops, is a step of the environment. */
  lemma OtherPassIsEnvironment(s: World, k: Key, other: Key, n: nat)
    requires WellFormed(s, k) && WellFormed(s, other)
    requires k != other && s.imageBuilds[k].uid != s.imageBuilds[other].uid
    ensures EnvStep(s, k, Exec(s, other, Stopped(s, other, n)))
  {
    hide ReconcileSpec.Reconcile, Exec, Stopped;
    StoppedPassRespectsOwners(s, other, n);
    Convergence.WritesKeepWellFormed(s, other, Stopped(s, other, n));
    Convergence.WritesKeepTime(s, other, Stopped(s, other, n));
  }

  /** What the controller accepts as a webhook secret and what the webhook accepts differ by the
      empty value alone: once an ImageBuild is set up, its pushes lack a secret exactly if none is
      configured or its value is empty. */
  lemma SecretsAgree(s: World, k: Key)
    requires WellFormed(s, k) && Convergence.SetUp(s, k)
    ensures var ref := s.imageBuilds[k].spec.onCommit;
            SecretOf(s.secrets, s.imageBuilds[k]) == None <==>
              ref.None? || s.secrets[Key(k.ns, ref.value.name)][ref.value.key] == ""
  {
    hide Convergence.BuildInPlace;
  }
}
