/** The Kubernetes API server, as far as the operator's two processes use it. */
module Api {
  import opened ImageBuilds
  import opened MergePatch
  import opened Cluster

  class ApiServer {
    var imageBuilds: map<Key, ImageBuild>
    var builds: map<Key, Build>
    var runs: map<Key, BuildRun>
    var policy: Option<Policy>
    var strategies: set<string>
    var secrets: map<Key, map<string, string>>
    var clock: int
    const tagged: string -> bool

    /** The ImageBuilds in the order the server lists them. */
    var index: seq<Key>

    ghost function Snapshot(): World
      reads this
    {
      World(imageBuilds, builds, runs, policy, strategies, secrets, clock, tagged)
    }

    /** The index lists every ImageBuild, under its own key, once. */
    ghost predicate Indexed()
      reads this
    {
      && (forall k :: k in index <==> k in imageBuilds)
      && (forall i, j :: 0 <= i < j < |index| ==> index[i] != index[j])
      && (forall k :: k in imageBuilds ==> imageBuilds[k].key == k)
    }

    constructor (tagged: string -> bool)
      ensures Indexed() && imageBuilds == map[]
      ensures this.tagged == tagged
    {
      imageBuilds, builds, runs, policy := map[], map[], map[], None;
      strategies, secrets, clock, index := {}, map[], SECOND, [];
      this.tagged := tagged;
    }

    /** Merges a client's difference into the stored status, whatever that is by now. */
    method PatchStatus(k: Key, p: StatusPatch) returns (r: Option<ImageBuild>)
      modifies this`imageBuilds
      ensures k !in old(imageBuilds) ==> r == None && imageBuilds == old(imageBuilds)
      ensures k in old(imageBuilds) ==>
                var ib := old(imageBuilds)[k];
                && r == Some(ib.(status := Merge(ib.status, p)))
                && imageBuilds == old(imageBuilds)[k := r.value]
    {
      if k !in imageBuilds {
        return None;
      }
      var ib := imageBuilds[k];
      ib := ib.(status := Merge(ib.status, p));
      imageBuilds := imageBuilds[k := ib];
      return Some(ib);
    }

    /** Sets one label. */
    method PatchLabel(k: Key, name: string, value: string) returns (r: Option<ImageBuild>)
      modifies this`imageBuilds
      ensures k !in old(imageBuilds) ==> r == None && imageBuilds == old(imageBuilds)
      ensures k in old(imageBuilds) ==>
                var ib := old(imageBuilds)[k];
                && r == Some(ib.(labels := ib.labels[name := value]))
                && imageBuilds == old(imageBuilds)[k := r.value]
    {
      if k !in imageBuilds {
        return None;
      }
      var ib := imageBuilds[k];
      ib := ib.(labels := ib.labels[name := value]);
      imageBuilds := imageBuilds[k := ib];
      return Some(ib);
    }

    /** Replaces an ImageBuild but for its status, which is a subresource of its own. */
    method Update(ib: ImageBuild) returns (r: Option<ImageBuild>)
      modifies this`imageBuilds
      ensures ib.key !in old(imageBuilds) ==> r == None && imageBuilds == old(imageBuilds)
      ensures ib.key in old(imageBuilds) ==>
                && r == Some(ib.(status := old(imageBuilds)[ib.key].status))
                && imageBuilds == old(imageBuilds)[ib.key := r.value]
    {
      if ib.key !in imageBuilds {
        return None;
      }
      var stored := ib.(status := imageBuilds[ib.key].status);
      imageBuilds := imageBuilds[ib.key := stored];
      return Some(stored);
    }
  }
}
