/** The watcher's cleanup on termination: cleanupPolicies and deleteResourcesByLabel of internal/watcher/watcher.go. */
module Cleanup {
  import opened Wrappers
  import opened Kubernetes

  /** The delete that cleanup issues for a listed object: its kind and name, but no namespace. */
  function Asked(resource: Resource, item: (ObjKey, Stored)): ObjKey {
    ObjKey(resource, "", item.0.name)
  }

  /** A delete that fails is passed over. */
  function DeleteEach(env: Env, w: World, resource: Resource, items: seq<(ObjKey, Stored)>): World
    decreases |items|
  {
    if items == [] then w
    else DeleteEach(env, DeleteObject(env, w, Asked(resource, items[0])).1, resource, items[1..])
  }

  function DeleteByLabel(env: Env, w: World, resource: Resource, artifact: string): World {
    match ListObjects(env, w, resource, "artifact-name", artifact)
    case (Err(_), w') => w'
    case (Ok(items), w') => DeleteEach(env, w', resource, items)
  }

  function CleanupAll(env: Env, w: World, artifact: string): World {
    DeleteByLabel(env, DeleteByLabel(env, w, Policies, artifact), ClusterPolicies, artifact)
  }

  /** The key is the kind and name of an object that carries the artifact's label. */
  ghost predicate NamesListed(c: Cluster, key: ObjKey, resource: Resource, artifact: string) {
    exists k :: Owned(c, k, artifact) && k.resource == resource && key == ObjKey(resource, "", k.name)
  }

  lemma ListedItem(env: Env, w: World, resource: Resource, artifact: string, i: nat)
    requires var list := ListObjects(env, w, resource, "artifact-name", artifact).0; list.Ok? && i < |list.value|
    ensures NamesListed(Arrive(env, w).cluster,
                        Asked(resource, ListObjects(env, w, resource, "artifact-name", artifact).0.value[i]),
                        resource, artifact)
  {
    var c := Arrive(env, w).cluster;
    var found := Labelled(c, resource, "artifact-name", artifact);
    var items := ListObjects(env, w, resource, "artifact-name", artifact).0.value;
    ArrangeLists(found, env.listing(Now(w), found.Keys));
    assert items[i] in items && Owned(c, items[i].0, artifact);
  }

  lemma DeleteNext(env: Env, w: World, resource: Resource, items: seq<(ObjKey, Stored)>, i: nat)
    requires i < |items|
    ensures DeleteEach(env, w, resource, items[i..]) ==
            DeleteEach(env, DeleteObject(env, w, Asked(resource, items[i])).1, resource, items[i + 1..])
  {
    assert items[i..][0] == items[i] && items[i..][1..] == items[i + 1..];
  }

  class Cleaner {
    const api: ApiServer
    /** The deletes issued so far. */
    ghost var issued: seq<ObjKey>

    constructor (api: ApiServer)
      ensures this.api == api && issued == []
    {
      this.api, issued := api, [];
    }

    /** Every delete issued names the kind and name of an object that carried the label when it was listed. */
    method DeleteResourcesByLabel(resource: Resource, artifact: string)
      modifies this, api
      ensures api.world == DeleteByLabel(api.env, old(api.world), resource, artifact)
      ensures old(issued) <= issued
      ensures forall i :: |old(issued)| <= i < |issued| ==>
                NamesListed(Arrive(api.env, old(api.world)).cluster, issued[i], resource, artifact)
    {
      ghost var w0, before := api.world, issued;
      ghost var c := Arrive(api.env, w0).cluster;
      var list := api.List(resource, "artifact-name", artifact);
      if list.Err? { return; }
      var items := list.value;
      ghost var w1 := api.world;
      for i := 0 to |items|
        invariant DeleteEach(api.env, w1, resource, items) == DeleteEach(api.env, api.world, resource, items[i..])
        invariant before <= issued
        invariant forall j :: |before| <= j < |issued| ==> NamesListed(c, issued[j], resource, artifact)
      {
        DeleteNext(api.env, api.world, resource, items, i);
        ListedItem(api.env, w0, resource, artifact, i);
        var _ := api.Delete(Asked(resource, items[i]));
        issued := issued + [Asked(resource, items[i])];
      }
      assert items[|items|..] == [];
    }

    /** Every delete goes back to one of the two lists. */
    method CleanupPolicies(artifact: string)
      modifies this, api
      ensures api.world == CleanupAll(api.env, old(api.world), artifact)
      ensures old(issued) <= issued
      ensures forall i :: |old(issued)| <= i < |issued| ==>
                FromLists(Arrive(api.env, old(api.world)).cluster, AtSecondList(api.env, old(api.world), artifact),
                          issued[i], artifact)
    {
      DeleteResourcesByLabel(Policies, artifact);
      DeleteResourcesByLabel(ClusterPolicies, artifact);
    }
  }

  /** The first list is of Policies, the second of ClusterPolicies. */
  ghost predicate FromLists(first: Cluster, second: Cluster, key: ObjKey, artifact: string) {
    NamesListed(first, key, Policies, artifact) || NamesListed(second, key, ClusterPolicies, artifact)
  }

  // ---- Racing with writers ----

  ghost predicate Owned(c: Cluster, k: ObjKey, artifact: string) {
    k in c.objects && Selects("artifact-name", artifact, c.objects[k].content.labels)
  }

  /** Owned cluster-wide objects of this kind are newer than revision `r`, or still to be deleted. */
  ghost predicate Guarded(c: Cluster, r: nat, resource: Resource, artifact: string, rest: seq<(ObjKey, Stored)>) {
    && r <= c.revision
    && forall k :: Owned(c, k, artifact) && k.resource == resource && k.namespace == "" ==>
         c.objects[k].version > r || k in Names(resource, rest)
  }

  ghost function Names(resource: Resource, items: seq<(ObjKey, Stored)>): set<ObjKey> {
    set item | item in items :: Asked(resource, item)
  }

  ghost predicate OwnCallsWork(env: Env, from: nat, upTo: nat) {
    forall t :: from <= t < upTo ==> env.fault(t).Fine?
  }

  lemma {:induction false} DeleteEachGuards(
      env: Env, w: World, r: nat, resource: Resource, artifact: string, items: seq<(ObjKey, Stored)>)
    requires ValidEnv(env) && Guarded(w.cluster, r, resource, artifact, items)
    requires OwnCallsWork(env, Now(w), Now(w) + |items|)
    ensures var w' := DeleteEach(env, w, resource, items);
            Guarded(w'.cluster, r, resource, artifact, []) && Now(w') == Now(w) + |items|
    decreases |items|
  {
    if items != [] {
      var key := Asked(resource, items[0]);
      var c := env.interfere(Now(w), w.cluster);
      assert Evolves(w.cluster, c) && env.fault(Now(w)).Fine?;
      assert Guarded(c, r, resource, artifact, items);
      var w1 := DeleteObject(env, w, key).1;
      assert Names(resource, items) <= {key} + Names(resource, items[1..]);
      assert Guarded(w1.cluster, r, resource, artifact, items[1..]);
      DeleteEachGuards(env, w1, r, resource, artifact, items[1..]);
    }
  }

  lemma ListGuards(env: Env, w: World, resource: Resource, artifact: string)
    requires ValidEnv(env) && env.fault(Now(w)).Fine?
    ensures var (list, w') := ListObjects(env, w, resource, "artifact-name", artifact);
            list.Ok? && Guarded(w'.cluster, w'.cluster.revision, resource, artifact, list.value)
  {
    var c := Arrive(env, w).cluster;
    var found := Labelled(c, resource, "artifact-name", artifact);
    var order := env.listing(Now(w), found.Keys);
    assert Enumerates(order, found.Keys);
    ArrangeLists(found, order);
    forall k | Owned(c, k, artifact) && k.resource == resource && k.namespace == ""
      ensures k in Names(resource, Arrange(found, order))
    {
      assert (k, found[k]) in Arrange(found, order) && Asked(resource, (k, found[k])) == k;
    }
  }

  /** The state in which cleanup's list of ClusterPolicies found the cluster. */
  ghost function AtSecondList(env: Env, w: World, artifact: string): Cluster {
    Arrive(env, DeleteByLabel(env, w, Policies, artifact)).cluster
  }

  /**
   Racing with any number of writers: if cleanup's own calls work, every ClusterPolicy that carries the artifact's
   label when cleanup is done was written after cleanup listed the ClusterPolicies: it is of a later version than
   everything that the list found in the cluster.
   */
  lemma SurvivorsAreNewer(env: Env, w: World, artifact: string, k: ObjKey)
    requires ValidEnv(env) && Bounded(w.cluster)
    requires OwnCallsWork(env, Now(w), Now(CleanupAll(env, w, artifact)))
    requires k.resource == ClusterPolicies && k.namespace == ""
    requires Owned(CleanupAll(env, w, artifact).cluster, k, artifact)
    ensures NewerThanAll(AtSecondList(env, w, artifact), CleanupAll(env, w, artifact).cluster.objects[k].version)
  {
    ListIsBounded(env, w, artifact);
    var w1 := DeleteByLabel(env, w, Policies, artifact);
    ClockAdvances(env, w, Policies, artifact);
    ClockAdvances(env, w1, ClusterPolicies, artifact);
    assert env.fault(Now(w1)).Fine?;
    ListGuards(env, w1, ClusterPolicies, artifact);
    var (list, w2) := ListObjects(env, w1, ClusterPolicies, "artifact-name", artifact);
    DeleteEachTakes(env, w2, ClusterPolicies, list.value);
    DeleteEachGuards(env, w2, w2.cluster.revision, ClusterPolicies, artifact, list.value);
  }

  lemma {:induction false} DeleteEachEvolves(env: Env, w: World, resource: Resource, items: seq<(ObjKey, Stored)>)
    requires ValidEnv(env)
    ensures Evolves(w.cluster, DeleteEach(env, w, resource, items).cluster)
    decreases |items|
  {
    if items != [] {
      var key := Asked(resource, items[0]);
      var w1 := DeleteObject(env, w, key).1;
      WritesEvolve(env, w, key, Content(map[], None, ""), 0);
      DeleteEachEvolves(env, w1, resource, items[1..]);
      EvolvesTransitive(w.cluster, w1.cluster, DeleteEach(env, w1, resource, items[1..]).cluster);
    }
  }

  lemma ListIsBounded(env: Env, w: World, artifact: string)
    requires ValidEnv(env) && Bounded(w.cluster)
    ensures Bounded(AtSecondList(env, w, artifact))
  {
    var (list, w1) := ListObjects(env, w, Policies, "artifact-name", artifact);
    assert Evolves(w.cluster, w1.cluster) && Bounded(w1.cluster);
    if list.Ok? {
      DeleteEachEvolves(env, w1, Policies, list.value);
    }
    var w2 := DeleteByLabel(env, w, Policies, artifact);
    assert Evolves(w2.cluster, Arrive(env, w2).cluster);
  }

  lemma {:induction false} DeleteEachTakes(env: Env, w: World, resource: Resource, items: seq<(ObjKey, Stored)>)
    ensures Now(DeleteEach(env, w, resource, items)) == Now(w) + |items|
    decreases |items|
  {
    if items != [] {
      DeleteEachTakes(env, DeleteObject(env, w, Asked(resource, items[0])).1, resource, items[1..]);
    }
  }

  lemma ClockAdvances(env: Env, w: World, resource: Resource, artifact: string)
    ensures Now(DeleteByLabel(env, w, resource, artifact)) > Now(w)
  {
    var (list, w') := ListObjects(env, w, resource, "artifact-name", artifact);
    if list.Ok? {
      DeleteEachTakes(env, w', resource, list.value);
    }
  }

  // ---- What cleanup removes when nothing else happens ----

  lemma {:induction false} QuietDeleteEach(env: Env, w: World, resource: Resource, items: seq<(ObjKey, Stored)>)
    requires Quiet(env, Now(w))
    ensures var w' := DeleteEach(env, w, resource, items);
            && w'.cluster.objects == w.cluster.objects - Names(resource, items)
            && w'.cluster.pods == w.cluster.pods && w'.cluster.artifacts == w.cluster.artifacts
            && Now(w) <= Now(w') && Quiet(env, Now(w'))
    decreases |items|
  {
    if items != [] {
      var key := Asked(resource, items[0]);
      var w1 := DeleteObject(env, w, key).1;
      assert Arrive(env, w).cluster == w.cluster && env.fault(Now(w)).Fine?;
      assert w1.cluster.objects == w.cluster.objects - {key};
      QuietDeleteEach(env, w1, resource, items[1..]);
      assert Names(resource, items) == {key} + Names(resource, items[1..]);
    }
  }

  lemma QuietDeleteByLabel(env: Env, w: World, resource: Resource, artifact: string)
    requires ValidEnv(env) && Quiet(env, Now(w))
    ensures var w' := DeleteByLabel(env, w, resource, artifact);
            && Now(w) <= Now(w') && Quiet(env, Now(w'))
            && w'.cluster.pods == w.cluster.pods && w'.cluster.artifacts == w.cluster.artifacts
            && (forall k :: k in w'.cluster.objects <==>
                  k in w.cluster.objects && !NamesListed(w.cluster, k, resource, artifact))
            && (forall k :: k in w'.cluster.objects ==> w'.cluster.objects[k] == w.cluster.objects[k])
  {
    var c := w.cluster;
    assert Arrive(env, w).cluster == c && env.fault(Now(w)).Fine?;
    var found := Labelled(c, resource, "artifact-name", artifact);
    var order := env.listing(Now(w), found.Keys);
    assert Enumerates(order, found.Keys);
    ArrangeLists(found, order);
    var items := Arrange(found, order);
    QuietDeleteEach(env, Arrive(env, w), resource, items);
    forall k ensures k in Names(resource, items) <==> NamesListed(c, k, resource, artifact) {
      if NamesListed(c, k, resource, artifact) {
        var o :| Owned(c, o, artifact) && o.resource == resource && k == ObjKey(resource, "", o.name);
        assert (o, found[o]) in items && Asked(resource, (o, found[o])) == k;
      }
    }
  }

  /**
   With nothing else going on, of the owned policies exactly those with a namespace survive cleanup: every owned
   ClusterPolicy is removed, and no namespaced Policy is.
   */
  lemma CleanupMissesNamespaced(env: Env, w: World, artifact: string, k: ObjKey)
    requires ValidEnv(env) && Quiet(env, Now(w))
    requires Owned(w.cluster, k, artifact) && k.resource in {Policies, ClusterPolicies}
    ensures k in CleanupAll(env, w, artifact).cluster.objects <==> k.namespace != ""
  {
    var w1 := DeleteByLabel(env, w, Policies, artifact);
    QuietDeleteByLabel(env, w, Policies, artifact);
    QuietDeleteByLabel(env, w1, ClusterPolicies, artifact);
    if k.namespace == "" {
      if k.resource == Policies {
        assert NamesListed(w.cluster, k, Policies, artifact);
      } else {
        assert !NamesListed(w.cluster, k, Policies, artifact);
        assert NamesListed(w1.cluster, k, ClusterPolicies, artifact);
      }
    }
  }
}
