/** When nothing else happens, two cycles finish the collector's work. */
module CollectorLiveness {
  import opened Wrappers
  import opened Kubernetes
  import opened Collector
  import opened CollectorSafety

  /** The managed policies whose owner is missing. */
  ghost function Doomed(c: Cluster): set<ObjKey> {
    set k | k in c.objects && Managed(c, k) && OwnerMissing(c, c.objects[k].content.labels)
  }

  ghost function TrackingKey(k: ObjKey): string {
    var kind := if k.resource == ClusterPolicies then "ClusterPolicy" else "Policy";
    PolicyKey(PolicyInfo(k.name, k.namespace, kind, map[]))
  }

  // ---- Quiet calls ----

  lemma QuietJudge(env: Env, w: World, labels: Labels)
    requires Quiet(env, Now(w))
    ensures var (orphaned, w') := Judge(env, w, labels);
            && w'.cluster == w.cluster && Now(w) <= Now(w') && Quiet(env, Now(w'))
            && (orphaned <==> OwnerMissing(w.cluster, labels))
  {
    var w1 := Arrive(env, w);
    assert w1.cluster == w.cluster && env.fault(Now(w)).Fine?;
    assert Arrive(env, w1).cluster == w.cluster && env.fault(Now(w1)).Fine?;
    OwnerMissingMeans(w.cluster, labels);
  }

  lemma QuietDelete(env: Env, w: World, k: ObjKey)
    requires Quiet(env, Now(w)) && k in w.cluster.objects
    ensures var (r, w') := DeleteObject(env, w, k);
            r.Ok? && w'.cluster == Remove(w.cluster, k) && Now(w) <= Now(w') && Quiet(env, Now(w'))
  {
    assert Arrive(env, w).cluster == w.cluster && env.fault(Now(w)).Fine?;
  }

  lemma QuietListKind(env: Env, w: World, resource: Resource)
    requires ValidEnv(env) && Quiet(env, Now(w)) && (resource.Policies? || resource.ClusterPolicies?)
    ensures var (infos, w') := ListKind(env, w, resource);
            && w'.cluster == w.cluster && Now(w) <= Now(w') && Quiet(env, Now(w'))
            && ListsKind(w.cluster, resource, infos)
  {
    ListKindLists(env, w, resource);
    assert Arrive(env, w).cluster == w.cluster && env.fault(Now(w)).Fine?;
  }

  ghost predicate ListsManaged(c: Cluster, infos: seq<PolicyInfo>) {
    && DistinctKeys(infos)
    && (forall p :: p in infos ==> ListedAt(c, p))
    && (forall k :: Managed(c, k) ==> exists p :: p in infos && Target(p) == k)
  }

  lemma QuietBegin(env: Env, w: World)
    requires ValidEnv(env) && Quiet(env, Now(w))
    ensures var (infos, w') := Begin(env, w);
            w'.cluster == w.cluster && Now(w) <= Now(w') && Quiet(env, Now(w')) && ListsManaged(w.cluster, infos)
  {
    var w0 := Reach(env, w).1;
    assert w0.cluster == w.cluster && env.fault(Now(w)).Fine?;
    var (policies, w1) := ListKind(env, w0, Policies);
    var (clusterPolicies, w2) := ListKind(env, w1, ClusterPolicies);
    QuietListKind(env, w0, Policies);
    QuietListKind(env, w1, ClusterPolicies);
    ListManagedIsSound(env, w0);
    forall k | Managed(w.cluster, k) ensures exists p :: p in policies + clusterPolicies && Target(p) == k {
      if k.resource.Policies? {
        var p :| p in policies && Target(p) == k;
        assert p in policies + clusterPolicies;
      } else {
        var p :| p in clusterPolicies && Target(p) == k;
        assert p in policies + clusterPolicies;
      }
    }
  }

  // ---- One quiet cycle ----

  /** What deleting everything in `done` that was doomed and already tracked leaves behind. */
  ghost predicate QuietlyDone(st: GcState, done: seq<PolicyInfo>, st': GcState) {
    var c, c' := st.world.cluster, st'.world.cluster;
    && c'.pods == c.pods && c'.artifacts == c.artifacts
    && (forall k :: k in c'.objects <==> k in c.objects && !(exists p :: p in done && Struck(st, p) && Target(p) == k))
    && (forall k :: k in c'.objects ==> c'.objects[k] == c.objects[k])
    && (forall p :: p in done ==>
          (PolicyKey(p) in st'.tracked <==> OwnerMissing(c, p.labels) && PolicyKey(p) !in st.tracked))
    && (forall key :: Untouched(done, key) ==> Entry(st'.tracked, key) == Entry(st.tracked, key))
  }

  ghost predicate Struck(st: GcState, p: PolicyInfo) {
    OwnerMissing(st.world.cluster, p.labels) && PolicyKey(p) in st.tracked
  }

  lemma OwnerMissingSame(c: Cluster, c': Cluster, labels: Labels)
    requires c'.pods == c.pods && c'.artifacts == c.artifacts
    ensures OwnerMissing(c, labels) <==> OwnerMissing(c', labels)
  {
    assert LabelledPods(c, "app", "kyverno-artifact-manager") == LabelledPods(c', "app", "kyverno-artifact-manager");
  }

  /** What one policy's turn does when nothing else happens. */
  lemma QuietProcess(env: Env, st: GcState, p: PolicyInfo)
    requires Quiet(env, Now(st.world)) && Target(p) in st.world.cluster.objects
    ensures var st', c := Process(env, st, p), st.world.cluster;
            && Quiet(env, Now(st'.world)) && st'.cycle == st.cycle
            && st'.world.cluster == (if Struck(st, p) then Remove(c, Target(p)) else c)
            && (PolicyKey(p) in st'.tracked <==> OwnerMissing(c, p.labels) && PolicyKey(p) !in st.tracked)
            && forall key :: key != PolicyKey(p) ==> Entry(st'.tracked, key) == Entry(st.tracked, key)
  {
    var (orphaned, s1) := Judged(env, st, p);
    QuietJudge(env, st.world, p.labels);
    if orphaned && PolicyKey(p) in st.tracked {
      QuietJudge(env, s1.world, p.labels);
      var (still, s2) := Judged(env, s1, p);
      QuietDelete(env, s2.world, Target(p));
    }
  }

  lemma QuietStep(st: GcState, infos: seq<PolicyInfo>, i: nat, mid: GcState, st': GcState)
    requires i < |infos| && ListsManaged(st.world.cluster, infos) && QuietlyDone(st, infos[..i], mid)
    requires var p, c := infos[i], mid.world.cluster;
             && st'.world.cluster == (if Struck(mid, p) then Remove(c, Target(p)) else c)
             && (PolicyKey(p) in st'.tracked <==> OwnerMissing(c, p.labels) && PolicyKey(p) !in mid.tracked)
             && forall key :: key != PolicyKey(p) ==> Entry(st'.tracked, key) == Entry(mid.tracked, key)
    ensures QuietlyDone(st, infos[..i + 1], st')
  {
    var p, done := infos[i], infos[..i];
    TakeNext(infos, i);
    EarlierUntouched(infos, i);
    assert Entry(mid.tracked, PolicyKey(p)) == Entry(st.tracked, PolicyKey(p));
    OwnerMissingSame(st.world.cluster, mid.world.cluster, p.labels);
    assert Struck(mid, p) <==> Struck(st, p);
    forall q | q in infos[..i + 1]
      ensures PolicyKey(q) in st'.tracked <==> OwnerMissing(st.world.cluster, q.labels) && PolicyKey(q) !in st.tracked
    {
      if q in done {
        assert Entry(st'.tracked, PolicyKey(q)) == Entry(mid.tracked, PolicyKey(q));
      }
    }
    forall key | Untouched(infos[..i + 1], key) ensures Entry(st'.tracked, key) == Entry(st.tracked, key) {
      assert p in infos[..i + 1];
      assert Untouched(done, key);
    }
    forall k ensures k in st'.world.cluster.objects <==>
      k in st.world.cluster.objects && !(exists q :: q in infos[..i + 1] && Struck(st, q) && Target(q) == k)
    {
      if exists q :: q in infos[..i + 1] && Struck(st, q) && Target(q) == k {
        var q :| q in infos[..i + 1] && Struck(st, q) && Target(q) == k;
        assert q in done || q == p;
      } else if Struck(st, p) {
        assert p in infos[..i + 1] && k != Target(p);
        assert forall q :: q in done ==> q in infos[..i + 1];
      } else {
        assert forall q :: q in done ==> q in infos[..i + 1];
      }
    }
  }

  lemma StillThere(st: GcState, infos: seq<PolicyInfo>, i: nat, mid: GcState)
    requires i < |infos| && ListsManaged(st.world.cluster, infos) && QuietlyDone(st, infos[..i], mid)
    ensures Target(infos[i]) in mid.world.cluster.objects
  {
    var p := infos[i];
    assert p in infos && ListedAt(st.world.cluster, p);
    forall q | q in infos[..i] ensures Target(q) != Target(p) {
      EarlierUntouched(infos, i);
      assert ListedAt(st.world.cluster, q) by { assert q in infos; }
    }
  }

  lemma {:induction false} QuietProcessAll(env: Env, st: GcState, infos: seq<PolicyInfo>, n: nat)
    requires Quiet(env, Now(st.world)) && ListsManaged(st.world.cluster, infos) && n <= |infos|
    ensures var st' := ProcessAll(env, st, infos[..n]);
            Quiet(env, Now(st'.world)) && st'.cycle == st.cycle && QuietlyDone(st, infos[..n], st')
  {
    if n == 0 {
      assert infos[..0] == [];
    } else {
      var mid := ProcessAll(env, st, infos[..n - 1]);
      QuietProcessAll(env, st, infos, n - 1);
      StillThere(st, infos, n - 1, mid);
      QuietProcess(env, mid, infos[n - 1]);
      QuietStep(st, infos, n - 1, mid, Process(env, mid, infos[n - 1]));
      ProcessNext(env, st, infos, n - 1);
    }
  }

  /** What a quiet cycle does, in terms of the cluster alone. */
  ghost predicate QuietCycled(st: GcState, st': GcState) {
    var c, c' := st.world.cluster, st'.world.cluster;
    && c'.pods == c.pods && c'.artifacts == c.artifacts
    && (forall k :: k in c'.objects <==> k in c.objects && !(k in Doomed(c) && TrackingKey(k) in st.tracked))
    && (forall k :: k in c'.objects ==> c'.objects[k] == c.objects[k])
    && (forall k :: Managed(c, k) ==>
          (TrackingKey(k) in st'.tracked <==> k in Doomed(c) && TrackingKey(k) !in st.tracked))
    && (forall key :: (forall k :: Managed(c, k) ==> TrackingKey(k) != key) ==>
          Entry(st'.tracked, key) == Entry(st.tracked, key))
  }

  lemma TargetTellsKey(p: PolicyInfo)
    requires CollectedKind(p.kind)
    ensures PolicyKey(p) == TrackingKey(Target(p))
  {
  }

  lemma CycledFromDone(st: GcState, infos: seq<PolicyInfo>, st': GcState)
    requires ListsManaged(st.world.cluster, infos) && QuietlyDone(st, infos, st')
    ensures QuietCycled(st, st')
  {
    var c := st.world.cluster;
    forall p | p in infos
      ensures Managed(c, Target(p)) && PolicyKey(p) == TrackingKey(Target(p))
      ensures p.labels == c.objects[Target(p)].content.labels
    {
      TargetTellsKey(p);
    }
    forall k | Managed(c, k)
      ensures TrackingKey(k) in st'.tracked <==> k in Doomed(c) && TrackingKey(k) !in st.tracked
    {
      var p :| p in infos && Target(p) == k;
    }
    forall k
      ensures k in st'.world.cluster.objects <==> k in c.objects && !(k in Doomed(c) && TrackingKey(k) in st.tracked)
    {
      if k in Doomed(c) {
        var p :| p in infos && Target(p) == k;
      }
    }
    forall key | forall k :: Managed(c, k) ==> TrackingKey(k) != key
      ensures Entry(st'.tracked, key) == Entry(st.tracked, key)
    {
      assert Untouched(infos, key);
    }
  }

  lemma QuietCycle(env: Env, st: GcState)
    requires ValidEnv(env) && Quiet(env, Now(st.world))
    ensures Quiet(env, Now(Cycle(env, st).world)) && QuietCycled(st, Cycle(env, st))
  {
    var (infos, w) := Begin(env, st.world);
    QuietBegin(env, st.world);
    var s := Opened(env, st).1;
    assert s.world == w && s.tracked == st.tracked;
    QuietCompletes(env, st, infos, s);
  }

  lemma QuietCompletes(env: Env, st: GcState, infos: seq<PolicyInfo>, s: GcState)
    requires Quiet(env, Now(s.world)) && ListsManaged(s.world.cluster, infos)
    requires s.world.cluster == st.world.cluster && s.tracked == st.tracked
    ensures var s' := ProcessAll(env, s, infos); Quiet(env, Now(s'.world)) && QuietCycled(st, s')
  {
    QuietProcessAll(env, s, infos, |infos|);
    TakeAll(infos);
    CycledFromDone(s, infos, ProcessAll(env, s, infos));
  }

  /** Grace belongs to the key: an object that takes over a tracked key is deleted in the first cycle that sees it. */
  lemma GraceIsPerKey(env: Env, st: GcState, k: ObjKey)
    requires ValidEnv(env) && Quiet(env, Now(st.world)) && k in Doomed(st.world.cluster)
    ensures k !in Cycle(env, st).world.cluster.objects <==> TrackingKey(k) in st.tracked
  {
    QuietCycle(env, st);
  }

  // ---- Two quiet cycles ----

  lemma DoomedAfter(st: GcState, st': GcState)
    requires QuietCycled(st, st')
    ensures forall k :: k in Doomed(st'.world.cluster) <==>
              k in Doomed(st.world.cluster) && TrackingKey(k) !in st.tracked
    ensures forall k :: Managed(st'.world.cluster, k) <==>
              Managed(st.world.cluster, k) && k in st'.world.cluster.objects
  {
    var c, c' := st.world.cluster, st'.world.cluster;
    forall k ensures k in Doomed(c') <==> k in Doomed(c) && TrackingKey(k) !in st.tracked {
      if k in c'.objects {
        OwnerMissingSame(c, c', c.objects[k].content.labels);
      }
    }
  }

  /** The work is done: the doomed policies are gone, all else is as it was, and nothing listed is tracked. */
  ghost predicate Swept(c: Cluster, st: GcState) {
    && st.world.cluster.objects == c.objects - Doomed(c)
    && st.world.cluster.pods == c.pods && st.world.cluster.artifacts == c.artifacts
    && forall k :: Managed(st.world.cluster, k) ==> TrackingKey(k) !in st.tracked
  }

  lemma TwoSweep(st: GcState, s1: GcState, s2: GcState)
    requires QuietCycled(st, s1) && QuietCycled(s1, s2)
    ensures Swept(st.world.cluster, s2) && Doomed(s2.world.cluster) == {}
  {
    DoomedAfter(st, s1);
    DoomedAfter(s1, s2);
    forall k | k in Doomed(s1.world.cluster) ensures TrackingKey(k) in s1.tracked {
      assert k in Doomed(st.world.cluster) && Managed(st.world.cluster, k);
    }
    forall k | Managed(s2.world.cluster, k) ensures TrackingKey(k) !in s2.tracked {
      assert Managed(s1.world.cluster, k);
    }
  }

  lemma ThirdIdles(s2: GcState, s3: GcState)
    requires QuietCycled(s2, s3) && Doomed(s2.world.cluster) == {}
    requires forall k :: Managed(s2.world.cluster, k) ==> TrackingKey(k) !in s2.tracked
    ensures s3.world.cluster.objects == s2.world.cluster.objects && s3.tracked == s2.tracked
  {
    forall key ensures Entry(s3.tracked, key) == Entry(s2.tracked, key) {
      if k :| Managed(s2.world.cluster, k) && TrackingKey(k) == key {
        assert key !in s2.tracked;
      }
    }
    SameEntries(s3.tracked, s2.tracked);
  }

  /**
   From any tracking map and any cluster, two quiet cycles remove exactly the managed policies whose owner is
   missing, leave every other object as it was, leave no listed key tracked, and a third cycle changes nothing.
   */
  lemma TwoCyclesCollect(env: Env, st: GcState)
    requires ValidEnv(env) && Quiet(env, Now(st.world))
    ensures var s2 := Cycle(env, Cycle(env, st));
            var s3 := Cycle(env, s2);
            && Swept(st.world.cluster, s2)
            && s3.world.cluster.objects == s2.world.cluster.objects && s3.tracked == s2.tracked
  {
    var s1 := Cycle(env, st);
    var s2 := Cycle(env, s1);
    QuietCycle(env, st);
    QuietCycle(env, s1);
    QuietCycle(env, s2);
    TwoSweep(st, s1, s2);
    ThirdIdles(s2, Cycle(env, s2));
  }

  lemma SameEntries(m: map<string, nat>, m': map<string, nat>)
    requires forall key :: Entry(m, key) == Entry(m', key)
    ensures m == m'
  {
    forall key ensures key in m <==> key in m' {
      assert Entry(m, key) == Entry(m', key);
    }
    forall key | key in m ensures m[key] == m'[key] {
      assert Entry(m, key) == Entry(m', key);
    }
  }
}
