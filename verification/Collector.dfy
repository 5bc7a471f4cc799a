/**
 The garbage collector of internal/gc/gc.go: a two-phase deleter.  A policy found orphaned is first only
 remembered; it is deleted when a later cycle finds it orphaned again and a recheck agrees.
 */
module Collector {
  import opened Wrappers
  import opened Text
  import opened Kubernetes

  const POD_PREFIX := "kyverno-artifact-manager-"

  datatype PolicyInfo = PolicyInfo(name: Name, namespace: Name, kind: string, labels: Labels)

  /**
   One line of the collector's history: a cycle that sets out, with the number of the call that lists its Policies; a
   verdict with the API calls it took; a deletion; or a restart of the process.
   */
  datatype Event =
    | Started(cycle: nat, lists: nat)
    | Verdict(info: PolicyInfo, cycle: nat, orphaned: bool, from: nat, upTo: nat)
    | Deletion(info: PolicyInfo, cycle: nat, ok: bool)
    | Restarted

  /** `tracked` is the orphanedPolicies map; the time stored in it is the cycle that first saw the key orphaned. */
  datatype GcState = GcState(world: World, tracked: map<string, nat>, cycle: nat, history: seq<Event>)

  function PolicyKey(p: PolicyInfo): string {
    if p.namespace != "" then p.kind + "/" + p.namespace + "/" + p.name else p.kind + "/" + p.name
  }

  function Target(p: PolicyInfo): ObjKey {
    ObjKey(if p.kind == "ClusterPolicy" then ClusterPolicies else Policies, p.namespace, p.name)
  }

  // ---- Is the owner there? ----

  predicate Active(p: Pod) {
    p.phase.Running? || p.phase.Pending?
  }

  predicate HasArtifact(c: Cluster, name: string) {
    exists n | n in c.artifacts :: n.name == name
  }

  predicate HasWatcher(c: Cluster, artifact: string) {
    exists n | n in c.pods :: HasPrefix(n.name, POD_PREFIX + artifact) && Active(c.pods[n])
  }

  /** The label that the legacy check selects pods by. */
  predicate HasLegacyWatcher(c: Cluster) {
    var pods := LabelledPods(c, "app", "kyverno-artifact-manager");
    exists n | n in pods :: HasPrefix(n.name, POD_PREFIX) && Active(pods[n])
  }

  function CheckArtifact(env: Env, w: World, name: string): (Result<bool, ApiError>, World) {
    match Observe(env, w)
    case (Ok(c), w') => (Ok(HasArtifact(c, name)), w')
    case (Err(e), w') => (Err(e), w')
  }

  function CheckWatcher(env: Env, w: World, artifact: string): (Result<bool, ApiError>, World) {
    match Observe(env, w)
    case (Ok(c), w') => (Ok(HasWatcher(c, artifact)), w')
    case (Err(e), w') => (Err(e), w')
  }

  function CheckLegacyWatcher(env: Env, w: World): (Result<bool, ApiError>, World) {
    match Observe(env, w)
    case (Ok(c), w') => (Ok(HasLegacyWatcher(c)), w')
    case (Err(e), w') => (Err(e), w')
  }

  function CheckAnyArtifact(env: Env, w: World): (Result<bool, ApiError>, World) {
    match Observe(env, w)
    case (Ok(c), w') => (Ok(c.artifacts != map[]), w')
    case (Err(e), w') => (Err(e), w')
  }

  /** Two questions asked one after the other; the policy is orphaned if either is answered no. */
  function Judge(env: Env, w: World, labels: Labels): (bool, World) {
    if "policy-version" !in labels then (false, w)
    else if "artifact-name" !in labels then
      match CheckLegacyWatcher(env, w)
      case (Err(_), w1) => (false, w1)
      case (Ok(false), w1) => (true, w1)
      case (Ok(true), w1) =>
        match CheckAnyArtifact(env, w1)
        case (Err(_), w2) => (false, w2)
        case (Ok(found), w2) => (!found, w2)
    else
      match CheckArtifact(env, w, labels["artifact-name"])
      case (Err(_), w1) => (false, w1)
      case (Ok(false), w1) => (true, w1)
      case (Ok(true), w1) =>
        match CheckWatcher(env, w1, labels["artifact-name"])
        case (Err(_), w2) => (false, w2)
        case (Ok(found), w2) => (!found, w2)
  }

  // ---- One cycle ----

  function InfoOf(item: (ObjKey, Stored)): PolicyInfo {
    PolicyInfo(item.0.name, item.0.namespace,
               if item.0.resource == ClusterPolicies then "ClusterPolicy" else "Policy",
               item.1.content.labels)
  }

  function Infos(items: seq<(ObjKey, Stored)>): (infos: seq<PolicyInfo>)
    ensures |infos| == |items| && forall i :: 0 <= i < |items| ==> infos[i] == InfoOf(items[i])
  {
    seq(|items|, i requires 0 <= i < |items| => InfoOf(items[i]))
  }

  function ListKind(env: Env, w: World, resource: Resource): (seq<PolicyInfo>, World) {
    match ListObjects(env, w, resource, "managed-by", "kyverno-watcher")
    case (Ok(items), w') => (Infos(items), w')
    case (Err(_), w') => ([], w')
  }

  /** A list that fails is left out of the cycle. */
  function ListManaged(env: Env, w: World): (seq<PolicyInfo>, World) {
    var (policies, w1) := ListKind(env, w, Policies);
    var (clusterPolicies, w2) := ListKind(env, w1, ClusterPolicies);
    (policies + clusterPolicies, w2)
  }

  function Judged(env: Env, st: GcState, p: PolicyInfo): (bool, GcState) {
    var (orphaned, w) := Judge(env, st.world, p.labels);
    (orphaned,
     st.(world := w, history := st.history + [Verdict(p, st.cycle, orphaned, Now(st.world), Now(w))]))
  }

  function Untrack(st: GcState, p: PolicyInfo): GcState {
    st.(tracked := st.tracked - {PolicyKey(p)})
  }

  /** A verdict and its entry in the map: a new orphan is remembered, a policy with an owner forgotten. */
  function Weigh(env: Env, st: GcState, p: PolicyInfo): GcState {
    var (orphaned, s1) := Judged(env, st, p);
    if !orphaned then Untrack(s1, p)
    else if PolicyKey(p) in s1.tracked then s1
    else s1.(tracked := s1.tracked[PolicyKey(p) := s1.cycle])
  }

  function Strike(env: Env, st: GcState, p: PolicyInfo): GcState {
    var (reply, w) := DeleteObject(env, st.world, Target(p));
    var s1 := st.(world := w, history := st.history + [Deletion(p, st.cycle, reply.Ok?)]);
    if reply.Ok? then Untrack(s1, p) else s1
  }

  /** The treatment of one policy, stopped after so many of its actions: a verdict, a recheck and a deletion. */
  function ProcessTo(env: Env, st: GcState, p: PolicyInfo, actions: nat): GcState {
    if actions == 0 then st
    else
      var s1 := Weigh(env, st, p);
      if actions == 1 || PolicyKey(p) !in st.tracked || PolicyKey(p) !in s1.tracked then s1
      else
        var s2 := Weigh(env, s1, p);
        if actions == 2 || PolicyKey(p) !in s2.tracked then s2 else Strike(env, s2, p)
  }

  function Process(env: Env, st: GcState, p: PolicyInfo): GcState {
    ProcessTo(env, st, p, 3)
  }

  function ProcessAll(env: Env, st: GcState, infos: seq<PolicyInfo>): GcState {
    if infos == [] then st
    else Process(env, ProcessAll(env, st, infos[..|infos| - 1]), infos[|infos| - 1])
  }

  lemma ProcessNext(env: Env, st: GcState, infos: seq<PolicyInfo>, i: nat)
    requires i < |infos|
    ensures ProcessAll(env, st, infos[..i + 1]) == Process(env, ProcessAll(env, st, infos[..i]), infos[i])
  {
    assert infos[..i + 1][..i] == infos[..i];
  }

  /** What a cycle works on: nothing, if no client can be had. */
  function Begin(env: Env, w: World): (seq<PolicyInfo>, World) {
    match Reach(env, w)
    case (Err(_), w') => ([], w')
    case (Ok(_), w') => ListManaged(env, w')
  }

  /** The cycle sets out: its policies, and the state in which it turns to the first of them. */
  function Opened(env: Env, st: GcState): (seq<PolicyInfo>, GcState) {
    var (infos, w) := Begin(env, st.world);
    (infos, OpenedIn(st, w))
  }

  function OpenedIn(st: GcState, w: World): GcState {
    st.(world := w, history := st.history + [Started(st.cycle, Now(st.world) + 1)])
  }

  function Cycle(env: Env, st: GcState): GcState {
    var (infos, s) := Opened(env, st);
    var st' := ProcessAll(env, s, infos);
    st'.(cycle := st'.cycle + 1)
  }

  // ---- Runs ----

  /**
   A cycle runs to its end, or the process dies in it and restarts with an empty map: after some of its opening calls,
   or after so many policies, so many actions on the next one, and perhaps the first of two reads of a further verdict.
   */
  datatype Choice = FullCycle | DiesListing(calls: nat) | DiesAfter(policies: nat, actions: nat, reading: bool)

  function Arrivals(env: Env, w: World, n: nat): World {
    if n == 0 then w else Arrive(env, Arrivals(env, w, n - 1))
  }

  function Min(a: nat, b: nat): nat {
    if a <= b then a else b
  }

  function OpeningCalls(env: Env, w: World): nat {
    Now(Begin(env, w).1) - Now(w)
  }

  function PartlyOpened(env: Env, st: GcState, calls: nat): GcState {
    OpenedIn(st, Arrivals(env, st.world, Min(calls, OpeningCalls(env, st.world))))
  }

  /** One read of the two that lead from `st` to `next` has been made. */
  function MidRead(env: Env, st: GcState, next: GcState): GcState {
    if Now(next.world) > Now(st.world) + 1 then st.(world := Arrive(env, st.world)) else st
  }

  /** A moment within a cycle. */
  function Partway(env: Env, st: GcState, policies: nat, actions: nat, reading: bool): GcState {
    var (infos, s) := Opened(env, st);
    var s1 := ProcessAll(env, s, infos[..Min(policies, |infos|)]);
    if policies >= |infos| then s1
    else
      var s2 := ProcessTo(env, s1, infos[policies], actions);
      if reading then MidRead(env, s2, ProcessTo(env, s1, infos[policies], actions + 1)) else s2
  }

  function Restart(st: GcState): GcState {
    st.(tracked := map[], cycle := st.cycle + 1, history := st.history + [Restarted])
  }

  function Run(env: Env, st: GcState, choices: seq<Choice>): GcState {
    if choices == [] then st
    else
      var st' := Run(env, st, choices[..|choices| - 1]);
      match choices[|choices| - 1]
      case FullCycle => Cycle(env, st')
      case DiesListing(calls) => Restart(PartlyOpened(env, st', calls))
      case DiesAfter(policies, actions, reading) => Restart(Partway(env, st', policies, actions, reading))
  }

  function Start(c: Cluster): GcState {
    GcState(World(c, []), map[], 0, [])
  }

  // ---- The collector itself ----

  lemma SearchIsComplete<V>(m: map<NsName, V>, order: seq<NsName>, items: seq<(NsName, V)>)
    requires Enumerates(order, m.Keys) && items == Arrange(m, order)
    ensures forall n :: n in m ==> (n, m[n]) in items
    ensures forall i :: 0 <= i < |items| ==> items[i].0 in m && items[i].1 == m[items[i].0]
  {
    ArrangeLists(m, order);
    assert forall i :: 0 <= i < |items| ==> items[i] in items;
  }

  lemma LegacySearch(c: Cluster, order: seq<NsName>, items: seq<(NsName, Pod)>)
    requires Enumerates(order, LabelledPods(c, "app", "kyverno-artifact-manager").Keys)
    requires items == Arrange(LabelledPods(c, "app", "kyverno-artifact-manager"), order)
    ensures HasLegacyWatcher(c) <==> AnyLive(items)
  {
    var pods := LabelledPods(c, "app", "kyverno-artifact-manager");
    SearchIsComplete(pods, order, items);
    if n :| n in pods && HasPrefix(n.name, POD_PREFIX) && Active(pods[n]) {
      var i :| 0 <= i < |items| && items[i] == (n, pods[n]);
      assert IsLiveWatcher(items[i]);
    }
  }

  predicate IsLiveWatcher(item: (NsName, Pod)) {
    HasPrefix(item.0.name, POD_PREFIX) && Active(item.1)
  }

  ghost predicate AnyLive(items: seq<(NsName, Pod)>) {
    exists i :: 0 <= i < |items| && IsLiveWatcher(items[i])
  }

  lemma LegacyCheckSearches(env: Env, w: World)
    requires ValidEnv(env)
    ensures var (list, w') := ListLabelledPods(env, w, "app", "kyverno-artifact-manager");
            CheckLegacyWatcher(env, w) == (if list.Ok? then Ok(AnyLive(list.value)) else Err(list.error), w')
  {
    var c := Arrive(env, w).cluster;
    var order := env.names(Now(w), LabelledPods(c, "app", "kyverno-artifact-manager").Keys);
    assert Enumerates(order, LabelledPods(c, "app", "kyverno-artifact-manager").Keys);
    LegacySearch(c, order, Arrange(LabelledPods(c, "app", "kyverno-artifact-manager"), order));
  }

  /** A cycle that gets no client is over at once. */
  lemma NoClientNoCycle(env: Env, st: GcState)
    requires Reach(env, st.world).0.Err?
    ensures Cycle(env, st) == var s := OpenedIn(st, Reach(env, st.world).1); s.(cycle := s.cycle + 1)
  {
  }

  class GarbageCollector {
    const api: ApiServer
    var orphanedPolicies: map<string, nat>
    var cycle: nat
    ghost var history: seq<Event>

    constructor (api: ApiServer)
      ensures this.api == api && State() == GcState(api.world, map[], 0, [])
    {
      this.api := api;
      orphanedPolicies, cycle, history := map[], 0, [];
    }

    ghost function State(): GcState
      reads this, api
    {
      GcState(api.world, orphanedPolicies, cycle, history)
    }

    method CheckForSpecificKyvernoArtifact(name: string) returns (r: Result<bool, ApiError>)
      requires ValidEnv(api.env)
      modifies api
      ensures (r, api.world) == CheckArtifact(api.env, old(api.world), name)
    {
      ghost var w := api.world;
      var list := api.Artifacts();
      if list.Err? { return Err(list.error); }
      var items := list.value;
      ghost var all := api.world.cluster.artifacts;
      SearchIsComplete(all, api.env.names(Now(w), all.Keys), items);
      for i := 0 to |items|
        invariant forall j :: 0 <= j < i ==> items[j].0.name != name
      {
        if items[i].0.name == name { return Ok(true); }
      }
      return Ok(false);
    }

    method CheckForSpecificWatcher(artifact: string) returns (r: Result<bool, ApiError>)
      requires ValidEnv(api.env)
      modifies api
      ensures (r, api.world) == CheckWatcher(api.env, old(api.world), artifact)
    {
      ghost var w := api.world;
      var list := api.Pods();
      if list.Err? { return Err(list.error); }
      var items := list.value;
      ghost var all := api.world.cluster.pods;
      SearchIsComplete(all, api.env.names(Now(w), all.Keys), items);
      var prefix := POD_PREFIX + artifact;
      for i := 0 to |items|
        invariant forall j :: 0 <= j < i ==> !(HasPrefix(items[j].0.name, prefix) && Active(items[j].1))
      {
        if HasPrefix(items[i].0.name, prefix) && Active(items[i].1) {
          assert HasWatcher(api.world.cluster, artifact);
          return Ok(true);
        }
      }
      assert !HasWatcher(api.world.cluster, artifact);
      return Ok(false);
    }

    method CheckForActiveWatchers() returns (r: Result<bool, ApiError>)
      requires ValidEnv(api.env)
      modifies api
      ensures (r, api.world) == CheckLegacyWatcher(api.env, old(api.world))
    {
      LegacyCheckSearches(api.env, api.world);
      var list := api.PodsLabelled("app", "kyverno-artifact-manager");
      if list.Err? { return Err(list.error); }
      var items := list.value;
      for i := 0 to |items|
        invariant forall j :: 0 <= j < i ==> !IsLiveWatcher(items[j])
      {
        if HasPrefix(items[i].0.name, POD_PREFIX) && Active(items[i].1) {
          assert IsLiveWatcher(items[i]);
          return Ok(true);
        }
      }
      return Ok(false);
    }

    method CheckForKyvernoArtifacts() returns (r: Result<bool, ApiError>)
      requires ValidEnv(api.env)
      modifies api
      ensures (r, api.world) == CheckAnyArtifact(api.env, old(api.world))
    {
      ghost var w := api.world;
      var list := api.Artifacts();
      if list.Err? { return Err(list.error); }
      ghost var all := api.world.cluster.artifacts;
      SearchIsComplete(all, api.env.names(Now(w), all.Keys), list.value);
      if |list.value| > 0 {
        assert list.value[0].0 in all;
        return Ok(true);
      }
      assert forall n :: n !in all;
      assert all == map[];
      return Ok(false);
    }

    method IsOrphaned(labels: Labels) returns (orphaned: bool)
      requires ValidEnv(api.env)
      modifies api
      ensures (orphaned, api.world) == Judge(api.env, old(api.world), labels)
    {
      if "policy-version" !in labels { return false; }
      if "artifact-name" !in labels {
        orphaned := IsOrphanedLegacy();
        return;
      }
      var artifact := CheckForSpecificKyvernoArtifact(labels["artifact-name"]);
      if artifact.Err? { return false; }
      if !artifact.value { return true; }
      var watcher := CheckForSpecificWatcher(labels["artifact-name"]);
      if watcher.Err? { return false; }
      return !watcher.value;
    }

    method IsOrphanedLegacy() returns (orphaned: bool)
      requires ValidEnv(api.env)
      modifies api
      ensures forall labels: Labels :: "policy-version" in labels && "artifact-name" !in labels ==>
                (orphaned, api.world) == Judge(api.env, old(api.world), labels)
    {
      var watcher := CheckForActiveWatchers();
      if watcher.Err? { return false; }
      if !watcher.value { return true; }
      var artifact := CheckForKyvernoArtifacts();
      if artifact.Err? { return false; }
      return !artifact.value;
    }

    method GetPoliciesByKind(resource: Resource) returns (policies: Result<seq<PolicyInfo>, ApiError>)
      modifies api
      ensures ListKind(api.env, old(api.world), resource) == (if policies.Ok? then policies.value else [], api.world)
      ensures policies.Ok? <==> api.env.fault(Now(old(api.world))).Fine?
    {
      var list := api.List(resource, "managed-by", "kyverno-watcher");
      if list.Err? { return Err(list.error); }
      var items := list.value;
      var infos: seq<PolicyInfo> := [];
      for i := 0 to |items|
        invariant |infos| == i
        invariant forall j :: 0 <= j < i ==> infos[j] == InfoOf(items[j])
      {
        infos := infos + [InfoOf(items[i])];
      }
      assert infos == Infos(items);
      return Ok(infos);
    }

    method GetManagedPolicies() returns (policies: seq<PolicyInfo>)
      modifies api
      ensures (policies, api.world) == ListManaged(api.env, old(api.world))
    {
      policies := [];
      var namespaced := GetPoliciesByKind(Policies);
      if namespaced.Ok? { policies := policies + namespaced.value; }
      var clusterWide := GetPoliciesByKind(ClusterPolicies);
      if clusterWide.Ok? { policies := policies + clusterWide.value; }
      assert forall q: seq<PolicyInfo> :: q + [] == q && [] + q == q;
    }

    /** One pass of the loop body of collectGarbage. */
    method CollectOne(p: PolicyInfo)
      requires ValidEnv(api.env)
      modifies this, api
      ensures State() == Process(api.env, old(State()), p) && cycle == old(cycle)
    {
      var key := PolicyKey(p);
      ghost var from := Now(api.world);
      var orphaned := IsOrphaned(p.labels);
      history := history + [Verdict(p, cycle, orphaned, from, Now(api.world))];
      if orphaned {
        if key !in orphanedPolicies {
          orphanedPolicies := orphanedPolicies[key := cycle];
          return;
        }
        RecheckAndDelete(p, key);
      } else {
        orphanedPolicies := orphanedPolicies - {key};
      }
    }

    /** The branch for a policy that an earlier cycle remembered. */
    method RecheckAndDelete(p: PolicyInfo, key: string)
      requires ValidEnv(api.env) && key == PolicyKey(p) && key in orphanedPolicies
      modifies this, api
      ensures State() == var s := Weigh(api.env, old(State()), p); if key in s.tracked then Strike(api.env, s, p) else s
      ensures cycle == old(cycle)
    {
      ghost var from := Now(api.world);
      var still := IsOrphaned(p.labels);
      history := history + [Verdict(p, cycle, still, from, Now(api.world))];
      if !still {
        orphanedPolicies := orphanedPolicies - {key};
        return;
      }
      var reply := api.Delete(Target(p));
      history := history + [Deletion(p, cycle, reply.Ok?)];
      if reply.Err? { return; }
      orphanedPolicies := orphanedPolicies - {key};
    }

    method CollectGarbage()
      requires ValidEnv(api.env)
      modifies this, api
      ensures State() == Cycle(api.env, old(State()))
    {
      ghost var before := State();
      history := history + [Started(cycle, Now(api.world) + 1)];
      var reached := api.Connect();
      if reached.Err? {
        NoClientNoCycle(api.env, before);
        cycle := cycle + 1;
        return;
      }
      var policies := GetManagedPolicies();
      ghost var start := State();
      assert (policies, start) == Opened(api.env, before);
      for i := 0 to |policies|
        invariant State() == ProcessAll(api.env, start, policies[..i]) && cycle == start.cycle
      {
        ProcessNext(api.env, start, policies, i);
        CollectOne(policies[i]);
      }
      TakeAll(policies);
      cycle := cycle + 1;
    }
  }
}
