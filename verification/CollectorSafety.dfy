/**
 Safety of the collector over every run: reads may fail, the cluster may change before any call, and the
 process may die and restart at any policy.
 */
module CollectorSafety {
  import opened Wrappers
  import opened Text
  import opened Kubernetes
  import opened Collector

  // ---- Keys ----

  predicate CollectedKind(kind: string) {
    kind == "Policy" || kind == "ClusterPolicy"
  }

  /** A key tells kind, namespace and name apart, because names hold no slash. */
  lemma PolicyKeyInjective(p: PolicyInfo, q: PolicyInfo)
    requires CollectedKind(p.kind) && CollectedKind(q.kind)
    requires PolicyKey(p) == PolicyKey(q)
    ensures Target(p) == Target(q) && p.kind == q.kind
  {
    KeySplits(p);
    KeySplits(q);
    assert Split(PolicyKey(p), '/') == Split(PolicyKey(q), '/');
  }

  lemma KeySplits(p: PolicyInfo)
    requires CollectedKind(p.kind)
    ensures Split(PolicyKey(p), '/') == if p.namespace != "" then [p.kind, p.namespace, p.name] else [p.kind, p.name]
  {
    assert '/' !in p.kind;
    if p.namespace != "" {
      var tail := p.namespace + "/" + p.name;
      assert PolicyKey(p) == p.kind + ['/'] + tail;
      SplitFirst(p.kind, '/', tail);
      SplitFirst(p.namespace, '/', p.name);
      assert tail == p.namespace + ['/'] + p.name;
    } else {
      assert PolicyKey(p) == p.kind + ['/'] + p.name;
      SplitFirst(p.kind, '/', p.name);
    }
  }

  ghost predicate DistinctKeys(infos: seq<PolicyInfo>) {
    forall i, j :: 0 <= i < j < |infos| ==> PolicyKey(infos[i]) != PolicyKey(infos[j])
  }

  /** What a listed policy looks like on the server. */
  ghost predicate ListedAt(c: Cluster, p: PolicyInfo) {
    && CollectedKind(p.kind)
    && Target(p) in c.objects
    && c.objects[Target(p)].content.labels == p.labels
    && "managed-by" in p.labels && p.labels["managed-by"] == "kyverno-watcher"
  }

  /** The call that lists the policies of this kind, in a cycle whose first list is call `lists`. */
  function ListCall(lists: nat, kind: string): nat {
    if kind == "ClusterPolicy" then lists + 1 else lists
  }

  /** The policy was on the server, as the record has it, when its kind was listed. */
  ghost predicate ListedBy(audit: seq<Cluster>, lists: nat, p: PolicyInfo) {
    lists + 2 <= |audit| && ListedAt(audit[ListCall(lists, p.kind)], p)
  }

  ghost predicate Managed(c: Cluster, k: ObjKey) {
    && k in c.objects && (k.resource.Policies? || k.resource.ClusterPolicies?)
    && var labels := c.objects[k].content.labels;
       "managed-by" in labels && labels["managed-by"] == "kyverno-watcher"
  }

  /** A listing of one kind holds each managed policy of that kind once. */
  ghost predicate ListsKind(c: Cluster, resource: Resource, infos: seq<PolicyInfo>) {
    && DistinctKeys(infos)
    && (forall p :: p in infos ==> ListedAt(c, p) && Target(p).resource == resource)
    && (forall k :: Managed(c, k) && k.resource == resource ==> exists p :: p in infos && Target(p) == k)
  }

  lemma InfoIsListed(c: Cluster, resource: Resource, item: (ObjKey, Stored))
    requires resource.Policies? || resource.ClusterPolicies?
    requires var found := Labelled(c, resource, "managed-by", "kyverno-watcher");
             item.0 in found && item.1 == found[item.0]
    ensures ListedAt(c, InfoOf(item)) && Target(InfoOf(item)) == item.0
  {
  }

  lemma ArrangedListsKind(c: Cluster, resource: Resource, order: seq<ObjKey>)
    requires resource.Policies? || resource.ClusterPolicies?
    requires Enumerates(order, Labelled(c, resource, "managed-by", "kyverno-watcher").Keys)
    ensures ListsKind(c, resource, Infos(Arrange(Labelled(c, resource, "managed-by", "kyverno-watcher"), order)))
  {
    var found := Labelled(c, resource, "managed-by", "kyverno-watcher");
    var items := Arrange(found, order);
    var infos := Infos(items);
    ArrangeLists(found, order);
    forall i | 0 <= i < |infos|
      ensures ListedAt(c, infos[i]) && Target(infos[i]) == Keys(items)[i] && Target(infos[i]).resource == resource
    {
      assert items[i] in items;
      InfoIsListed(c, resource, items[i]);
    }
    forall i, j | 0 <= i < j < |infos| ensures PolicyKey(infos[i]) != PolicyKey(infos[j]) {
      if PolicyKey(infos[i]) == PolicyKey(infos[j]) {
        PolicyKeyInjective(infos[i], infos[j]);
        assert false;
      }
    }
    forall k | Managed(c, k) && k.resource == resource ensures exists p :: p in infos && Target(p) == k {
      assert (k, found[k]) in items;
      var i :| 0 <= i < |items| && items[i] == (k, found[k]);
      assert infos[i] in infos && Target(infos[i]) == k;
    }
  }

  lemma ListKindLists(env: Env, w: World, resource: Resource)
    requires ValidEnv(env) && (resource.Policies? || resource.ClusterPolicies?)
    ensures var (infos, w') := ListKind(env, w, resource);
            && w' == Arrive(env, w)
            && if env.fault(Now(w)).Fine? then ListsKind(w'.cluster, resource, infos) else infos == []
  {
    var c := Arrive(env, w).cluster;
    var found := Labelled(c, resource, "managed-by", "kyverno-watcher");
    assert Enumerates(env.listing(Now(w), found.Keys), found.Keys);
    ArrangedListsKind(c, resource, env.listing(Now(w), found.Keys));
  }

  lemma ListKindIsSound(env: Env, w: World, resource: Resource)
    requires ValidEnv(env) && (resource.Policies? || resource.ClusterPolicies?)
    ensures var (infos, w') := ListKind(env, w, resource);
            && w' == Arrive(env, w)
            && DistinctKeys(infos)
            && forall p :: p in infos ==> ListedAt(w'.cluster, p) && Target(p).resource == resource
  {
    ListKindLists(env, w, resource);
  }

  /** The two lists do not depend on each other: each one that works holds every managed policy of its kind. */
  lemma ListsAreIndependent(env: Env, w: World, k: ObjKey)
    requires ValidEnv(env)
    ensures var (infos, w') := ListManaged(env, w);
            var t := if k.resource == ClusterPolicies then Now(w) + 1 else Now(w);
            && t < Now(w')
            && (env.fault(t).Fine? && Managed(w'.audit[t], k) ==> exists p :: p in infos && Target(p) == k)
  {
    var (policies, w1) := ListKind(env, w, Policies);
    var (clusterPolicies, w2) := ListKind(env, w1, ClusterPolicies);
    ListKindLists(env, w, Policies);
    ListKindLists(env, w1, ClusterPolicies);
    assert w2.audit[Now(w)] == w1.cluster && w2.audit[Now(w) + 1] == w2.cluster;
    if p :| p in policies && Target(p) == k {
      assert p in policies + clusterPolicies;
    }
    if p :| p in clusterPolicies && Target(p) == k {
      assert p in policies + clusterPolicies;
    }
  }

  lemma KindTellsResource()
    ensures forall p: PolicyInfo :: p.kind == "ClusterPolicy" <==> Target(p).resource == ClusterPolicies
  {
  }

  /** A cycle's policies have distinct keys, and each was on the server at the call that listed its kind. */
  lemma ListManagedIsSound(env: Env, w: World)
    requires ValidEnv(env)
    ensures var (infos, w') := ListManaged(env, w);
            && w.audit <= w'.audit && Now(w') == Now(w) + 2
            && DistinctKeys(infos)
            && forall p :: p in infos ==> ListedBy(w'.audit, Now(w), p)
  {
    var (policies, w1) := ListKind(env, w, Policies);
    var (clusterPolicies, w2) := ListKind(env, w1, ClusterPolicies);
    ListKindIsSound(env, w, Policies);
    ListKindIsSound(env, w1, ClusterPolicies);
    assert w2.audit[Now(w)] == w1.cluster && w2.audit[Now(w) + 1] == w2.cluster;
    ListsTogether(w2.audit, Now(w), policies, clusterPolicies);
  }

  /** Two lists of different kinds, put together. */
  lemma ListsTogether(audit: seq<Cluster>, lists: nat, policies: seq<PolicyInfo>, clusterPolicies: seq<PolicyInfo>)
    requires lists + 2 <= |audit| && DistinctKeys(policies) && DistinctKeys(clusterPolicies)
    requires forall p :: p in policies ==> ListedAt(audit[lists], p) && Target(p).resource == Policies
    requires forall p :: p in clusterPolicies ==> ListedAt(audit[lists + 1], p) && Target(p).resource == ClusterPolicies
    ensures DistinctKeys(policies + clusterPolicies)
    ensures forall p :: p in policies + clusterPolicies ==> ListedBy(audit, lists, p)
  {
    KindTellsResource();
    forall p, q | p in policies && q in clusterPolicies ensures PolicyKey(p) != PolicyKey(q) {
      if PolicyKey(p) == PolicyKey(q) {
        PolicyKeyInjective(p, q);
        assert false;
      }
    }
  }

  // ---- The tracking map is the history ----

  ghost predicate About(e: Event, key: string) {
    (e.Verdict? || e.Deletion?) && PolicyKey(e.info) == key
  }

  ghost predicate OrphanVerdict(e: Event, key: string) {
    About(e, key) && e.Verdict? && e.orphaned
  }

  /** The events after which a key starts afresh. */
  ghost predicate Resets(e: Event, key: string) {
    || e.Restarted?
    || (About(e, key) && ((e.Verdict? && !e.orphaned) || (e.Deletion? && e.ok)))
  }

  ghost function After(since: Option<nat>, e: Event, key: string): Option<nat> {
    if Resets(e, key) then None
    else if OrphanVerdict(e, key) && since.None? then Some(e.cycle)
    else since
  }

  /** The cycle of the verdict that began the key's current unbroken run of orphan verdicts. */
  ghost function PendingSince(h: seq<Event>, key: string): Option<nat> {
    if h == [] then None else After(PendingSince(h[..|h| - 1], key), h[|h| - 1], key)
  }

  lemma PendingAppend(h: seq<Event>, e: Event, key: string)
    ensures PendingSince(h + [e], key) == After(PendingSince(h, key), e, key)
  {
    assert (h + [e])[..|h|] == h;
  }

  ghost function Entry(tracked: map<string, nat>, key: string): Option<nat> {
    if key in tracked then Some(tracked[key]) else None
  }

  ghost predicate Tracks(st: GcState) {
    forall key :: Entry(st.tracked, key) == PendingSince(st.history, key)
  }

  /** Updating the map as `After` says keeps it equal to the history. */
  lemma TracksAppend(tracked: map<string, nat>, h: seq<Event>, e: Event, tracked': map<string, nat>)
    requires forall key :: Entry(tracked, key) == PendingSince(h, key)
    requires forall key :: Entry(tracked', key) == After(Entry(tracked, key), e, key)
    ensures forall key :: Entry(tracked', key) == PendingSince(h + [e], key)
  {
    forall key ensures Entry(tracked', key) == PendingSince(h + [e], key) {
      PendingAppend(h, e, key);
    }
  }

  lemma WeighTracks(env: Env, st: GcState, p: PolicyInfo)
    requires Tracks(st)
    ensures Tracks(Weigh(env, st, p))
  {
    var s1 := Weigh(env, st, p);
    TracksAppend(st.tracked, st.history, s1.history[|st.history|], s1.tracked);
  }

  lemma StrikeTracks(env: Env, st: GcState, p: PolicyInfo)
    requires Tracks(st)
    ensures Tracks(Strike(env, st, p))
  {
    var s1 := Strike(env, st, p);
    TracksAppend(st.tracked, st.history, s1.history[|st.history|], s1.tracked);
  }

  /** The treatment of a policy keeps the map equal to the history after each of its actions. */
  lemma ProcessTracks(env: Env, st: GcState, p: PolicyInfo, actions: nat)
    requires Tracks(st)
    ensures Tracks(ProcessTo(env, st, p, actions))
  {
    var s1 := Weigh(env, st, p);
    var s2 := Weigh(env, s1, p);
    WeighTracks(env, st, p);
    WeighTracks(env, s1, p);
    StrikeTracks(env, s2, p);
  }

  lemma ProcessFrame(env: Env, st: GcState, p: PolicyInfo, actions: nat)
    ensures var st' := ProcessTo(env, st, p, actions);
            && (forall key :: key != PolicyKey(p) ==> Entry(st'.tracked, key) == Entry(st.tracked, key))
            && Entry(st'.tracked, PolicyKey(p)) in {None, Entry(st.tracked, PolicyKey(p)), Some(st.cycle)}
  {
  }

  /** `st'` is `st` later in the same cycle. */
  ghost predicate Extends(st: GcState, st': GcState) {
    && st'.cycle == st.cycle && st.world.audit <= st'.world.audit && st.history <= st'.history
    && forall m :: |st.history| <= m < |st'.history| ==> st'.history[m].Verdict? || st'.history[m].Deletion?
  }

  lemma ExtendsTransitive(a: GcState, b: GcState, c: GcState)
    requires Extends(a, b) && Extends(b, c)
    ensures Extends(a, c)
  {
  }

  lemma WeighExtends(env: Env, st: GcState, p: PolicyInfo)
    ensures Extends(st, Weigh(env, st, p))
  {
  }

  lemma StrikeExtends(env: Env, st: GcState, p: PolicyInfo)
    ensures Extends(st, Strike(env, st, p))
  {
  }

  lemma ProcessExtends(env: Env, st: GcState, p: PolicyInfo, actions: nat)
    ensures Extends(st, ProcessTo(env, st, p, actions))
  {
    var s1 := Weigh(env, st, p);
    var s2 := Weigh(env, s1, p);
    var s3 := Strike(env, s2, p);
    WeighExtends(env, st, p);
    WeighExtends(env, s1, p);
    StrikeExtends(env, s2, p);
    ExtendsTransitive(st, s1, s2);
    ExtendsTransitive(st, s2, s3);
  }

  lemma {:induction false} PendingWitness(h: seq<Event>, key: string)
    requires PendingSince(h, key).Some?
    ensures exists j :: 0 <= j < |h| && Began(h, j, key, PendingSince(h, key).value)
  {
    var n := |h| - 1;
    var h0, before := h[..n], PendingSince(h[..n], key);
    if before.Some? {
      PendingWitness(h0, key);
      var j :| 0 <= j < n && Began(h0, j, key, before.value);
      BeganAppend(h0, j, key, before.value, h[n]);
      TakeNext(h, n);
      TakeAll(h);
      assert Began(h, j, key, before.value);
    } else {
      assert Began(h, n, key, h[n].cycle);
    }
  }

  /** At `j` stands an orphan verdict for the key, given in cycle `c`, and nothing since has reset it. */
  ghost predicate Began(h: seq<Event>, j: nat, key: string, c: nat)
    requires j < |h|
  {
    && OrphanVerdict(h[j], key) && h[j].cycle == c
    && forall m :: j < m < |h| ==> !Resets(h[m], key)
  }

  // ---- Grace ----

  /** Two orphan verdicts right before the deletion, and one in an earlier cycle with nothing in between to reset it. */
  ghost predicate Justified(h: seq<Event>, i: nat)
    requires i < |h| && h[i].Deletion?
  {
    && i >= 3
    && h[i - 1].Verdict? && h[i - 1].orphaned && h[i - 1].info == h[i].info && h[i - 1].cycle == h[i].cycle
    && h[i - 2].Verdict? && h[i - 2].orphaned && h[i - 2].info == h[i].info && h[i - 2].cycle == h[i].cycle
    && exists j :: 0 <= j < i - 2 && h[j].Verdict? && h[j].cycle < h[i].cycle
                   && Began(h[..i], j, PolicyKey(h[i].info), h[j].cycle)
  }

  ghost predicate AllJustified(h: seq<Event>) {
    forall i :: 0 <= i < |h| && h[i].Deletion? ==> Justified(h, i)
  }

  lemma JustifiedAppend(h: seq<Event>, e: Event)
    requires AllJustified(h)
    requires e.Deletion? ==> Justified(h + [e], |h|)
    ensures AllJustified(h + [e])
  {
    var h' := h + [e];
    forall i | 0 <= i < |h'| && h'[i].Deletion? ensures Justified(h', i) {
      if i < |h| {
        assert Justified(h, i);
        assert h'[..i] == h[..i];
      }
    }
  }

  /** A deletion made when the key was already tracked, by an earlier cycle, is justified. */
  lemma DeletionJustified(h: seq<Event>, v1: Event, v2: Event, d: Event)
    requires v1.Verdict? && v1.orphaned && v2.Verdict? && v2.orphaned && d.Deletion?
    requires v1.info == v2.info == d.info && v1.cycle == v2.cycle == d.cycle
    requires PendingSince(h, PolicyKey(d.info)).Some? && PendingSince(h, PolicyKey(d.info)).value < d.cycle
    ensures Justified(h + [v1] + [v2] + [d], |h| + 2)
  {
    var key := PolicyKey(d.info);
    PendingWitness(h, key);
    var j :| 0 <= j < |h| && Began(h, j, key, PendingSince(h, key).value);
    BeganAppend(h, j, key, h[j].cycle, v1);
    BeganAppend(h + [v1], j, key, h[j].cycle, v2);
    var before := h + [v1] + [v2];
    var h', i := before + [d], |before|;
    assert h'[..i] == before;
    assert h'[j] == h[j] && h'[i] == d && h'[i - 1] == v2 && h'[i - 2] == v1;
  }

  lemma BeganAppend(h: seq<Event>, j: nat, key: string, c: nat, e: Event)
    requires j < |h| && Began(h, j, key, c) && !Resets(e, key)
    ensures Began(h + [e], j, key, c)
  {
  }

  lemma ProcessJustifies(env: Env, st: GcState, p: PolicyInfo, actions: nat)
    requires Tracks(st) && AllJustified(st.history)
    requires PolicyKey(p) in st.tracked ==> st.tracked[PolicyKey(p)] < st.cycle
    ensures AllJustified(ProcessTo(env, st, p, actions).history)
  {
    var s1 := Weigh(env, st, p);
    var s2 := Weigh(env, s1, p);
    var s3 := Strike(env, s2, p);
    var v1, v2 := s1.history[|st.history|], s2.history[|s1.history|];
    JustifiedAppend(st.history, v1);
    JustifiedAppend(s1.history, v2);
    if PolicyKey(p) in st.tracked && v1.orphaned && v2.orphaned {
      StrikeJustified(st, s2.history, v1, v2, s3.history[|s2.history|]);
    }
  }

  lemma StrikeJustified(st: GcState, h: seq<Event>, v1: Event, v2: Event, d: Event)
    requires Tracks(st) && AllJustified(h) && h == st.history + [v1] + [v2]
    requires v1.Verdict? && v1.orphaned && v2.Verdict? && v2.orphaned && d.Deletion?
    requires v1.info == v2.info == d.info && v1.cycle == v2.cycle == d.cycle
    requires PolicyKey(d.info) in st.tracked && st.tracked[PolicyKey(d.info)] < d.cycle
    ensures AllJustified(h + [d])
  {
    assert Entry(st.tracked, PolicyKey(d.info)) == PendingSince(st.history, PolicyKey(d.info));
    DeletionJustified(st.history, v1, v2, d);
    JustifiedAppend(h, d);
  }

  // ---- Evidence ----

  /** No artifact is called `x`, or no pod whose name begins as that of its watcher is running or about to. */
  ghost predicate Unowned(c: Cluster, x: string) {
    || (forall n :: n in c.artifacts ==> n.name != x)
    || (forall n :: n in c.pods && "kyverno-artifact-manager-" + x <= n.name ==>
          c.pods[n].phase !in {PodPhase.Running, PodPhase.Pending})
  }

  /** The same for policies that name no artifact: no artifact at all, or no such pod under the legacy label. */
  ghost predicate UnownedLegacy(c: Cluster) {
    || (forall n :: n !in c.artifacts)
    || (forall n :: n in c.pods && "app" in c.pods[n].labels && c.pods[n].labels["app"] == "kyverno-artifact-manager"
                    && "kyverno-artifact-manager-" <= n.name ==>
          c.pods[n].phase !in {PodPhase.Running, PodPhase.Pending})
  }

  /** What a verdict of "orphaned" is about; a policy without a version is never orphaned. */
  ghost predicate OwnerMissing(c: Cluster, labels: Labels) {
    && "policy-version" in labels
    && if "artifact-name" in labels then Unowned(c, labels["artifact-name"]) else UnownedLegacy(c)
  }

  lemma WatcherMeans(c: Cluster, x: string)
    ensures Unowned(c, x) <==> !HasArtifact(c, x) || !HasWatcher(c, x)
  {
    assert forall n :: n in c.pods && HasPrefix(n.name, POD_PREFIX + x) ==> "kyverno-artifact-manager-" + x <= n.name;
    if n :| n in c.pods && "kyverno-artifact-manager-" + x <= n.name
            && c.pods[n].phase in {PodPhase.Running, PodPhase.Pending} {
      assert HasPrefix(n.name, POD_PREFIX + x) && Active(c.pods[n]);
    }
  }

  lemma LegacyWatcherMeans(c: Cluster)
    ensures UnownedLegacy(c) <==> !HasLegacyWatcher(c) || c.artifacts == map[]
  {
    var pods := LabelledPods(c, "app", "kyverno-artifact-manager");
    if n :| n in c.pods && "app" in c.pods[n].labels && c.pods[n].labels["app"] == "kyverno-artifact-manager"
            && "kyverno-artifact-manager-" <= n.name && c.pods[n].phase in {PodPhase.Running, PodPhase.Pending} {
      assert n in pods && HasPrefix(n.name, POD_PREFIX) && Active(pods[n]);
    }
    assert c.artifacts == map[] <==> forall n :: n !in c.artifacts;
  }

  /** The two questions of a verdict, put to one cluster, ask whether the owner is missing. */
  lemma OwnerMissingMeans(c: Cluster, labels: Labels)
    ensures OwnerMissing(c, labels) <==>
            && "policy-version" in labels
            && if "artifact-name" in labels
               then !HasArtifact(c, labels["artifact-name"]) || !HasWatcher(c, labels["artifact-name"])
               else !HasLegacyWatcher(c) || c.artifacts == map[]
  {
    if "artifact-name" in labels {
      WatcherMeans(c, labels["artifact-name"]);
    } else {
      LegacyWatcherMeans(c);
    }
  }

  lemma JudgeSeesOwnerMissing(env: Env, w: World, labels: Labels)
    ensures var (orphaned, w') := Judge(env, w, labels);
            && w.audit <= w'.audit
            && (orphaned ==> exists t :: Now(w) <= t < Now(w') && OwnerMissing(w'.audit[t], labels))
  {
    var (orphaned, w') := Judge(env, w, labels);
    if orphaned {
      OwnerMissingMeans(w'.audit[Now(w') - 1], labels);
      assert OwnerMissing(w'.audit[Now(w') - 1], labels);
    }
  }

  /** A verdict that met a failing read is never "orphaned". */
  lemma FailedReadSparesPolicy(env: Env, w: World, labels: Labels, t: nat)
    requires Now(w) <= t < Now(Judge(env, w, labels).1) && !env.fault(t).Fine?
    ensures !Judge(env, w, labels).0
  {
    var (orphaned, w') := Judge(env, w, labels);
    assert Now(w') <= Now(w) + 2;
    assert t == Now(w) || t == Now(w) + 1;
  }

  /** Call `t` was one of this verdict's own reads, and saw the owner missing. */
  ghost predicate SawOwnerMissing(audit: seq<Cluster>, e: Event, t: nat)
    requires e.Verdict?
  {
    e.from <= t < e.upTo <= |audit| && OwnerMissing(audit[t], e.info.labels)
  }

  /** Cycle `cycle` set out at `l` and was still under way just before `i`. */
  ghost predicate UnderWay(h: seq<Event>, i: nat, l: nat, cycle: nat) {
    && l < i <= |h| && h[l].Started? && h[l].cycle == cycle
    && forall m :: l < m < i ==> h[m].Verdict? || h[m].Deletion?
  }

  /** The lists of the cycle under way at `i` were made before call `before`, and one of them held the policy. */
  ghost predicate ListedThen(h: seq<Event>, i: nat, audit: seq<Cluster>, p: PolicyInfo, cycle: nat, before: nat) {
    exists l: nat :: UnderWay(h, i, l, cycle) && ListedBy(audit, h[l].lists, p) && h[l].lists + 2 <= before
  }

  ghost predicate Current(st: GcState, p: PolicyInfo) {
    ListedThen(st.history, |st.history|, st.world.audit, p, st.cycle, |st.world.audit|)
  }

  lemma CurrentExtends(st: GcState, st': GcState, p: PolicyInfo)
    requires Extends(st, st') && Current(st, p)
    ensures ListedThen(st'.history, |st'.history|, st'.world.audit, p, st.cycle, |st.world.audit|)
    ensures Current(st', p)
  {
    var l: nat :| UnderWay(st.history, |st.history|, l, st.cycle) && ListedBy(st.world.audit, st.history[l].lists, p)
             && st.history[l].lists + 2 <= |st.world.audit|;
    var call := ListCall(st.history[l].lists, p.kind);
    assert st'.history[l] == st.history[l] && st'.world.audit[call] == st.world.audit[call];
    assert UnderWay(st'.history, |st'.history|, l, st.cycle);
  }

  /** A verdict and a deletion concern a policy listed in their own cycle; an orphan verdict saw the owner missing. */
  ghost predicate Backed(h: seq<Event>, i: nat, audit: seq<Cluster>)
    requires i < |h|
  {
    var e := h[i];
    && (e.Verdict? ==>
          && e.from <= e.upTo <= |audit|
          && ListedThen(h, i, audit, e.info, e.cycle, e.from)
          && (e.orphaned ==> exists t :: SawOwnerMissing(audit, e, t)))
    && (e.Deletion? ==> ListedThen(h, i, audit, e.info, e.cycle, |audit|))
  }

  ghost predicate AllBacked(st: GcState) {
    && (forall i :: 0 <= i < |st.history| ==> Backed(st.history, i, st.world.audit))
    && (forall a, b :: 0 <= a < b < |st.history| && st.history[a].Verdict? && st.history[b].Verdict? ==>
          st.history[a].upTo <= st.history[b].from)
  }

  lemma ListedThenLater(
      h: seq<Event>, i: nat, audit: seq<Cluster>, p: PolicyInfo, cycle: nat, before: nat,
      h': seq<Event>, audit': seq<Cluster>, before': nat)
    requires i <= |h| && ListedThen(h, i, audit, p, cycle, before)
    requires h <= h' && audit <= audit' && before <= before'
    ensures ListedThen(h', i, audit', p, cycle, before')
  {
    var l: nat :| UnderWay(h, i, l, cycle) && ListedBy(audit, h[l].lists, p) && h[l].lists + 2 <= before;
    assert UnderWay(h', i, l, cycle) && h'[l] == h[l];
    assert audit'[ListCall(h[l].lists, p.kind)] == audit[ListCall(h[l].lists, p.kind)];
  }

  lemma BackedLater(h: seq<Event>, i: nat, audit: seq<Cluster>, h': seq<Event>, audit': seq<Cluster>)
    requires i < |h| && Backed(h, i, audit) && h <= h' && audit <= audit'
    ensures Backed(h', i, audit')
  {
    var e := h[i];
    if e.Verdict? {
      ListedThenLater(h, i, audit, e.info, e.cycle, e.from, h', audit', e.from);
      if e.orphaned {
        var t :| SawOwnerMissing(audit, e, t);
        assert SawOwnerMissing(audit', e, t);
      }
    } else if e.Deletion? {
      ListedThenLater(h, i, audit, e.info, e.cycle, |audit|, h', audit', |audit'|);
    }
  }

  lemma AllBackedLater(st: GcState, w: World)
    requires AllBacked(st) && st.world.audit <= w.audit
    ensures AllBacked(st.(world := w))
  {
    forall i | 0 <= i < |st.history| ensures Backed(st.history, i, w.audit) {
      BackedLater(st.history, i, st.world.audit, st.history, w.audit);
    }
  }

  lemma AllBackedAppend(st: GcState, st': GcState, e: Event)
    requires AllBacked(st) && st'.history == st.history + [e] && st.world.audit <= st'.world.audit
    requires Backed(st'.history, |st.history|, st'.world.audit)
    requires e.Verdict? ==> Now(st.world) <= e.from
    ensures AllBacked(st')
  {
    forall i | 0 <= i < |st'.history| ensures Backed(st'.history, i, st'.world.audit) {
      if i < |st.history| {
        BackedLater(st.history, i, st.world.audit, st'.history, st'.world.audit);
      }
    }
    forall a, b | 0 <= a < b < |st'.history| && st'.history[a].Verdict? && st'.history[b].Verdict?
      ensures st'.history[a].upTo <= st'.history[b].from
    {
      assert Backed(st.history, a, st.world.audit);
    }
  }

  lemma WeighBacked(env: Env, st: GcState, p: PolicyInfo)
    requires AllBacked(st) && Current(st, p)
    ensures AllBacked(Weigh(env, st, p))
  {
    var s1 := Weigh(env, st, p);
    var e := s1.history[|st.history|];
    JudgeSeesOwnerMissing(env, st.world, p.labels);
    ListedThenLater(st.history, |st.history|, st.world.audit, p, st.cycle, e.from, s1.history, s1.world.audit, e.from);
    if e.orphaned {
      var t :| Now(st.world) <= t < Now(s1.world) && OwnerMissing(s1.world.audit[t], p.labels);
      assert SawOwnerMissing(s1.world.audit, e, t);
    }
    AllBackedAppend(st, s1, e);
  }

  lemma StrikeBacked(env: Env, st: GcState, p: PolicyInfo)
    requires AllBacked(st) && Current(st, p)
    ensures AllBacked(Strike(env, st, p))
  {
    var s1 := Strike(env, st, p);
    ListedThenLater(st.history, |st.history|, st.world.audit, p, st.cycle, |st.world.audit|,
                    s1.history, s1.world.audit, |s1.world.audit|);
    AllBackedAppend(st, s1, s1.history[|st.history|]);
  }

  lemma ProcessBacked(env: Env, st: GcState, p: PolicyInfo, actions: nat)
    requires AllBacked(st) && Current(st, p)
    ensures AllBacked(ProcessTo(env, st, p, actions))
  {
    var s1 := Weigh(env, st, p);
    var s2 := Weigh(env, s1, p);
    WeighBacked(env, st, p);
    WeighExtends(env, st, p);
    CurrentExtends(st, s1, p);
    WeighBacked(env, s1, p);
    WeighExtends(env, s1, p);
    CurrentExtends(s1, s2, p);
    StrikeBacked(env, s2, p);
  }

  // ---- Every run ----

  /** Holds between cycles. */
  ghost predicate Safe(st: GcState) {
    && Tracks(st)
    && AllJustified(st.history)
    && AllBacked(st)
    && forall key :: key in st.tracked ==> st.tracked[key] < st.cycle
  }

  /** Holds at every moment of a cycle that set out in `st`. */
  ghost predicate Inner(st: GcState, st': GcState) {
    Tracks(st') && AllJustified(st'.history) && AllBacked(st') && Extends(st, st')
  }

  /** Holds within such a cycle, once the policies `done` have been processed. */
  ghost predicate Midway(st: GcState, done: seq<PolicyInfo>, st': GcState) {
    && Inner(st, st')
    && (forall key :: key in st'.tracked ==> st'.tracked[key] <= st.cycle)
    && (forall key :: Untouched(done, key) ==> Entry(st'.tracked, key) == Entry(st.tracked, key))
  }

  ghost predicate Untouched(done: seq<PolicyInfo>, key: string) {
    forall p :: p in done ==> PolicyKey(p) != key
  }

  lemma MidwayStarts(st: GcState, infos: seq<PolicyInfo>)
    requires Safe(st)
    ensures infos[..0] == [] && Midway(st, infos[..0], st)
  {
  }

  lemma MidwayExtends(st: GcState, infos: seq<PolicyInfo>, i: nat, mid: GcState, st': GcState)
    requires i < |infos| && Midway(st, infos[..i], mid) && Inner(st, st')
    requires forall key :: key != PolicyKey(infos[i]) ==> Entry(st'.tracked, key) == Entry(mid.tracked, key)
    requires Entry(st'.tracked, PolicyKey(infos[i])) in {None, Entry(mid.tracked, PolicyKey(infos[i])), Some(st.cycle)}
    ensures Midway(st, infos[..i + 1], st')
  {
    TakeNext(infos, i);
    forall key | key in st'.tracked ensures st'.tracked[key] <= st.cycle {
      assert Entry(st'.tracked, key) == Some(st'.tracked[key]);
    }
    forall key | Untouched(infos[..i + 1], key) ensures Entry(st'.tracked, key) == Entry(st.tracked, key) {
      assert infos[i] in infos[..i + 1];
      assert Untouched(infos[..i], key);
    }
  }

  /** Every moment in the treatment of the next policy. */
  lemma NextIsInner(env: Env, st: GcState, infos: seq<PolicyInfo>, i: nat, mid: GcState, actions: nat)
    requires Safe(st) && DistinctKeys(infos) && i < |infos| && Midway(st, infos[..i], mid)
    requires Current(st, infos[i])
    ensures Inner(st, ProcessTo(env, mid, infos[i], actions))
  {
    var p := infos[i];
    EarlierUntouched(infos, i);
    assert Entry(mid.tracked, PolicyKey(p)) == Entry(st.tracked, PolicyKey(p));
    CurrentExtends(st, mid, p);
    ProcessTracks(env, mid, p, actions);
    ProcessJustifies(env, mid, p, actions);
    ProcessBacked(env, mid, p, actions);
    ProcessExtends(env, mid, p, actions);
    ExtendsTransitive(st, mid, ProcessTo(env, mid, p, actions));
  }

  lemma ProcessStep(env: Env, st: GcState, infos: seq<PolicyInfo>, i: nat, mid: GcState)
    requires Safe(st) && DistinctKeys(infos) && i < |infos| && Midway(st, infos[..i], mid)
    requires Current(st, infos[i])
    ensures Midway(st, infos[..i + 1], Process(env, mid, infos[i]))
  {
    NextIsInner(env, st, infos, i, mid, 3);
    ProcessFrame(env, mid, infos[i], 3);
    MidwayExtends(st, infos, i, mid, Process(env, mid, infos[i]));
  }

  lemma {:induction false} ProcessAllIsSafe(env: Env, st: GcState, infos: seq<PolicyInfo>, n: nat)
    requires Safe(st) && DistinctKeys(infos) && n <= |infos|
    requires forall p :: p in infos ==> Current(st, p)
    ensures Midway(st, infos[..n], ProcessAll(env, st, infos[..n]))
  {
    if n == 0 {
      MidwayStarts(st, infos);
    } else {
      ProcessAllIsSafe(env, st, infos, n - 1);
      ProcessStep(env, st, infos, n - 1, ProcessAll(env, st, infos[..n - 1]));
      ProcessNext(env, st, infos, n - 1);
    }
  }

  lemma EarlierUntouched(infos: seq<PolicyInfo>, n: nat)
    requires DistinctKeys(infos) && n < |infos|
    ensures Untouched(infos[..n], PolicyKey(infos[n]))
  {
  }

  lemma CycleEndsSafe(st: GcState, done: seq<PolicyInfo>, st': GcState)
    requires Midway(st, done, st')
    ensures Safe(st'.(cycle := st'.cycle + 1))
  {
  }

  lemma RestartIsSafe(st: GcState)
    requires AllJustified(st.history) && AllBacked(st)
    ensures Safe(Restart(st))
  {
    JustifiedAppend(st.history, Restarted);
    AllBackedAppend(st, Restart(st), Restarted);
    forall key ensures PendingSince(st.history + [Restarted], key) == None {
      PendingAppend(st.history, Restarted, key);
    }
  }

  /** A cycle that has set out is safe, whatever of its opening calls have been made. */
  lemma StartedIsSafe(st: GcState, w: World)
    requires Safe(st) && st.world.audit <= w.audit
    ensures Safe(OpenedIn(st, w))
  {
    var e := Started(st.cycle, Now(st.world) + 1);
    JustifiedAppend(st.history, e);
    TracksAppend(st.tracked, st.history, e, st.tracked);
    AllBackedAppend(st, OpenedIn(st, w), e);
  }

  lemma BeginIsSound(env: Env, w: World)
    requires ValidEnv(env)
    ensures var (infos, w') := Begin(env, w);
            && w.audit <= w'.audit
            && DistinctKeys(infos)
            && forall p :: p in infos ==> ListedBy(w'.audit, Now(w) + 1, p)
  {
    var (reached, w1) := Reach(env, w);
    assert w1 == Arrive(env, w) && Now(w1) == Now(w) + 1;
    if reached.Ok? {
      ListManagedIsSound(env, w1);
    }
  }

  lemma OpenedIsSafe(env: Env, st: GcState)
    requires ValidEnv(env) && Safe(st)
    ensures var (infos, s) := Opened(env, st);
            Safe(s) && DistinctKeys(infos) && forall p :: p in infos ==> Current(s, p)
  {
    var (infos, w) := Begin(env, st.world);
    BeginIsSound(env, st.world);
    StartedIsSafe(st, w);
    forall p | p in infos ensures Current(OpenedIn(st, w), p) {
      StartedListing(st, w, p);
    }
  }

  lemma StartedListing(st: GcState, w: World, p: PolicyInfo)
    requires ListedBy(w.audit, Now(st.world) + 1, p)
    ensures Current(OpenedIn(st, w), p)
  {
    var h := OpenedIn(st, w).history;
    assert UnderWay(h, |h|, |st.history|, st.cycle);
  }

  lemma CycleIsSafe(env: Env, st: GcState)
    requires ValidEnv(env) && Safe(st)
    ensures Safe(Cycle(env, st))
  {
    OpenedIsSafe(env, st);
    var (infos, s) := Opened(env, st);
    ProcessAllIsSafe(env, s, infos, |infos|);
    TakeAll(infos);
    CycleEndsSafe(s, infos, ProcessAll(env, s, infos));
  }

  lemma {:induction false} ArrivalsGrow(env: Env, w: World, n: nat)
    ensures w.audit <= Arrivals(env, w, n).audit
  {
    if n > 0 {
      ArrivalsGrow(env, w, n - 1);
    }
  }

  lemma PartlyOpenedIsSafe(env: Env, st: GcState, calls: nat)
    requires Safe(st)
    ensures Safe(PartlyOpened(env, st, calls))
  {
    ArrivalsAreSafe(env, st, Min(calls, OpeningCalls(env, st.world)));
  }

  lemma ArrivalsAreSafe(env: Env, st: GcState, n: nat)
    requires Safe(st)
    ensures Safe(OpenedIn(st, Arrivals(env, st.world, n)))
  {
    ArrivalsGrow(env, st.world, n);
    StartedIsSafe(st, Arrivals(env, st.world, n));
  }

  /** At every moment of a cycle, even within a policy and between two reads, the invariant holds but for the dates. */
  lemma PartwayIsInner(env: Env, st: GcState, policies: nat, actions: nat, reading: bool)
    requires ValidEnv(env) && Safe(st)
    ensures Inner(Opened(env, st).1, Partway(env, st, policies, actions, reading))
  {
    OpenedIsSafe(env, st);
    var (infos, s) := Opened(env, st);
    var n := Min(policies, |infos|);
    ProcessAllIsSafe(env, s, infos, n);
    if n < |infos| {
      var s1 := ProcessAll(env, s, infos[..n]);
      assert infos[n] in infos;
      NextIsInner(env, s, infos, n, s1, actions);
      MidReadIsInner(env, s, ProcessTo(env, s1, infos[n], actions), ProcessTo(env, s1, infos[n], actions + 1));
    }
  }

  lemma MidReadIsInner(env: Env, st: GcState, st': GcState, next: GcState)
    requires Inner(st, st')
    ensures Inner(st, MidRead(env, st', next))
  {
    AllBackedLater(st', Arrive(env, st'.world));
  }

  lemma {:induction false} RunIsSafe(env: Env, c: Cluster, choices: seq<Choice>)
    requires ValidEnv(env)
    ensures Safe(Run(env, Start(c), choices))
  {
    if choices != [] {
      var n := |choices| - 1;
      RunIsSafe(env, c, choices[..n]);
      var st := Run(env, Start(c), choices[..n]);
      match choices[n]
      case FullCycle =>
        CycleIsSafe(env, st);
      case DiesListing(calls) =>
        PartlyOpenedIsSafe(env, st, calls);
        RestartIsSafe(PartlyOpened(env, st, calls));
      case DiesAfter(policies, actions, reading) =>
        PartwayIsInner(env, st, policies, actions, reading);
        RestartIsSafe(Partway(env, st, policies, actions, reading));
    }
  }

  ghost predicate EntryIsPending(st: GcState, key: string) {
    Entry(st.tracked, key) == PendingSince(st.history, key)
  }

  /**
   In every run, after every cycle and at every moment within the next one, a key is tracked exactly when its history
   ends in an unbroken run of orphan verdicts, and the time stored with it is the cycle of the first of them.
   */
  lemma TrackingIsHistory(
      env: Env, c: Cluster, choices: seq<Choice>, policies: nat, actions: nat, reading: bool, key: string)
    requires ValidEnv(env)
    ensures EntryIsPending(Run(env, Start(c), choices), key)
    ensures EntryIsPending(Partway(env, Run(env, Start(c), choices), policies, actions, reading), key)
  {
    RunIsSafe(env, c, choices);
    PartwayIsInner(env, Run(env, Start(c), choices), policies, actions, reading);
  }

  /** The three moments behind a deletion: one in an earlier cycle, two in the deleting cycle. */
  ghost predicate ThreeMoments(st: GcState, i: nat, j: nat, t0: nat, t1: nat, t2: nat)
    requires 2 <= i < |st.history| && j < i - 2
  {
    var h := st.history;
    && t0 < t1 < t2
    && h[j].Verdict? && h[i - 2].Verdict? && h[i - 1].Verdict?
    && h[j].cycle < h[i - 2].cycle
    && PolicyKey(h[j].info) == PolicyKey(h[i - 2].info)
    && SawOwnerMissing(st.world.audit, h[j], t0)
    && SawOwnerMissing(st.world.audit, h[i - 2], t1)
    && SawOwnerMissing(st.world.audit, h[i - 1], t2)
  }

  /** Before the deleting cycle's verdicts, its own lists found the policy, with the labels that were then judged. */
  ghost predicate ListedFirst(st: GcState, i: nat)
    requires 2 <= i < |st.history|
  {
    var e := st.history[i - 2];
    e.Verdict? && ListedThen(st.history, i - 2, st.world.audit, e.info, e.cycle, e.from)
  }

  /**
   Grace, over every run: a deletion is issued only after an orphan verdict for the same key in an earlier cycle
   and two in the deleting cycle, with no contrary verdict, successful deletion or restart in between; the three
   verdicts rest on three successive moments at which the owner was missing; and the object carried the
   managed-by label when the deleting cycle listed it.
   */
  lemma GraceSafety(env: Env, c: Cluster, choices: seq<Choice>)
    requires ValidEnv(env)
    ensures var st := Run(env, Start(c), choices);
            forall i :: 0 <= i < |st.history| && st.history[i].Deletion? ==> Graceful(st, i)
  {
    RunIsSafe(env, c, choices);
    var st := Run(env, Start(c), choices);
    forall i | 0 <= i < |st.history| && st.history[i].Deletion? ensures Graceful(st, i) {
      SafeDeletion(st, i);
    }
  }

  ghost predicate Graceful(st: GcState, i: nat)
    requires i < |st.history| && st.history[i].Deletion?
  {
    && Justified(st.history, i)
    && ListedFirst(st, i)
    && exists j: nat, t0: nat, t1: nat, t2: nat :: 0 <= j < i - 2 && ThreeMoments(st, i, j, t0, t1, t2)
  }

  lemma SafeDeletion(st: GcState, i: nat)
    requires AllJustified(st.history) && AllBacked(st) && i < |st.history| && st.history[i].Deletion?
    ensures Graceful(st, i)
  {
    var h, audit := st.history, st.world.audit;
    assert Justified(h, i);
    var j :| 0 <= j < i - 2 && h[j].Verdict? && h[j].cycle < h[i].cycle
             && Began(h[..i], j, PolicyKey(h[i].info), h[j].cycle);
    assert Backed(h, j, audit) && Backed(h, i - 2, audit) && Backed(h, i - 1, audit);
    var t0 :| SawOwnerMissing(audit, h[j], t0);
    var t1 :| SawOwnerMissing(audit, h[i - 2], t1);
    var t2 :| SawOwnerMissing(audit, h[i - 1], t2);
    assert ThreeMoments(st, i, j, t0, t1, t2);
  }
}
