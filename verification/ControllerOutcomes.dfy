/** What one reconciliation does to the cluster, said without the reconciler's own helpers. */
module ControllerOutcomes {
  import opened Wrappers
  import opened Kubernetes
  import opened Controller
  import opened ControllerRuns

  /** The pod that belongs to a request: in the artifact's own namespace, under its name with a prefix. */
  ghost function WatcherOf(req: NsName): NsName {
    NsName(req.namespace, "kyverno-artifact-manager-" + req.name)
  }

  /** A fresh watcher pod for this artifact. */
  ghost predicate IsWatcherPod(p: Pod, name: string, cfg: Settings) {
    && p.labels == map["app.kubernetes.io/name" := "kyverno-artifact-watcher",
                       "app.kubernetes.io/instance" := name,
                       "app.kubernetes.io/managed-by" := "kyverno-artifact-operator",
                       "app.kubernetes.io/component" := "watcher"]
    && p.serviceAccount == cfg.serviceAccount
    && |p.containers| == 1
    && p.containers[0].name == "watcher" && p.containers[0].image == cfg.watcherImage
    && p.containers[0].args == ["-watcher"]
    && p.phase == PodPhase.Pending && !p.terminating
  }

  /** The pod at `key` was marked for deletion, and nothing else happened. */
  ghost predicate OnlyMarked(c: Cluster, c': Cluster, key: NsName) {
    && key in c.pods
    && c' == c.(pods := c.pods[key := c.pods[key].(terminating := true)])
  }

  /** A pod at `key` came about, and nothing else happened. */
  ghost predicate OnlyCreated(c: Cluster, c': Cluster, key: NsName) {
    && key !in c.pods && key in c'.pods
    && c' == c.(pods := c.pods[key := c'.pods[key]])
  }

  /** Every case of a reconciliation over a quiet cluster. */
  lemma QuietReconcile(env: Env, w: World, cfg: Settings, req: NsName)
    requires Quiet(env, Now(w))
    ensures var r, c := Act(env, w, cfg, req), w.cluster;
            var c', key := r.world.cluster, WatcherOf(req);
            if req !in c.artifacts then c' == c && r.outcome == Gone
            else if key !in c.pods then
              if c.artifacts[req].url in {None, Some("")} then c' == c && r.outcome.Errored?
              else
                && OnlyCreated(c, c', key) && IsWatcherPod(c'.pods[key], req.name, cfg) && r.outcome == Done
                && c'.pods[key].containers[0].env == EnvOf(req.name, c.artifacts[req], cfg)
            else if c.pods[key].phase in {PodPhase.Failed, PodPhase.Succeeded} then c' == c && r.outcome == Requeue
            else if Drifted(c.pods[key], c.artifacts[req], cfg) then OnlyMarked(c, c', key) && r.outcome == Requeue
            else c' == c && r.outcome == Done
  {
    var w1 := Arrive(env, w);
    var w2 := Arrive(env, w1);
    assert w1.cluster == w.cluster && env.fault(Now(w)).Fine?;
    assert w2.cluster == w.cluster && env.fault(Now(w1)).Fine?;
    assert Arrive(env, w2).cluster == w.cluster && env.fault(Now(w2)).Fine?;
  }

  /** Reading the list back: the last value of a name that is not empty counts; names without one are missing. */
  lemma {:induction false} EnvMapIsExact(env: seq<EnvVar>, x: string)
    ensures x in EnvMap(env) <==> Given(env, x)
    ensures forall i :: LastSets(env, x, i) ==> x in EnvMap(env) && EnvMap(env)[x] == env[i].value
  {
    if env != [] {
      var n := |env| - 1;
      var before, v := env[..n], env[n];
      EnvMapIsExact(before, x);
      TakeNext(env, n);
      TakeAll(env);
      EnvMapAppend(before, v);
      GivenSnoc(before, v, x);
      LastSnoc(before, v, x);
    }
  }

  /** Some variable of this name has a value. */
  ghost predicate Given(env: seq<EnvVar>, x: string) {
    exists i :: 0 <= i < |env| && Sets(env[i], x)
  }

  /** Of the variables that give this name a value, the one at `i` is the last. */
  ghost predicate LastSets(env: seq<EnvVar>, x: string, i: int) {
    0 <= i < |env| && Sets(env[i], x) && forall j :: i < j < |env| ==> !Sets(env[j], x)
  }

  lemma GivenSnoc(env: seq<EnvVar>, v: EnvVar, x: string)
    ensures Given(env + [v], x) <==> Given(env, x) || Sets(v, x)
  {
    if i :| 0 <= i < |env| && Sets(env[i], x) {
      assert Sets((env + [v])[i], x);
    }
    if Sets(v, x) {
      assert Sets((env + [v])[|env|], x);
    }
  }

  lemma LastSnoc(env: seq<EnvVar>, v: EnvVar, x: string)
    ensures forall i :: LastSets(env + [v], x, i) ==>
              if Sets(v, x) then i == |env| else LastSets(env, x, i) && (env + [v])[i] == env[i]
  {
    forall i | LastSets(env + [v], x, i)
      ensures if Sets(v, x) then i == |env| else LastSets(env, x, i) && (env + [v])[i] == env[i]
    {
      assert (env + [v])[|env|] == v;
      assert forall j :: 0 <= j < |env| ==> (env + [v])[j] == env[j];
    }
  }

  predicate Sets(v: EnvVar, x: string) {
    v.name == x && v.value != ""
  }

  /** A pod without containers is never taken for drifted. */
  lemma NoContainerNoDrift(p: Pod, a: ArtifactSpec, cfg: Settings)
    requires p.containers == []
    ensures !Drifted(p, a, cfg)
  {
  }

  /** A call that fails, be it without effect or with its reply lost, ends the reconciliation in an error. */
  lemma FailureIsReported(env: Env, w: World, cfg: Settings, req: NsName, t: nat)
    requires Now(w) <= t < Now(Act(env, w, cfg, req).world) && !env.fault(t).Fine?
    ensures Act(env, w, cfg, req).outcome.Errored?
  {
    var (artifact, w1) := GetArtifact(env, w, req);
    assert Now(w1) == Now(w) + 1;
    if t > Now(w) && artifact.Ok? {
      LaterFailureIsReported(env, w1, artifact.value, cfg, req, t);
    }
  }

  lemma LaterFailureIsReported(env: Env, w: World, a: ArtifactSpec, cfg: Settings, req: NsName, t: nat)
    requires Now(w) <= t < Now(ActFor(env, w, a, cfg, req).world) && !env.fault(t).Fine?
    ensures ActFor(env, w, a, cfg, req).outcome.Errored?
  {
    var (_, w1) := GetPod(env, w, PodKey(req));
    assert Now(w1) == Now(w) + 1;
    assert t == Now(w) || t == Now(w1);
  }

  /** A drifted pod that is gone before its deletion arrives is no error. */
  lemma VanishedPodIsNoError(env: Env, w: World, cfg: Settings, req: NsName)
    requires Act(env, w, cfg, req).write.Deletes? && Now(Act(env, w, cfg, req).world) == Now(w) + 3
    requires env.fault(Now(w) + 2).Fine?
    requires WatcherOf(req) !in Arrive(env, Arrive(env, Arrive(env, w))).cluster.pods
    ensures Act(env, w, cfg, req).outcome == Requeue
    ensures Act(env, w, cfg, req).world.cluster == Arrive(env, Arrive(env, Arrive(env, w))).cluster
  {
  }

  // ---- One request never touches the pod of another ----

  ghost predicate Undisturbing(env: Env) {
    forall t, c :: env.interfere(t, c) == c
  }

  ghost predicate SameAt(c: Cluster, c': Cluster, key: NsName) {
    (key in c.pods <==> key in c'.pods) && (key in c.pods ==> c'.pods[key] == c.pods[key])
  }

  lemma PodsAreApart(req: NsName, other: NsName)
    requires req != other
    ensures WatcherOf(req) != WatcherOf(other)
  {
    var prefix := "kyverno-artifact-manager-";
    if WatcherOf(req).name == WatcherOf(other).name {
      assert (prefix + req.name)[|prefix|..] == req.name && (prefix + other.name)[|prefix|..] == other.name;
    }
  }

  /** With no other actor, but with any failing calls: whatever becomes of one request, the pod of another stays. */
  lemma OthersStay(env: Env, w: World, cfg: Settings, req: NsName, other: NsName)
    requires Undisturbing(env) && req != other
    ensures SameAt(w.cluster, Reconcile(env, w, cfg, req).world.cluster, WatcherOf(other))
  {
    PodsAreApart(req, other);
    var r := Act(env, w, cfg, req);
    ActIsLocal(env, w, cfg, req);
    MeasuringChangesNothing(env, r.world);
  }

  lemma ActIsLocal(env: Env, w: World, cfg: Settings, req: NsName)
    requires Undisturbing(env)
    ensures var c, c' := w.cluster, Act(env, w, cfg, req).world.cluster;
            && c'.objects == c.objects && c'.artifacts == c.artifacts
            && forall key :: key != WatcherOf(req) ==> SameAt(c, c', key)
  {
    var (artifact, w1) := GetArtifact(env, w, req);
    assert w1.cluster == w.cluster;
    if artifact.Ok? {
      ActForIsLocal(env, w1, artifact.value, cfg, req);
    }
  }

  lemma ActForIsLocal(env: Env, w: World, a: ArtifactSpec, cfg: Settings, req: NsName)
    requires Undisturbing(env)
    ensures var c, c' := w.cluster, ActFor(env, w, a, cfg, req).world.cluster;
            && c'.objects == c.objects && c'.artifacts == c.artifacts
            && forall key :: key != WatcherOf(req) ==> SameAt(c, c', key)
  {
    var w1 := Arrive(env, w);
    assert w1.cluster == w.cluster && Arrive(env, w1).cluster == w.cluster;
    WritesAreLocal(env, w1, req, PodOf(req.name, a, cfg));
  }

  lemma WritesAreLocal(env: Env, w: World, req: NsName, pod: Pod)
    requires Undisturbing(env)
    ensures var c, c' := w.cluster, CreatePod(env, w, PodKey(req), pod).1.cluster;
            && c'.objects == c.objects && c'.artifacts == c.artifacts
            && forall key :: key != WatcherOf(req) ==> SameAt(c, c', key)
    ensures var c, c' := w.cluster, DeletePod(env, w, PodKey(req)).1.cluster;
            && c'.objects == c.objects && c'.artifacts == c.artifacts
            && forall key :: key != WatcherOf(req) ==> SameAt(c, c', key)
  {
    assert Arrive(env, w).cluster == w.cluster;
  }

  lemma MeasuringChangesNothing(env: Env, w: World)
    requires Undisturbing(env)
    ensures Measure(env, w).1.cluster == w.cluster
  {
    var (list, w1) := ListArtifacts(env, w);
    assert w1.cluster == w.cluster;
    if list.Ok? {
      ReadingChangesNothing(env, w1, list.value);
    }
  }

  lemma {:induction false} ReadingChangesNothing(env: Env, w: World, items: seq<(NsName, ArtifactSpec)>)
    requires Undisturbing(env)
    ensures Phases(env, w, items).1.cluster == w.cluster
    decreases |items|
  {
    if items != [] {
      assert Arrive(env, w).cluster == w.cluster;
      ReadingChangesNothing(env, Arrive(env, w), items[1..]);
    }
  }

  // ---- Metrics ----

  /** What a gauge calls the pod of this request. */
  ghost function PhaseName(c: Cluster, req: NsName): string {
    if WatcherOf(req) !in c.pods then "Unknown"
    else
      match c.pods[WatcherOf(req)].phase
      case Pending => "Pending"
      case Running => "Running"
      case Succeeded => "Succeeded"
      case Failed => "Failed"
      case Unknown => "Unknown"
  }

  lemma {:induction false} QuietPhases(env: Env, w: World, items: seq<(NsName, ArtifactSpec)>)
    requires Quiet(env, Now(w))
    ensures var phases := Phases(env, w, items).0;
            |phases| == |items| && forall i :: 0 <= i < |items| ==> phases[i] == PhaseName(w.cluster, items[i].0)
    decreases |items|
  {
    if items != [] {
      var w1 := Arrive(env, w);
      assert w1.cluster == w.cluster && env.fault(Now(w)).Fine?;
      QuietPhases(env, w1, items[1..]);
    }
  }

  lemma {:induction false} DistinctCounts<T>(q: seq<T>, s: set<T>)
    requires Distinct(q) && forall x :: x in q <==> x in s
    ensures |q| == |s|
    decreases |q|
  {
    if q == [] {
      assert s == {};
    } else {
      var n := |q| - 1;
      TakeNext(q, n);
      TakeAll(q);
      assert forall x :: x in q <==> x in q[..n] || x == q[n];
      DistinctCounts(q[..n], s - {q[n]});
    }
  }

  /** A list reply holds every artifact once. */
  lemma ArtifactsListed(env: Env, w: World) returns (items: seq<(NsName, ArtifactSpec)>)
    requires ValidEnv(env) && Quiet(env, Now(w))
    ensures ListArtifacts(env, w) == (Ok(items), Arrive(env, w)) && Arrive(env, w).cluster == w.cluster
    ensures |items| == |w.cluster.artifacts| && Distinct(Keys(items))
    ensures forall n :: n in w.cluster.artifacts <==> n in Keys(items)
  {
    var c := Arrive(env, w).cluster;
    assert c == w.cluster && env.fault(Now(w)).Fine?;
    var order := env.names(Now(w), c.artifacts.Keys);
    assert Enumerates(order, c.artifacts.Keys);
    items := Arrange(c.artifacts, order);
    ArrangeLists(c.artifacts, order);
    forall n ensures n in c.artifacts <==> n in Keys(items) {
      if n in c.artifacts {
        assert (n, c.artifacts[n]) in items;
        var i :| 0 <= i < |items| && items[i] == (n, c.artifacts[n]);
        assert Keys(items)[i] == n;
      }
      if n in Keys(items) {
        var i :| 0 <= i < |items| && Keys(items)[i] == n;
        assert items[i] in items;
      }
    }
    DistinctCounts(Keys(items), c.artifacts.Keys);
  }

  /** `names` tells, for every artifact once, the phase of its pod. */
  ghost predicate TellsPhases(c: Cluster, names: seq<string>) {
    exists keys: seq<NsName> ::
      && Distinct(keys) && (forall n :: n in keys <==> n in c.artifacts)
      && |names| == |keys| && forall i :: 0 <= i < |keys| ==> names[i] == PhaseName(c, keys[i])
  }

  lemma QuietMeasure(env: Env, w: World) returns (names: seq<string>)
    requires ValidEnv(env) && Quiet(env, Now(w))
    ensures Measure(env, w).0 == Some(names) && TellsPhases(w.cluster, names)
    ensures |names| == |w.cluster.artifacts| && Now(Measure(env, w).1) == Now(w) + 1 + |names|
  {
    var items := ArtifactsListed(env, w);
    var w1 := Arrive(env, w);
    names := Phases(env, w1, items).0;
    QuietPhases(env, w1, items);
    PhasesTakeTime(env, w1, items);
    assert Distinct(Keys(items));
  }

  /**
   After a success over a quiet cluster every artifact's pod has been read once more, and the gauges hold the number
   of artifacts and, for each phase seen, how often it was.
   */
  lemma QuietGauges(env: Env, w: World, cfg: Settings, req: NsName, before: Gauges, r: Reconciled)
    returns (names: seq<string>)
    requires ValidEnv(env) && Quiet(env, Now(w)) && r == Act(env, w, cfg, req) && r.outcome == Done
    ensures var c, after := r.world.cluster, GaugesAfter(env, w, cfg, req, before);
            && TellsPhases(c, names) && after.artifacts == |c.artifacts| == |names|
            && (forall p :: p in after.byPhase <==> p in names)
            && (forall p :: p in names ==> after.byPhase[p] == multiset(names)[p])
    ensures Now(Reconcile(env, w, cfg, req).world) == Now(r.world) + 1 + |r.world.cluster.artifacts|
  {
    ActTakesTime(env, w, cfg, req);
    names := QuietMeasure(env, r.world);
  }

  lemma ActTakesTime(env: Env, w: World, cfg: Settings, req: NsName)
    ensures Now(w) <= Now(Act(env, w, cfg, req).world)
  {
  }

  lemma {:induction false} PhasesTakeTime(env: Env, w: World, items: seq<(NsName, ArtifactSpec)>)
    ensures Now(Phases(env, w, items).1) == Now(w) + |items|
    decreases |items|
  {
    if items != [] {
      PhasesTakeTime(env, Arrive(env, w), items[1..]);
    }
  }
}
