/**
 The contract between the three actors: the controller names the pod and passes ARTIFACT_NAME, the watcher labels
 what it applies, and the collector goes by those labels and that name.
 */
module Ownership {
  import opened Wrappers
  import opened Kubernetes
  import opened Collector
  import opened CollectorSafety
  import opened CollectorLiveness
  import opened Controller
  import opened WatcherConfig
  import opened Manifests

  // ---- Labels ----

  ghost predicate OwnedBy(labels: Labels, artifact: string) {
    && "managed-by" in labels && labels["managed-by"] == "kyverno-watcher"
    && "artifact-name" in labels && labels["artifact-name"] == artifact
    && "policy-version" in labels
  }

  /** The labels tell the tag and the checksum; labels of other names are the manifest's own. */
  ghost predicate CarriesTag(m: Manifest, labels: Labels, tag: string, checksum: string) {
    && Selects("policy-version", tag, labels) && Selects("policy-checksum", checksum, labels)
    && forall l :: l in m.labels && l !in {"managed-by", "policy-version", "artifact-name", "policy-checksum"} ==>
         l in labels && labels[l] == m.labels[l]
  }

  lemma StampOwns(m: Manifest, artifact: string, tag: string, checksum: string)
    requires artifact != ""
    ensures OwnedBy(Stamp(m, artifact, tag, checksum).labels, artifact)
    ensures CarriesTag(m, Stamp(m, artifact, tag, checksum).labels, tag, checksum)
  {
    assert |"managed-by"| == 10 && |"policy-version"| == 14 && |"artifact-name"| == 13 && |"policy-checksum"| == 15;
  }

  /** A file that applied is in the cluster as it stands. */
  lemma AppliedIsStored(tools: Tools, env: Env, w: World, files: map<string, string>, f: string)
    requires ApplyFile(tools, env, w, files, f).0
    ensures f in files && tools.parse(files[f]).Some? && TargetOf(tools, tools.parse(files[f]).value).Ok?
    ensures var m, c := tools.parse(files[f]).value, ApplyFile(tools, env, w, files, f).1.cluster;
            var key := TargetOf(tools, m).value;
            key in c.objects && c.objects[key].content == ContentOf(m)
  {
  }

  ghost predicate KyvernoMapped(tools: Tools) {
    && tools.mapping(Gvk("kyverno.io", "v1", "Policy")) == Some(Mapping(Policies, true))
    && tools.mapping(Gvk("kyverno.io", "v1", "ClusterPolicy")) == Some(Mapping(ClusterPolicies, false))
  }

  predicate IsPolicy(m: Manifest) {
    m.gvk == Gvk("kyverno.io", "v1", "Policy") || m.gvk == Gvk("kyverno.io", "v1", "ClusterPolicy")
  }

  /** The watcher could write its labels into the file, or they were there before. */
  ghost predicate GetsLabelled(tools: Tools, x: Extracted, artifact: string, f: string)
    requires IsManifest(tools, x, f)
  {
    f !in x.unwritable || OwnedBy(tools.parse(x.files[f]).value.labels, artifact)
  }

  /**
   From spec to collector: a kyverno.io/v1 policy that was pulled and applied by the watcher whose pod the controller
   built for an artifact is one that the collector lists under that artifact's name, exactly if its file could be
   rewritten or bore the labels from the start; otherwise it is applied as it came, and nobody collects it.
   */
  lemma WatcherPoliciesAreListed(
      k: Kubelet, name: Name, a: ArtifactSpec, cfg: Settings, config: Config,
      tools: Tools, env: Env, w: World, x: Extracted, tag: string, f: string)
    requires name != "" && RESERVED_VARS !! k.ambient.Keys
    requires LoadConfig(Resolve(k, PodOf(name, a, cfg).containers[0].env)) == Ok(config)
    requires ValidTools(tools) && KyvernoMapped(tools)
    requires IsManifest(tools, x, f) && IsPolicy(tools.parse(x.files[f]).value)
    requires ApplyFile(tools, env, w, Label(tools, x, config.artifactName, tag).files, f).0
    ensures var files := Label(tools, x, config.artifactName, tag).files;
            var c, key := ApplyFile(tools, env, w, files, f).1.cluster, TargetOf(tools, tools.parse(files[f]).value);
            && key.Ok? && key.value in c.objects
            && (Managed(c, key.value) && OwnedBy(c.objects[key.value].content.labels, name) <==>
                GetsLabelled(tools, x, name, f))
  {
    SpecReachesWatcher(k, name, a, cfg);
    AppliedPolicyIsManaged(tools, env, w, x, config.artifactName, tag, f);
  }

  lemma AppliedPolicyIsManaged(
      tools: Tools, env: Env, w: World, x: Extracted, artifact: string, tag: string, f: string)
    requires artifact != "" && ValidTools(tools) && KyvernoMapped(tools)
    requires IsManifest(tools, x, f) && IsPolicy(tools.parse(x.files[f]).value)
    requires ApplyFile(tools, env, w, Label(tools, x, artifact, tag).files, f).0
    ensures var files := Label(tools, x, artifact, tag).files;
            var c, key := ApplyFile(tools, env, w, files, f).1.cluster, TargetOf(tools, tools.parse(files[f]).value);
            && key.Ok? && key.value in c.objects
            && (Managed(c, key.value) && OwnedBy(c.objects[key.value].content.labels, artifact) <==>
                GetsLabelled(tools, x, artifact, f))
  {
    if f in x.unwritable {
      AppliedIsStored(tools, env, w, Label(tools, x, artifact, tag).files, f);
    } else {
      StampedPolicyIsManaged(tools, env, w, x, artifact, tag, f);
    }
  }

  lemma StampedPolicyIsManaged(
      tools: Tools, env: Env, w: World, x: Extracted, artifact: string, tag: string, f: string)
    requires artifact != "" && ValidTools(tools) && KyvernoMapped(tools)
    requires IsManifest(tools, x, f) && f !in x.unwritable && IsPolicy(tools.parse(x.files[f]).value)
    requires ApplyFile(tools, env, w, Label(tools, x, artifact, tag).files, f).0
    ensures var files := Label(tools, x, artifact, tag).files;
            var c, key := ApplyFile(tools, env, w, files, f).1.cluster, TargetOf(tools, tools.parse(files[f]).value);
            && key.Ok? && Managed(c, key.value) && OwnedBy(c.objects[key.value].content.labels, artifact)
            && CarriesTag(tools.parse(x.files[f]).value, c.objects[key.value].content.labels, tag,
                          Label(tools, x, artifact, tag).checksums[f])
            && c.objects[key.value].content.spec == tools.parse(x.files[f]).value.spec
  {
    var files := Label(tools, x, artifact, tag).files;
    var m := tools.parse(x.files[f]).value;
    var stamped := Stamp(m, artifact, tag, Checksum(tools, x.files[f], m));
    assert files[f] == tools.render(stamped);
    assert tools.parse(files[f]) == Some(stamped);
    StampOwns(m, artifact, tag, Checksum(tools, x.files[f], m));
    AppliedIsStored(tools, env, w, files, f);
  }

  // ---- Verdicts ----

  /** The artifact exists and the pod that the controller builds for it is running or about to. */
  ghost predicate Alive(c: Cluster, req: NsName) {
    && req in c.artifacts
    && var n := NsName(req.namespace, "kyverno-artifact-manager-" + req.name);
       n in c.pods && c.pods[n].phase in {PodPhase.Running, PodPhase.Pending}
  }

  /** So an object that seems to have lost its owner is not this one's. */
  lemma MissingOwnerIsAnother(c: Cluster, req: NsName, labels: Labels)
    requires Alive(c, req) && OwnerMissing(c, labels)
    ensures !Selects("artifact-name", req.name, labels)
  {
    if Selects("artifact-name", req.name, labels) {
      AliveIsNotMissing(c, req, labels);
    }
  }

  lemma AliveIsNotMissing(c: Cluster, req: NsName, labels: Labels)
    requires Alive(c, req) && Selects("artifact-name", req.name, labels)
    ensures !OwnerMissing(c, labels)
  {
    assert !Unowned(c, req.name) by {
      var n := NsName(req.namespace, "kyverno-artifact-manager-" + req.name);
      assert "kyverno-artifact-manager-" + req.name <= n.name;
    }
  }

  /** While the owner is alive at both reads, no policy under its name is judged orphaned. */
  lemma AliveIsNeverOrphaned(env: Env, w: World, req: NsName, labels: Labels)
    requires Selects("artifact-name", req.name, labels)
    requires Alive(Arrive(env, w).cluster, req) && Alive(Arrive(env, Arrive(env, w)).cluster, req)
    ensures !Judge(env, w, labels).0
  {
    var c1, c2 := Arrive(env, w).cluster, Arrive(env, Arrive(env, w)).cluster;
    AliveIsNotMissing(c1, req, labels);
    AliveIsNotMissing(c2, req, labels);
    OwnerMissingMeans(c1, labels);
    OwnerMissingMeans(c2, labels);
  }

  /** The owner was alive at each read of this verdict. */
  ghost predicate AliveDuring(audit: seq<Cluster>, e: Collector.Event, req: NsName) {
    e.Verdict? ==> forall t :: e.from <= t < e.upTo && t < |audit| ==> Alive(audit[t], req)
  }

  /**
   Over every run of the collector, with failing calls, other actors and deaths of the process: where an artifact and
   its pod are there during the recheck, the deletion that follows is not of a policy that bore the artifact's name
   when the cycle listed it.
   */
  lemma OwnedPolicyIsNeverCollected(env: Env, c: Cluster, choices: seq<Collector.Choice>, req: NsName)
    requires ValidEnv(env)
    ensures var st := Run(env, Start(c), choices);
            forall i :: 0 < i < |st.history| && st.history[i].Deletion? ==>
              AliveDuring(st.world.audit, st.history[i - 1], req) ==> NotOwned(st, i, req)
  {
    RunIsSafe(env, c, choices);
    var st := Run(env, Start(c), choices);
    forall i | 0 < i < |st.history| && st.history[i].Deletion? && AliveDuring(st.world.audit, st.history[i - 1], req)
      ensures NotOwned(st, i, req)
    {
      DeletedWasAnother(st, req, i);
    }
  }

  /** The policy deleted did not bear the artifact's name when it was listed. */
  ghost predicate NotOwned(st: GcState, i: nat, req: NsName)
    requires i < |st.history| && st.history[i].Deletion?
  {
    && i >= 3 && ListedFirst(st, i) && st.history[i - 2].info == st.history[i].info
    && !Selects("artifact-name", req.name, st.history[i].info.labels)
  }

  lemma DeletedWasAnother(st: GcState, req: NsName, i: nat)
    requires AllJustified(st.history) && AllBacked(st) && 0 < i < |st.history| && st.history[i].Deletion?
    requires AliveDuring(st.world.audit, st.history[i - 1], req)
    ensures NotOwned(st, i, req)
  {
    SafeDeletion(st, i);
    var j: nat, t0: nat, t1: nat, t2: nat :| 0 <= j < i - 2 && ThreeMoments(st, i, j, t0, t1, t2);
    MissingOwnerIsAnother(st.world.audit[t2], req, st.history[i - 1].info.labels);
  }

  /**
   The other side: once no artifact of a name is left, two quiet cycles remove every labelled policy under that name,
   and no object under the name of an artifact that is alive.
   */
  lemma RemovedArtifactIsSwept(env: Env, st: GcState, name: string)
    requires ValidEnv(env) && Quiet(env, Now(st.world))
    requires forall n :: n in st.world.cluster.artifacts ==> n.name != name
    ensures var c, c' := st.world.cluster, Collector.Cycle(env, Collector.Cycle(env, st)).world.cluster;
            && (forall k :: Managed(c, k) && OwnedBy(c.objects[k].content.labels, name) ==> k !in c'.objects)
            && (forall k, req :: BearsLivingName(c, k, req) ==> k in c'.objects && c'.objects[k] == c.objects[k])
  {
    TwoCyclesCollect(env, st);
    DoomedByName(st.world.cluster, name);
  }

  /** The object goes by the name of an artifact that is alive. */
  ghost predicate BearsLivingName(c: Cluster, k: ObjKey, req: NsName) {
    k in c.objects && Alive(c, req) && Selects("artifact-name", req.name, c.objects[k].content.labels)
  }

  lemma DoomedByName(c: Cluster, name: string)
    requires forall n :: n in c.artifacts ==> n.name != name
    ensures forall k :: Managed(c, k) && OwnedBy(c.objects[k].content.labels, name) ==> k in Doomed(c)
    ensures forall k, req :: BearsLivingName(c, k, req) ==> k !in Doomed(c)
  {
    forall k, req | BearsLivingName(c, k, req) ensures k !in Doomed(c) {
      AliveIsNotMissing(c, req, c.objects[k].content.labels);
    }
  }

  // ---- Where the names fall short ----

  /** The pod check goes by prefix: the pod of an artifact whose name merely begins with another's keeps both alive. */
  lemma PrefixKeepsAlive(c: Cluster, req: NsName, other: NsName)
    requires req in c.artifacts && req.name <= other.name
    requires var n := NsName(other.namespace, "kyverno-artifact-manager-" + other.name);
             n in c.pods && c.pods[n].phase in {PodPhase.Running, PodPhase.Pending}
    ensures !Unowned(c, req.name)
  {
    var n := NsName(other.namespace, "kyverno-artifact-manager-" + other.name);
    assert "kyverno-artifact-manager-" + req.name <= n.name;
  }

  /** Every pod of a watcher's name is one that the controller built, whatever its phase; others are as they like. */
  ghost predicate WatchersAreControllers(c: Cluster) {
    forall n :: n in c.pods && "kyverno-artifact-manager-" <= n.name ==>
      exists name, a, cfg :: c.pods[n].labels == PodOf(name, a, cfg).labels
  }

  lemma NoAppLabel(name: Name, a: ArtifactSpec, cfg: Settings)
    ensures "app" !in PodOf(name, a, cfg).labels
  {
    assert |"app"| == 3 && |"app.kubernetes.io/name"| == 22 && |"app.kubernetes.io/instance"| == 26;
    assert |"app.kubernetes.io/managed-by"| == 28 && |"app.kubernetes.io/component"| == 27;
  }

  /**
   The legacy check selects pods by a label that the controller never sets: if pods of a watcher's name are built by
   the controller only, it finds no watcher, so a versioned policy without an artifact name is taken for orphaned even
   while its watcher runs.
   */
  lemma LegacyCheckSeesNoWatcher(c: Cluster, labels: Labels)
    requires WatchersAreControllers(c)
    ensures UnownedLegacy(c)
    ensures "policy-version" in labels && "artifact-name" !in labels ==> OwnerMissing(c, labels)
  {
    forall n | n in c.pods && "kyverno-artifact-manager-" <= n.name ensures "app" !in c.pods[n].labels {
      var name, a, cfg :| c.pods[n].labels == PodOf(name, a, cfg).labels;
      NoAppLabel(name, a, cfg);
    }
  }
}
