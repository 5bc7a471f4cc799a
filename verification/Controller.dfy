/** The operator's reconciler of internal/controller/kyvernoartifact_controller.go. */
module Controller {
  import opened Wrappers
  import opened Text
  import opened Kubernetes

  datatype Settings = Settings(
    watcherImage: string,
    serviceAccount: string,
    secretName: string,
    githubTokenKey: string,
    artifactoryUsernameKey: string,
    artifactoryPasswordKey: string)

  /** `Gone` and `Done` both return an empty result; after `Done` the metrics are brought up to date. */
  datatype Outcome = Gone | Done | Requeue | Errored(error: string)

  /** The write a reconciliation asked for, whether or not it took effect. */
  datatype Write = NoWrite | Creates | Deletes

  datatype Reconciled = Reconciled(outcome: Outcome, write: Write, world: World)

  /** The two metrics: how many artifacts there are, and how many of their pods are in each phase. */
  datatype Gauges = Gauges(artifacts: nat, byPhase: map<string, nat>)

  // ---- Defaults ----

  function UrlOf(a: ArtifactSpec): string {
    a.url.GetOr("")
  }

  function IntervalOf(a: ArtifactSpec): Int32 {
    a.pollingInterval.GetOr(60)
  }

  function ProviderOf(a: ArtifactSpec): string {
    if a.provider.Some? && a.provider.value != "" then a.provider.value else "github"
  }

  function PollsTags(a: ArtifactSpec): bool {
    a.pollForTagChanges.GetOr(true)
  }

  function IntervalText(a: ArtifactSpec): string {
    match a.pollingInterval
    case None => "60"
    case Some(n) => Itoa(n)
  }

  function BoolText(b: bool): string {
    if b then "true" else "false"
  }

  // ---- The pod ----

  function Plain(name: string, value: string): EnvVar {
    EnvVar(name, value, Literal)
  }

  function FromSecret(name: string, secret: string, key: string): EnvVar {
    EnvVar(name, "", SecretKey(secret, key))
  }

  function When(b: bool, v: EnvVar): seq<EnvVar> {
    if b then [v] else []
  }

  function Optional(flag: Option<bool>, name: string): seq<EnvVar> {
    When(flag.Some?, Plain(name, BoolText(flag.GetOr(false))))
  }

  function Basics(name: Name, a: ArtifactSpec): seq<EnvVar> {
    [Plain("IMAGE_BASE", UrlOf(a)), Plain("POLL_INTERVAL", IntervalText(a)),
     Plain("PROVIDER", ProviderOf(a)), Plain("ARTIFACT_NAME", name)]
  }

  function Credentials(provider: string, cfg: Settings): seq<EnvVar> {
    if provider == "github" then [FromSecret("GITHUB_TOKEN", cfg.secretName, cfg.githubTokenKey)]
    else if provider == "artifactory" then
      [FromSecret("ARTIFACTORY_USERNAME", cfg.secretName, cfg.artifactoryUsernameKey),
       FromSecret("ARTIFACTORY_PASSWORD", cfg.secretName, cfg.artifactoryPasswordKey)]
    else []
  }

  function Injected(cfg: Settings): seq<EnvVar> {
    [Plain("WATCHER_IMAGE", cfg.watcherImage), EnvVar("POD_NAMESPACE", "", PodField("metadata.namespace"))]
  }

  function Flagged(env: seq<EnvVar>, a: ArtifactSpec): seq<EnvVar> {
    env
    + When(a.deletePoliciesOnTermination == Some(true), Plain("WATCHER_DELETE_POLICIES_ON_TERMINATION", "true"))
    + Optional(a.reconcilePoliciesFromChecksum, "WATCHER_CHECKSUM_RECONCILIATION_ENABLED")
    + Optional(a.pollForTagChanges, "WATCHER_POLL_FOR_TAG_CHANGES_ENABLED")
  }

  function EnvOf(name: Name, a: ArtifactSpec, cfg: Settings): seq<EnvVar> {
    Flagged(Basics(name, a), a) + Credentials(ProviderOf(a), cfg) + Injected(cfg)
  }

  function PodOf(name: Name, a: ArtifactSpec, cfg: Settings): Pod {
    Pod(map["app.kubernetes.io/name" := "kyverno-artifact-watcher",
            "app.kubernetes.io/instance" := name,
            "app.kubernetes.io/managed-by" := "kyverno-artifact-operator",
            "app.kubernetes.io/component" := "watcher"],
        cfg.serviceAccount,
        [Container("watcher", cfg.watcherImage, ["-watcher"], EnvOf(name, a, cfg))],
        Pending, false)
  }

  function PodKey(req: NsName): NsName {
    NsName(req.namespace, "kyverno-artifact-manager-" + req.name)
  }

  // ---- Drift ----

  const POLLS := "WATCHER_POLL_FOR_TAG_CHANGES_ENABLED"

  function AddVar(m: map<string, string>, v: EnvVar): map<string, string> {
    if v.value != "" then m[v.name := v.value] else m
  }

  function EnvMap(env: seq<EnvVar>): map<string, string> {
    if env == [] then map[] else AddVar(EnvMap(env[..|env| - 1]), env[|env| - 1])
  }

  predicate Terminal(p: Pod) {
    p.phase.Failed? || p.phase.Succeeded?
  }

  predicate Drifted(p: Pod, a: ArtifactSpec, cfg: Settings) {
    p.containers != [] &&
    var m := EnvMap(p.containers[0].env);
    var polls := if POLLS in m then m[POLLS] else "true";
    || At(m, "IMAGE_BASE") != UrlOf(a)
    || At(m, "POLL_INTERVAL") != IntervalText(a)
    || At(m, "PROVIDER") != ProviderOf(a)
    || polls != (if a.pollForTagChanges.Some? then BoolText(a.pollForTagChanges.value) else "true")
    || p.containers[0].image != cfg.watcherImage
  }

  // ---- Reconcile ----

  function Replied(r: Result<(), ApiError>, ok: Outcome, write: Write, w: World): Reconciled {
    Reconciled(if r.Ok? then ok else Errored("write failed"), write, w)
  }

  /** A reconciliation up to its one write. */
  function Act(env: Env, w: World, cfg: Settings, req: NsName): Reconciled {
    match GetArtifact(env, w, req)
    case (Err(e), w1) =>
      Reconciled(if e.NotFound? then Gone else Errored("unable to fetch KyvernoArtifact"), NoWrite, w1)
    case (Ok(a), w1) => ActFor(env, w1, a, cfg, req)
  }

  /** The same once the artifact has been read. */
  function ActFor(env: Env, w: World, a: ArtifactSpec, cfg: Settings, req: NsName): Reconciled {
    match GetPod(env, w, PodKey(req))
    case (Err(e), w2) =>
      if !e.NotFound? then Reconciled(Errored("unable to fetch Pod"), NoWrite, w2)
      else if UrlOf(a) == "" then Reconciled(Errored("spec.ArtifactUrl is required but not set"), NoWrite, w2)
      else
        var (r, w3) := CreatePod(env, w2, PodKey(req), PodOf(req.name, a, cfg));
        Replied(r, Done, Creates, w3)
    case (Ok(p), w2) =>
      if Terminal(p) then Reconciled(Requeue, NoWrite, w2)
      else if !Drifted(p, a, cfg) then Reconciled(Done, NoWrite, w2)
      else
        var (r, w3) := DeletePod(env, w2, PodKey(req));
        Replied(if r == Err(NotFound) then Ok(()) else r, Requeue, Deletes, w3)
  }

  function Reconcile(env: Env, w: World, cfg: Settings, req: NsName): Reconciled {
    var r := Act(env, w, cfg, req);
    if r.outcome.Done? then r.(world := Measure(env, r.world).1) else r
  }

  // ---- Metrics ----

  function PhaseText(p: PodPhase): string {
    match p
    case Pending => "Pending"
    case Running => "Running"
    case Succeeded => "Succeeded"
    case Failed => "Failed"
    case Unknown => "Unknown"
  }

  /** A pod that cannot be read counts as one of unknown phase. */
  function PhaseOf(env: Env, w: World, req: NsName): (string, World) {
    match GetPod(env, w, PodKey(req))
    case (Ok(p), w') => (PhaseText(p.phase), w')
    case (Err(_), w') => ("Unknown", w')
  }

  function Phases(env: Env, w: World, items: seq<(NsName, ArtifactSpec)>): (seq<string>, World)
    decreases |items|
  {
    if items == [] then ([], w)
    else
      var (phase, w1) := PhaseOf(env, w, items[0].0);
      var (phases, w2) := Phases(env, w1, items[1..]);
      ([phase] + phases, w2)
  }

  /** The phase of each artifact's pod; None if the artifacts cannot be listed. */
  function Measure(env: Env, w: World): (Option<seq<string>>, World) {
    match ListArtifacts(env, w)
    case (Err(_), w') => (None, w')
    case (Ok(items), w') =>
      var (phases, w'') := Phases(env, w', items);
      (Some(phases), w'')
  }

  /** After a success the gauges tell what was measured; otherwise they stay. */
  function GaugesAfter(env: Env, w: World, cfg: Settings, req: NsName, before: Gauges): Gauges {
    var r := Act(env, w, cfg, req);
    match Measure(env, r.world).0
    case None => before
    case Some(phases) => if r.outcome.Done? then Gauges(|phases|, ByPhase(phases)) else before
  }

  lemma PhasesNext(env: Env, w: World, items: seq<(NsName, ArtifactSpec)>, i: nat)
    requires i < |items|
    ensures var (phase, w1) := PhaseOf(env, w, items[i].0);
            var (phases, w2) := Phases(env, w1, items[i + 1..]);
            Phases(env, w, items[i..]) == ([phase] + phases, w2)
  {
    assert items[i..][0] == items[i] && items[i..][1..] == items[i + 1..];
  }

  function ByPhase(phases: seq<string>): map<string, nat> {
    map p | p in phases :: multiset(phases)[p]
  }

  lemma ByPhaseNext(phases: seq<string>, p: string)
    ensures ByPhase(phases + [p]) ==
            ByPhase(phases)[p := (if p in ByPhase(phases) then ByPhase(phases)[p] else 0) + 1]
  {
    assert multiset(phases + [p]) == multiset(phases) + multiset{p};
    assert forall x :: x in phases + [p] <==> x in phases || x == p;
  }

  lemma NothingAdded(env: seq<EnvVar>)
    ensures env + [] == env
  {
  }

  class KyvernoArtifactReconciler {
    const api: ApiServer
    const settings: Settings
    var gauges: Gauges
    /** The last write this reconciler asked for. */
    ghost var asked: Write

    constructor (api: ApiServer, settings: Settings)
      ensures this.api == api && this.settings == settings
    {
      this.api, this.settings, gauges, asked := api, settings, Gauges(0, map[]), NoWrite;
    }

    method BuildEnv(name: Name, a: ArtifactSpec) returns (envVars: seq<EnvVar>)
      ensures envVars == EnvOf(name, a, settings)
    {
      var pollingInterval := "60";
      if a.pollingInterval.Some? { pollingInterval := Itoa(a.pollingInterval.value); }
      var provider := "github";
      if a.provider.Some? && a.provider.value != "" { provider := a.provider.value; }
      envVars := [Plain("IMAGE_BASE", UrlOf(a)), Plain("POLL_INTERVAL", pollingInterval),
                  Plain("PROVIDER", provider), Plain("ARTIFACT_NAME", name)];
      envVars := AddFlags(envVars, a);
      match provider {
        case "github" =>
          envVars := envVars + [FromSecret("GITHUB_TOKEN", settings.secretName, settings.githubTokenKey)];
        case "artifactory" =>
          envVars := envVars
          + [FromSecret("ARTIFACTORY_USERNAME", settings.secretName, settings.artifactoryUsernameKey),
             FromSecret("ARTIFACTORY_PASSWORD", settings.secretName, settings.artifactoryPasswordKey)];
        case _ =>
          NothingAdded(envVars);
      }
      envVars := envVars + [Plain("WATCHER_IMAGE", settings.watcherImage),
                            EnvVar("POD_NAMESPACE", "", PodField("metadata.namespace"))];
    }

    method AddFlags(env: seq<EnvVar>, a: ArtifactSpec) returns (envVars: seq<EnvVar>)
      ensures envVars == Flagged(env, a)
    {
      envVars := env;
      NothingAdded(envVars);
      if a.deletePoliciesOnTermination.Some? && a.deletePoliciesOnTermination.value {
        envVars := envVars + [Plain("WATCHER_DELETE_POLICIES_ON_TERMINATION", "true")];
      }
      NothingAdded(envVars);
      if a.reconcilePoliciesFromChecksum.Some? {
        envVars := envVars + [Plain("WATCHER_CHECKSUM_RECONCILIATION_ENABLED",
                                    BoolText(a.reconcilePoliciesFromChecksum.value))];
      }
      NothingAdded(envVars);
      if a.pollForTagChanges.Some? {
        envVars := envVars + [Plain("WATCHER_POLL_FOR_TAG_CHANGES_ENABLED", BoolText(a.pollForTagChanges.value))];
      }
    }

    method ReadEnv(env: seq<EnvVar>) returns (envMap: map<string, string>)
      ensures envMap == EnvMap(env)
    {
      envMap := map[];
      for i := 0 to |env|
        invariant envMap == EnvMap(env[..i])
      {
        assert env[..i + 1][..i] == env[..i];
        if env[i].value != "" { envMap := envMap[env[i].name := env[i].value]; }
      }
      assert env[..|env|] == env;
    }

    method NeedsUpdate(p: Pod, a: ArtifactSpec) returns (needsUpdate: bool)
      ensures needsUpdate == Drifted(p, a, settings)
    {
      needsUpdate := false;
      var currentPollingInterval := "60";
      if a.pollingInterval.Some? { currentPollingInterval := Itoa(a.pollingInterval.value); }
      if |p.containers| > 0 {
        var container := p.containers[0];
        var envMap := ReadEnv(container.env);
        if At(envMap, "IMAGE_BASE") != UrlOf(a) { needsUpdate := true; }
        if At(envMap, "POLL_INTERVAL") != currentPollingInterval { needsUpdate := true; }
        if At(envMap, "PROVIDER") != ProviderOf(a) { needsUpdate := true; }
        var current := "true";
        if a.pollForTagChanges.Some? { current := BoolText(a.pollForTagChanges.value); }
        var polls := "true";
        if POLLS in envMap { polls := envMap[POLLS]; }
        if polls != current { needsUpdate := true; }
        if container.image != settings.watcherImage { needsUpdate := true; }
      }
    }

    /** The gauges count every artifact listed, by the phase its pod was seen in; without a list they stay. */
    method UpdateMetrics()
      modifies this, api
      ensures var (phases, w) := Measure(api.env, old(api.world));
              && api.world == w
              && gauges == if phases.Some? then Gauges(|phases.value|, ByPhase(phases.value)) else old(gauges)
      ensures asked == old(asked)
    {
      var list := api.Artifacts();
      if list.Err? { return; }
      var items := list.value;
      var phaseCount := CountPhases(items);
      gauges := Gauges(|items|, phaseCount);
    }

    method CountPhases(items: seq<(NsName, ArtifactSpec)>) returns (phaseCount: map<string, nat>)
      modifies api
      ensures var (phases, w) := Phases(api.env, old(api.world), items);
              |phases| == |items| && phaseCount == ByPhase(phases) && api.world == w
    {
      ghost var (all, end) := Phases(api.env, api.world, items);
      ghost var seen: seq<string> := [];
      phaseCount := map[];
      for i := 0 to |items|
        invariant |seen| == i && phaseCount == ByPhase(seen)
        invariant all == seen + Phases(api.env, api.world, items[i..]).0
        invariant end == Phases(api.env, api.world, items[i..]).1
      {
        PhasesNext(api.env, api.world, items, i);
        var pod := api.ReadPod(PodKey(items[i].0));
        var phase := "Unknown";
        if pod.Ok? { phase := PhaseText(pod.value.phase); }
        ByPhaseNext(seen, phase);
        AppendPrepend(seen, phase, Phases(api.env, api.world, items[i + 1..]).0);
        seen := seen + [phase];
        phaseCount := phaseCount[phase := (if phase in phaseCount then phaseCount[phase] else 0) + 1];
      }
      assert items[|items|..] == [];
      AppendEmpty(seen);
    }

    method ReconcileOnce(req: NsName) returns (outcome: Outcome)
      modifies this, api
      ensures Reconciled(outcome, asked, api.world) == Reconcile(api.env, old(api.world), settings, req)
      ensures gauges == GaugesAfter(api.env, old(api.world), settings, req, old(gauges))
    {
      outcome := ActOnce(req);
      if outcome.Done? { UpdateMetrics(); }
    }

    method ActOnce(req: NsName) returns (outcome: Outcome)
      modifies this, api
      ensures Reconciled(outcome, asked, api.world) == Act(api.env, old(api.world), settings, req)
      ensures gauges == old(gauges)
    {
      asked := NoWrite;
      var artifact := api.ReadArtifact(req);
      if artifact.Err? {
        if artifact.error.NotFound? { return Gone; }
        return Errored("unable to fetch KyvernoArtifact");
      }
      var pod := api.ReadPod(PodKey(req));
      if pod.Err? && pod.error.NotFound? {
        outcome := CreateOnce(req, artifact.value);
        return;
      }
      if pod.Err? { return Errored("unable to fetch Pod"); }
      if Terminal(pod.value) { return Requeue; }
      var needsUpdate := NeedsUpdate(pod.value, artifact.value);
      if needsUpdate {
        asked := Deletes;
        var removed := api.RemovePod(PodKey(req));
        if removed.Err? && !removed.error.NotFound? { return Errored("write failed"); }
        return Requeue;
      }
      return Done;
    }

    /** The branch for a missing pod. */
    method CreateOnce(req: NsName, a: ArtifactSpec) returns (outcome: Outcome)
      requires asked == NoWrite
      modifies this, api
      ensures gauges == old(gauges)
      ensures UrlOf(a) == "" ==> outcome.Errored? && outcome.error == "spec.ArtifactUrl is required but not set"
                                 && asked == NoWrite && api.world == old(api.world)
      ensures UrlOf(a) != "" ==>
                var (r, w) := CreatePod(api.env, old(api.world), PodKey(req), PodOf(req.name, a, settings));
                Reconciled(outcome, asked, api.world) == Replied(r, Done, Creates, w)
    {
      if UrlOf(a) == "" { return Errored("spec.ArtifactUrl is required but not set"); }
      var envVars := BuildEnv(req.name, a);
      var watcher := Pod(map["app.kubernetes.io/name" := "kyverno-artifact-watcher",
                             "app.kubernetes.io/instance" := req.name,
                             "app.kubernetes.io/managed-by" := "kyverno-artifact-operator",
                             "app.kubernetes.io/component" := "watcher"],
                         settings.serviceAccount,
                         [Container("watcher", settings.watcherImage, ["-watcher"], envVars)],
                         Pending, false);
      asked := Creates;
      var created := api.NewPod(PodKey(req), watcher);
      if created.Err? { return Errored("write failed"); }
      return Done;
    }
  }
}
