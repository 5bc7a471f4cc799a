/**
 The watcher's configuration: loadConfig of internal/watcher/schema.go, and the round trip from a
 KyvernoArtifact through the pod's environment back to it.
 */
module WatcherConfig {
  import opened Wrappers
  import opened Text
  import opened Kubernetes
  import opened Image
  import opened Controller

  datatype Config = Config(
    githubToken: string,
    imageBase: string,
    owner: string,
    package: string,
    packageNormalized: string,
    pollInterval: int,
    pollForTagChanges: bool,
    githubAPIOwnerType: string,
    provider: string,
    username: string,
    password: string,
    artifactName: string,
    deletePoliciesOnTermination: bool,
    reconcilePoliciesFromChecksum: bool,
    watcherImage: string,
    podNamespace: string)

  function OrDefault(value: string, default: string): string {
    if value != "" then value else default
  }

  function AsBool(value: string, default: bool): bool {
    if value == "" then default else ToLower(value) in {"t", "true", "1"}
  }

  function AsInt(value: string, default: int): int {
    if value == "" then default else ScanInt(value).GetOr(default)
  }

  /** Keeps the printable ASCII characters. */
  function Printable(s: string): string {
    if s == "" then "" else (if 32 <= s[0] as int <= 126 then [s[0]] else []) + Printable(s[1..])
  }

  function Token(value: string): string {
    Printable(TrimSpace(value))
  }

  function ArtifactNameOf(name: string, hostname: string): string {
    if name != "" then name
    else if HasPrefix(hostname, "kyverno-artifact-manager-") then hostname[|"kyverno-artifact-manager-"|..]
    else ""
  }

  datatype Access = Access(token: string, owner: string, package: string, username: string, password: string)

  /** What the provider needs; an error here ends the process. */
  function AccessOf(env: map<string, string>, provider: string, imageBase: string): Result<Access, string> {
    if provider == "github" then
      if Token(At(env, "GITHUB_TOKEN")) == "" then Err("GITHUB_TOKEN environment variable must be set")
      else
        match ParseImageBase(imageBase)
        case Err(e) => Err(e)
        case Ok((owner, package)) => Ok(Access(Token(At(env, "GITHUB_TOKEN")), owner, package, "", ""))
    else if provider == "artifactory" then
      var username, password := TrimSpace(At(env, "ARTIFACTORY_USERNAME")), TrimSpace(At(env, "ARTIFACTORY_PASSWORD"));
      if username == "" || password == "" then Err("ARTIFACTORY_USERNAME and ARTIFACTORY_PASSWORD must be set")
      else Ok(Access("", "", "", username, password))
    else Err("Unsupported PROVIDER")
  }

  function LoadConfig(env: map<string, string>): Result<Config, string> {
    var provider := ToLower(OrDefault(At(env, "PROVIDER"), "github"));
    var imageBase := At(env, "IMAGE_BASE");
    if imageBase == "" then Err("IMAGE_BASE environment variable must be set")
    else
      match AccessOf(env, provider, imageBase)
      case Err(e) => Err(e)
      case Ok(access) =>
        Ok(Config(
             access.token, imageBase, access.owner, access.package, ReplaceAll(access.package, '/', "%2F"),
             AsInt(At(env, "POLL_INTERVAL"), 30),
             AsBool(At(env, "WATCHER_POLL_FOR_TAG_CHANGES_ENABLED"), true),
             OrDefault(At(env, "GITHUB_API_OWNER_TYPE"), "users"),
             provider, access.username, access.password,
             ArtifactNameOf(At(env, "ARTIFACT_NAME"), At(env, "HOSTNAME")),
             AsBool(At(env, "WATCHER_DELETE_POLICIES_ON_TERMINATION"), false),
             AsBool(At(env, "WATCHER_CHECKSUM_RECONCILIATION_ENABLED"), false),
             At(env, "WATCHER_IMAGE"), At(env, "POD_NAMESPACE")))
  }

  /** The watcher's start, reading variable by variable; a fatal error is an Err. */
  method ReadConfig(env: map<string, string>) returns (r: Result<Config, string>)
    ensures r == LoadConfig(env)
  {
    var provider := ToLower(OrDefault(At(env, "PROVIDER"), "github"));
    var githubToken, username, password, owner, packageName := "", "", "", "", "";
    var imageBase := At(env, "IMAGE_BASE");
    if imageBase == "" {
      return Err("IMAGE_BASE environment variable must be set");
    }
    if provider == "github" {
      githubToken := Token(At(env, "GITHUB_TOKEN"));
      if githubToken == "" {
        return Err("GITHUB_TOKEN environment variable must be set");
      }
      var parsed := ParseImageBase(imageBase);
      if parsed.Err? {
        return Err(parsed.error);
      }
      owner, packageName := parsed.value.0, parsed.value.1;
    } else if provider == "artifactory" {
      username := TrimSpace(At(env, "ARTIFACTORY_USERNAME"));
      password := TrimSpace(At(env, "ARTIFACTORY_PASSWORD"));
      if username == "" || password == "" {
        return Err("ARTIFACTORY_USERNAME and ARTIFACTORY_PASSWORD must be set");
      }
    } else {
      return Err("Unsupported PROVIDER");
    }
    var artifactName := At(env, "ARTIFACT_NAME");
    if artifactName == "" {
      var hostname := At(env, "HOSTNAME");
      if HasPrefix(hostname, "kyverno-artifact-manager-") {
        artifactName := hostname[|"kyverno-artifact-manager-"|..];
      }
    }
    r := Ok(Config(
              githubToken, imageBase, owner, packageName, ReplaceAll(packageName, '/', "%2F"),
              AsInt(At(env, "POLL_INTERVAL"), 30),
              AsBool(At(env, "WATCHER_POLL_FOR_TAG_CHANGES_ENABLED"), true),
              OrDefault(At(env, "GITHUB_API_OWNER_TYPE"), "users"),
              provider, username, password, artifactName,
              AsBool(At(env, "WATCHER_DELETE_POLICIES_ON_TERMINATION"), false),
              AsBool(At(env, "WATCHER_CHECKSUM_RECONCILIATION_ENABLED"), false),
              At(env, "WATCHER_IMAGE"), At(env, "POD_NAMESPACE")));
  }

  // ---- The container's environment ----

  /** What the kubelet adds: variables set elsewhere, the secrets and the pod's namespace. */
  datatype Kubelet = Kubelet(ambient: map<string, string>, secret: (string, string) -> string, namespace: string)

  function ValueOf(k: Kubelet, v: EnvVar): string {
    match v.source
    case Literal => v.value
    case SecretKey(secret, key) => k.secret(secret, key)
    case PodField(_) => k.namespace
  }

  /** The environment of the started container; a later variable wins. */
  function Resolve(k: Kubelet, env: seq<EnvVar>): map<string, string> {
    if env == [] then k.ambient
    else Resolve(k, env[..|env| - 1])[env[|env| - 1].name := ValueOf(k, env[|env| - 1])]
  }

  const RESERVED_VARS := {
    "WATCHER_DELETE_POLICIES_ON_TERMINATION", "WATCHER_CHECKSUM_RECONCILIATION_ENABLED",
    "WATCHER_POLL_FOR_TAG_CHANGES_ENABLED", "GITHUB_TOKEN", "ARTIFACTORY_USERNAME", "ARTIFACTORY_PASSWORD" }

  lemma ResolveAppend(k: Kubelet, env: seq<EnvVar>, v: EnvVar)
    ensures Resolve(k, env + [v]) == Resolve(k, env)[v.name := ValueOf(k, v)]
  {
    assert (env + [v])[..|env|] == env;
  }

  ghost predicate Foreign(env: seq<EnvVar>, x: string) {
    forall i :: 0 <= i < |env| ==> env[i].name != x
  }

  lemma {:induction false} ResolveFrame(k: Kubelet, env: seq<EnvVar>, more: seq<EnvVar>, x: string)
    requires Foreign(more, x)
    ensures At(Resolve(k, env + more), x) == At(Resolve(k, env), x)
    decreases |more|
  {
    if more == [] {
      NothingAdded(env);
    } else {
      var n := |more| - 1;
      ResolveFrame(k, env, more[..n], x);
      ResolveAppend(k, env + more[..n], more[n]);
      assert env + more == (env + more[..n]) + [more[n]];
    }
  }

  lemma ResolveWhen(k: Kubelet, env: seq<EnvVar>, b: bool, v: EnvVar, x: string)
    requires !b ==> At(Resolve(k, env), x) == ""
    requires v.name == x && v.source.Literal?
    ensures At(Resolve(k, env + When(b, v)), x) == if b then v.value else ""
  {
    if b {
      ResolveAppend(k, env, v);
    } else {
      NothingAdded(env);
    }
  }

  // ---- Which variable stands where ----

  ghost function Head(name: Name, a: ArtifactSpec): seq<EnvVar> {
    Flagged(Basics(name, a), a)
  }

  ghost function Flag1(a: ArtifactSpec): seq<EnvVar> {
    When(a.deletePoliciesOnTermination == Some(true), Plain("WATCHER_DELETE_POLICIES_ON_TERMINATION", "true"))
  }

  ghost function Flag2(a: ArtifactSpec): seq<EnvVar> {
    Optional(a.reconcilePoliciesFromChecksum, "WATCHER_CHECKSUM_RECONCILIATION_ENABLED")
  }

  ghost function Flag3(a: ArtifactSpec): seq<EnvVar> {
    Optional(a.pollForTagChanges, "WATCHER_POLL_FOR_TAG_CHANGES_ENABLED")
  }

  /** The names differ: most in length, the rest in their eighth or thirteenth letter. */
  lemma ForeignByShape(a: ArtifactSpec, cfg: Settings, x: string)
    ensures |x| != 38 ==> Foreign(Flag1(a), x)
    ensures |x| != 39 ==> Foreign(Flag2(a), x)
    ensures |x| != 36 ==> Foreign(Flag3(a), x)
    ensures |x| != 12 && |x| != 20 ==> Foreign(Credentials(ProviderOf(a), cfg), x)
    ensures |x| != 13 || x[7] == 'T' ==> Foreign(Injected(cfg), x)
  {
    assert |"WATCHER_DELETE_POLICIES_ON_TERMINATION"| == 38;
    assert |"WATCHER_CHECKSUM_RECONCILIATION_ENABLED"| == 39;
    assert |"WATCHER_POLL_FOR_TAG_CHANGES_ENABLED"| == 36;
    assert |"GITHUB_TOKEN"| == 12 && |"ARTIFACTORY_USERNAME"| == 20 && |"ARTIFACTORY_PASSWORD"| == 20;
    assert |"WATCHER_IMAGE"| == 13 && |"POD_NAMESPACE"| == 13;
    assert "WATCHER_IMAGE"[7] == '_' && "POD_NAMESPACE"[7] == 'E';
  }

  /** Of the variables in front, those of another shape than the rest read the same in the whole environment. */
  lemma BasicSurvives(k: Kubelet, name: Name, a: ArtifactSpec, cfg: Settings, x: string)
    requires |x| < 12 || (|x| == 13 && x[7] == 'T')
    ensures At(Resolve(k, EnvOf(name, a, cfg)), x) == At(Resolve(k, Basics(name, a)), x)
  {
    var e0 := Basics(name, a);
    ForeignByShape(a, cfg, x);
    ResolveFrame(k, e0, Flag1(a), x);
    ResolveFrame(k, e0 + Flag1(a), Flag2(a), x);
    ResolveFrame(k, e0 + Flag1(a) + Flag2(a), Flag3(a), x);
    ResolveFrame(k, Head(name, a), Credentials(ProviderOf(a), cfg), x);
    ResolveFrame(k, Head(name, a) + Credentials(ProviderOf(a), cfg), Injected(cfg), x);
  }

  lemma BasicsResolve(k: Kubelet, name: Name, a: ArtifactSpec)
    ensures var m := Resolve(k, Basics(name, a));
            && At(m, "IMAGE_BASE") == UrlOf(a) && At(m, "POLL_INTERVAL") == IntervalText(a)
            && At(m, "PROVIDER") == ProviderOf(a) && At(m, "ARTIFACT_NAME") == name
  {
    var e := Basics(name, a);
    ResolveAppend(k, [], e[0]);
    ResolveAppend(k, [e[0]], e[1]);
    ResolveAppend(k, [e[0], e[1]], e[2]);
    ResolveAppend(k, [e[0], e[1], e[2]], e[3]);
    assert [] + [e[0]] == [e[0]];
    assert [e[0]] + [e[1]] == [e[0], e[1]];
    assert [e[0], e[1]] + [e[2]] == [e[0], e[1], e[2]];
    assert e == [e[0], e[1], e[2]] + [e[3]];
    assert |"IMAGE_BASE"| == 10 && |"POLL_INTERVAL"| == 13 && |"PROVIDER"| == 8 && |"ARTIFACT_NAME"| == 13;
    assert "POLL_INTERVAL"[0] == 'P' && "ARTIFACT_NAME"[0] == 'A';
  }

  lemma BasicsForeign(name: Name, a: ArtifactSpec, x: string)
    requires |x| > 13 || |x| == 12
    ensures Foreign(Basics(name, a), x)
  {
    assert |"IMAGE_BASE"| == 10 && |"POLL_INTERVAL"| == 13 && |"PROVIDER"| == 8 && |"ARTIFACT_NAME"| == 13;
  }

  /** In front of the flags stands the ambient value. */
  lemma AmbientShows(k: Kubelet, name: Name, a: ArtifactSpec, x: string)
    requires |x| > 13 || |x| == 12
    ensures At(Resolve(k, Basics(name, a)), x) == At(k.ambient, x)
  {
    BasicsForeign(name, a, x);
    ResolveFrame(k, [], Basics(name, a), x);
    assert [] + Basics(name, a) == Basics(name, a);
  }

  lemma FlagsResolve(k: Kubelet, name: Name, a: ArtifactSpec, cfg: Settings)
    requires RESERVED_VARS !! k.ambient.Keys
    ensures var m := Resolve(k, EnvOf(name, a, cfg));
            && At(m, "WATCHER_DELETE_POLICIES_ON_TERMINATION") ==
               (if a.deletePoliciesOnTermination == Some(true) then "true" else "")
            && At(m, "WATCHER_CHECKSUM_RECONCILIATION_ENABLED") ==
               (if a.reconcilePoliciesFromChecksum.Some? then BoolText(a.reconcilePoliciesFromChecksum.value) else "")
            && At(m, "WATCHER_POLL_FOR_TAG_CHANGES_ENABLED") ==
               (if a.pollForTagChanges.Some? then BoolText(a.pollForTagChanges.value) else "")
  {
    var x1, x2, x3 := "WATCHER_DELETE_POLICIES_ON_TERMINATION", "WATCHER_CHECKSUM_RECONCILIATION_ENABLED", POLLS;
    assert |x1| == 38 && |x2| == 39 && |x3| == 36;
    assert x1 in RESERVED_VARS && x2 in RESERVED_VARS && x3 in RESERVED_VARS;
    var e0 := Basics(name, a);
    var e1 := e0 + Flag1(a);
    var e2 := e1 + Flag2(a);
    var e3 := e2 + Flag3(a);
    AmbientShows(k, name, a, x1);
    AmbientShows(k, name, a, x2);
    AmbientShows(k, name, a, x3);
    ForeignByShape(a, cfg, x1);
    ForeignByShape(a, cfg, x2);
    ForeignByShape(a, cfg, x3);
    ResolveWhen(k, e0, a.deletePoliciesOnTermination == Some(true), Plain(x1, "true"), x1);
    ResolveFrame(k, e1, Flag2(a), x1);
    ResolveFrame(k, e2, Flag3(a), x1);
    ResolveFrame(k, e0, Flag1(a), x2);
    ResolveWhen(k, e1, a.reconcilePoliciesFromChecksum.Some?,
                Plain(x2, BoolText(a.reconcilePoliciesFromChecksum.GetOr(false))), x2);
    ResolveFrame(k, e2, Flag3(a), x2);
    ResolveFrame(k, e0, Flag1(a), x3);
    ResolveFrame(k, e1, Flag2(a), x3);
    ResolveWhen(k, e2, a.pollForTagChanges.Some?, Plain(x3, BoolText(a.pollForTagChanges.GetOr(false))), x3);
    TailForeign(k, e3, a, cfg, x1);
    TailForeign(k, e3, a, cfg, x2);
    TailForeign(k, e3, a, cfg, x3);
  }

  lemma TailForeign(k: Kubelet, env: seq<EnvVar>, a: ArtifactSpec, cfg: Settings, x: string)
    requires |x| > 20
    ensures At(Resolve(k, env + Credentials(ProviderOf(a), cfg) + Injected(cfg)), x) == At(Resolve(k, env), x)
  {
    ForeignByShape(a, cfg, x);
    ResolveFrame(k, env, Credentials(ProviderOf(a), cfg), x);
    ResolveFrame(k, env + Credentials(ProviderOf(a), cfg), Injected(cfg), x);
  }

  lemma HeadShowsAmbient(k: Kubelet, name: Name, a: ArtifactSpec, cfg: Settings, x: string)
    requires |x| == 12 || |x| == 20
    ensures At(Resolve(k, Head(name, a)), x) == At(k.ambient, x)
  {
    var e0 := Basics(name, a);
    AmbientShows(k, name, a, x);
    ForeignByShape(a, cfg, x);
    ResolveFrame(k, e0, Flag1(a), x);
    ResolveFrame(k, e0 + Flag1(a), Flag2(a), x);
    ResolveFrame(k, e0 + Flag1(a) + Flag2(a), Flag3(a), x);
  }

  lemma CredentialsResolve(k: Kubelet, name: Name, a: ArtifactSpec, cfg: Settings)
    requires RESERVED_VARS !! k.ambient.Keys
    ensures var m := Resolve(k, EnvOf(name, a, cfg));
            && At(m, "GITHUB_TOKEN") ==
               (if ProviderOf(a) == "github" then k.secret(cfg.secretName, cfg.githubTokenKey) else "")
            && At(m, "ARTIFACTORY_USERNAME") ==
               (if ProviderOf(a) == "artifactory" then k.secret(cfg.secretName, cfg.artifactoryUsernameKey) else "")
            && At(m, "ARTIFACTORY_PASSWORD") ==
               (if ProviderOf(a) == "artifactory" then k.secret(cfg.secretName, cfg.artifactoryPasswordKey) else "")
  {
    CredentialsAtHead(k, Head(name, a), a, cfg);
    var y1, y2, y3 := "GITHUB_TOKEN", "ARTIFACTORY_USERNAME", "ARTIFACTORY_PASSWORD";
    assert |y1| == 12 && |y2| == 20 && |y3| == 20;
    assert y1 in RESERVED_VARS && y2 in RESERVED_VARS && y3 in RESERVED_VARS;
    var e := Head(name, a) + Credentials(ProviderOf(a), cfg);
    HeadShowsAmbient(k, name, a, cfg, y1);
    HeadShowsAmbient(k, name, a, cfg, y2);
    HeadShowsAmbient(k, name, a, cfg, y3);
    ForeignByShape(a, cfg, y1);
    ForeignByShape(a, cfg, y2);
    ForeignByShape(a, cfg, y3);
    ResolveFrame(k, e, Injected(cfg), y1);
    ResolveFrame(k, e, Injected(cfg), y2);
    ResolveFrame(k, e, Injected(cfg), y3);
  }

  lemma CredentialsAtHead(k: Kubelet, e: seq<EnvVar>, a: ArtifactSpec, cfg: Settings)
    ensures var m, m' := Resolve(k, e), Resolve(k, e + Credentials(ProviderOf(a), cfg));
            && At(m', "GITHUB_TOKEN") ==
               (if ProviderOf(a) == "github" then k.secret(cfg.secretName, cfg.githubTokenKey)
                else At(m, "GITHUB_TOKEN"))
            && At(m', "ARTIFACTORY_USERNAME") ==
               (if ProviderOf(a) == "artifactory" then k.secret(cfg.secretName, cfg.artifactoryUsernameKey)
                else At(m, "ARTIFACTORY_USERNAME"))
            && At(m', "ARTIFACTORY_PASSWORD") ==
               (if ProviderOf(a) == "artifactory" then k.secret(cfg.secretName, cfg.artifactoryPasswordKey)
                else At(m, "ARTIFACTORY_PASSWORD"))
  {
    var creds := Credentials(ProviderOf(a), cfg);
    assert |"GITHUB_TOKEN"| == 12 && |"ARTIFACTORY_USERNAME"| == 20 && |"ARTIFACTORY_PASSWORD"| == 20;
    assert "ARTIFACTORY_USERNAME"[12] == 'U' && "ARTIFACTORY_PASSWORD"[12] == 'P';
    if ProviderOf(a) == "github" {
      assert |"github"| == 6 && |"artifactory"| == 11;
      ResolveAppend(k, e, creds[0]);
    } else if ProviderOf(a) == "artifactory" {
      ResolveAppend(k, e, creds[0]);
      ResolveAppend(k, e + [creds[0]], creds[1]);
      assert e + creds == e + [creds[0]] + [creds[1]];
    } else {
      NothingAdded(e);
    }
  }

  lemma InjectedResolve(k: Kubelet, name: Name, a: ArtifactSpec, cfg: Settings)
    ensures var m := Resolve(k, EnvOf(name, a, cfg));
            At(m, "WATCHER_IMAGE") == cfg.watcherImage && At(m, "POD_NAMESPACE") == k.namespace
  {
    var i := Injected(cfg);
    assert i[0].name[0] == 'W' && i[1].name[0] == 'P';
    TwoAppended(k, Head(name, a) + Credentials(ProviderOf(a), cfg), i[0], i[1]);
    assert i == [i[0], i[1]];
  }

  lemma TwoAppended(k: Kubelet, e: seq<EnvVar>, v: EnvVar, w: EnvVar)
    requires v.name != w.name
    ensures var m := Resolve(k, e + [v, w]); At(m, v.name) == ValueOf(k, v) && At(m, w.name) == ValueOf(k, w)
  {
    ResolveAppend(k, e, v);
    ResolveAppend(k, e + [v], w);
    assert e + [v, w] == e + [v] + [w];
  }

  // ---- Round trip ----

  /** The artifacts whose watcher can start: a known provider, spelled as the controller does, with its credentials. */
  predicate Startable(k: Kubelet, a: ArtifactSpec, cfg: Settings) {
    a.url !in {None, Some("")} &&
    if a.provider in {None, Some(""), Some("github")} then
      Token(k.secret(cfg.secretName, cfg.githubTokenKey)) != "" && ParseImageBase(a.url.value).Ok?
    else
      && a.provider == Some("artifactory")
      && TrimSpace(k.secret(cfg.secretName, cfg.artifactoryUsernameKey)) != ""
      && TrimSpace(k.secret(cfg.secretName, cfg.artifactoryPasswordKey)) != ""
  }

  lemma {:induction false} LowerKeepsLength(s: string)
    ensures |ToLower(s)| == |s|
    ensures forall i :: 0 <= i < |s| && 'a' <= s[i] <= 'z' ==> ToLower(s)[i] == s[i]
  {
    if s != "" {
      LowerKeepsLength(s[1..]);
      forall i | 0 <= i < |s| && 'a' <= s[i] <= 'z' ensures ToLower(s)[i] == s[i] {
        if i > 0 {
          assert ToLower(s)[i] == ToLower(s[1..])[i - 1] && s[1..][i - 1] == s[i];
        }
      }
    }
  }

  lemma LowerFixes(s: string)
    requires forall i :: 0 <= i < |s| ==> 'a' <= s[i] <= 'z'
    ensures ToLower(s) == s
  {
    LowerKeepsLength(s);
  }

  lemma BoolRoundTrip(b: Option<bool>, default: bool)
    ensures AsBool(if b.Some? then BoolText(b.value) else "", default) == b.GetOr(default)
  {
    LowerFixes("true");
    LowerFixes("false");
    assert |"t"| == 1 && |"true"| == 4 && |"1"| == 1 && |"false"| == 5;
  }

  lemma IntervalRoundTrip(a: ArtifactSpec)
    ensures IntervalText(a) != "" && AsInt(IntervalText(a), 30) == IntervalOf(a)
  {
    assert Digits(60) == Digits(6) + ['0'] && Digits(6) == ['6'];
    assert IntervalText(a) == Itoa(IntervalOf(a));
    ScanInvertsItoa(IntervalOf(a));
  }

  /** The configuration a started watcher ends up with. */
  ghost predicate Describes(c: Config, k: Kubelet, name: Name, a: ArtifactSpec, cfg: Settings) {
    && c.imageBase == a.url.GetOr("") && c.artifactName == name
    && c.provider == (if a.provider in {None, Some("")} then "github" else a.provider.value)
    && c.pollInterval == (if a.pollingInterval.Some? then a.pollingInterval.value else 60)
    && c.pollForTagChanges == a.pollForTagChanges.GetOr(true)
    && c.deletePoliciesOnTermination == a.deletePoliciesOnTermination.GetOr(false)
    && c.reconcilePoliciesFromChecksum == a.reconcilePoliciesFromChecksum.GetOr(false)
    && c.watcherImage == cfg.watcherImage && c.podNamespace == k.namespace
    && c.githubAPIOwnerType == OwnerType(k)
    && (c.provider == "github" ==> ParseImageBase(c.imageBase) == Ok((c.owner, c.package)))
    && Credited(Access(c.githubToken, c.owner, c.package, c.username, c.password), k, a, cfg)
  }

  /** The credentials are those of the spec's provider, cleaned, and no others. */
  ghost predicate Credited(access: Access, k: Kubelet, a: ArtifactSpec, cfg: Settings) {
    if a.provider in {None, Some(""), Some("github")} then
      access.token == Token(k.secret(cfg.secretName, cfg.githubTokenKey)) && access.username == access.password == ""
    else
      && access.token == ""
      && access.username == TrimSpace(k.secret(cfg.secretName, cfg.artifactoryUsernameKey))
      && access.password == TrimSpace(k.secret(cfg.secretName, cfg.artifactoryPasswordKey))
  }

  /** The controller does not set the kind of owner; it may be in the image's own environment. */
  ghost function OwnerType(k: Kubelet): string {
    if "GITHUB_API_OWNER_TYPE" in k.ambient && k.ambient["GITHUB_API_OWNER_TYPE"] != "" then
      k.ambient["GITHUB_API_OWNER_TYPE"]
    else "users"
  }

  /** The environment holds, under each name, what the spec and the kubelet put there. */
  ghost predicate Carries(m: map<string, string>, k: Kubelet, name: Name, a: ArtifactSpec, cfg: Settings) {
    && At(m, "IMAGE_BASE") == UrlOf(a) && At(m, "POLL_INTERVAL") == IntervalText(a)
    && At(m, "PROVIDER") == ProviderOf(a) && At(m, "ARTIFACT_NAME") == name
    && At(m, "WATCHER_DELETE_POLICIES_ON_TERMINATION") ==
       (if a.deletePoliciesOnTermination == Some(true) then "true" else "")
    && At(m, "WATCHER_CHECKSUM_RECONCILIATION_ENABLED") ==
       (if a.reconcilePoliciesFromChecksum.Some? then BoolText(a.reconcilePoliciesFromChecksum.value) else "")
    && At(m, "WATCHER_POLL_FOR_TAG_CHANGES_ENABLED") ==
       (if a.pollForTagChanges.Some? then BoolText(a.pollForTagChanges.value) else "")
    && At(m, "GITHUB_TOKEN") == (if ProviderOf(a) == "github" then k.secret(cfg.secretName, cfg.githubTokenKey) else "")
    && At(m, "ARTIFACTORY_USERNAME") ==
       (if ProviderOf(a) == "artifactory" then k.secret(cfg.secretName, cfg.artifactoryUsernameKey) else "")
    && At(m, "ARTIFACTORY_PASSWORD") ==
       (if ProviderOf(a) == "artifactory" then k.secret(cfg.secretName, cfg.artifactoryPasswordKey) else "")
    && At(m, "WATCHER_IMAGE") == cfg.watcherImage && At(m, "POD_NAMESPACE") == k.namespace
    && At(m, "GITHUB_API_OWNER_TYPE") == At(k.ambient, "GITHUB_API_OWNER_TYPE")
  }

  lemma OwnerTypeSurvives(k: Kubelet, name: Name, a: ArtifactSpec, cfg: Settings)
    ensures At(Resolve(k, EnvOf(name, a, cfg)), "GITHUB_API_OWNER_TYPE") == At(k.ambient, "GITHUB_API_OWNER_TYPE")
  {
    var x := "GITHUB_API_OWNER_TYPE";
    assert |x| == 21;
    var e0 := Basics(name, a);
    AmbientShows(k, name, a, x);
    ForeignByShape(a, cfg, x);
    ResolveFrame(k, e0, Flag1(a), x);
    ResolveFrame(k, e0 + Flag1(a), Flag2(a), x);
    ResolveFrame(k, e0 + Flag1(a) + Flag2(a), Flag3(a), x);
    TailForeign(k, Head(name, a), a, cfg, x);
  }

  lemma PodEnvCarries(k: Kubelet, name: Name, a: ArtifactSpec, cfg: Settings)
    requires RESERVED_VARS !! k.ambient.Keys
    ensures Carries(Resolve(k, EnvOf(name, a, cfg)), k, name, a, cfg)
  {
    BasicsResolve(k, name, a);
    assert |"IMAGE_BASE"| == 10 && |"PROVIDER"| == 8 && |"POLL_INTERVAL"| == 13 && |"ARTIFACT_NAME"| == 13;
    assert "POLL_INTERVAL"[7] == 'T' && "ARTIFACT_NAME"[7] == 'T';
    BasicSurvives(k, name, a, cfg, "IMAGE_BASE");
    BasicSurvives(k, name, a, cfg, "PROVIDER");
    BasicSurvives(k, name, a, cfg, "POLL_INTERVAL");
    BasicSurvives(k, name, a, cfg, "ARTIFACT_NAME");
    FlagsResolve(k, name, a, cfg);
    CredentialsResolve(k, name, a, cfg);
    InjectedResolve(k, name, a, cfg);
    OwnerTypeSurvives(k, name, a, cfg);
  }

  lemma ProvidersLower()
    ensures ToLower("github") == "github" && ToLower("artifactory") == "artifactory"
  {
    LowerFixes("github");
    LowerFixes("artifactory");
  }

  lemma EmptyTrims()
    ensures TrimSpace("") == "" && Token("") == ""
  {
  }

  lemma AccessExact(m: map<string, string>, k: Kubelet, name: Name, a: ArtifactSpec, cfg: Settings)
    requires Carries(m, k, name, a, cfg) && UrlOf(a) != ""
    ensures AccessOf(m, ToLower(ProviderOf(a)), UrlOf(a)).Ok? <==> Startable(k, a, cfg)
  {
    var provider := ProviderOf(a);
    if provider == "github" {
      GithubAccess(m, UrlOf(a));
    } else if provider == "artifactory" {
      ArtifactoryAccess(m, UrlOf(a));
    } else {
      NoCredentialsNoAccess(m, ToLower(provider), UrlOf(a));
    }
  }

  lemma GithubAccess(m: map<string, string>, imageBase: string)
    ensures AccessOf(m, ToLower("github"), imageBase).Ok? <==>
            Token(At(m, "GITHUB_TOKEN")) != "" && ParseImageBase(imageBase).Ok?
  {
    ProvidersLower();
  }

  lemma ArtifactoryAccess(m: map<string, string>, imageBase: string)
    ensures AccessOf(m, ToLower("artifactory"), imageBase).Ok? <==>
            TrimSpace(At(m, "ARTIFACTORY_USERNAME")) != "" && TrimSpace(At(m, "ARTIFACTORY_PASSWORD")) != ""
  {
    ProvidersLower();
    assert |"github"| == 6 && |"artifactory"| == 11;
  }

  lemma StartableIsLower(k: Kubelet, a: ArtifactSpec, cfg: Settings)
    requires Startable(k, a, cfg)
    ensures ToLower(ProviderOf(a)) == ProviderOf(a)
  {
    ProvidersLower();
  }

  lemma NoCredentialsNoAccess(m: map<string, string>, provider: string, imageBase: string)
    requires At(m, "GITHUB_TOKEN") == "" && At(m, "ARTIFACTORY_USERNAME") == ""
    ensures AccessOf(m, provider, imageBase).Err?
  {
    EmptyTrims();
  }

  lemma ValuesLoad(m: map<string, string>, k: Kubelet, name: Name, a: ArtifactSpec, cfg: Settings)
    requires Carries(m, k, name, a, cfg)
    ensures AsInt(At(m, "POLL_INTERVAL"), 30) == IntervalOf(a)
    ensures AsBool(At(m, "WATCHER_POLL_FOR_TAG_CHANGES_ENABLED"), true) == PollsTags(a)
    ensures AsBool(At(m, "WATCHER_DELETE_POLICIES_ON_TERMINATION"), false) == a.deletePoliciesOnTermination.GetOr(false)
    ensures AsBool(At(m, "WATCHER_CHECKSUM_RECONCILIATION_ENABLED"), false)
            == a.reconcilePoliciesFromChecksum.GetOr(false)
  {
    IntervalRoundTrip(a);
    BoolRoundTrip(a.pollForTagChanges, true);
    BoolRoundTrip(a.reconcilePoliciesFromChecksum, false);
    BoolRoundTrip(if a.deletePoliciesOnTermination == Some(true) then Some(true) else None, false);
  }

  lemma ProviderLoads(m: map<string, string>, k: Kubelet, name: Name, a: ArtifactSpec, cfg: Settings)
    requires Carries(m, k, name, a, cfg) && UrlOf(a) != ""
    ensures var provider := ToLower(OrDefault(At(m, "PROVIDER"), "github"));
            var access := AccessOf(m, provider, UrlOf(a));
            && (access.Ok? <==> Startable(k, a, cfg))
            && (access.Ok? ==> provider == ProviderOf(a) && Credited(access.value, k, a, cfg))
            && (access.Ok? && provider == "github" ==>
                  ParseImageBase(UrlOf(a)) == Ok((access.value.owner, access.value.package)))
  {
    AccessExact(m, k, name, a, cfg);
    assert At(m, "PROVIDER") != "";
    if Startable(k, a, cfg) {
      StartableIsLower(k, a, cfg);
      AccessIsCredited(m, k, name, a, cfg, AccessOf(m, ProviderOf(a), UrlOf(a)).value);
    }
  }

  lemma AccessIsCredited(
      m: map<string, string>, k: Kubelet, name: Name, a: ArtifactSpec, cfg: Settings, access: Access)
    requires Carries(m, k, name, a, cfg) && AccessOf(m, ProviderOf(a), UrlOf(a)) == Ok(access)
    ensures Credited(access, k, a, cfg)
    ensures ProviderOf(a) == "github" ==> ParseImageBase(UrlOf(a)) == Ok((access.owner, access.package))
  {
  }

  lemma OwnerTypeLoads(m: map<string, string>, k: Kubelet, name: Name, a: ArtifactSpec, cfg: Settings)
    requires Carries(m, k, name, a, cfg)
    ensures OrDefault(At(m, "GITHUB_API_OWNER_TYPE"), "users") == OwnerType(k)
  {
  }

  /** Once the access is settled, the rest of the configuration is what the environment carries. */
  lemma AccessThenDescribes(
      m: map<string, string>, k: Kubelet, name: Name, a: ArtifactSpec, cfg: Settings, access: Access)
    requires name != "" && Carries(m, k, name, a, cfg) && UrlOf(a) != ""
    requires ToLower(OrDefault(At(m, "PROVIDER"), "github")) == ProviderOf(a)
    requires AccessOf(m, ProviderOf(a), UrlOf(a)) == Ok(access) && Credited(access, k, a, cfg)
    requires ProviderOf(a) == "github" ==> ParseImageBase(UrlOf(a)) == Ok((access.owner, access.package))
    ensures LoadConfig(m).Ok? && Describes(LoadConfig(m).value, k, name, a, cfg)
  {
    ValuesLoad(m, k, name, a, cfg);
    OwnerTypeLoads(m, k, name, a, cfg);
  }

  lemma LoadsWhatIsCarried(m: map<string, string>, k: Kubelet, name: Name, a: ArtifactSpec, cfg: Settings)
    requires name != "" && Carries(m, k, name, a, cfg)
    ensures LoadConfig(m).Ok? <==> Startable(k, a, cfg)
    ensures LoadConfig(m).Ok? ==> Describes(LoadConfig(m).value, k, name, a, cfg)
  {
    if UrlOf(a) != "" {
      ProviderLoads(m, k, name, a, cfg);
      var access := AccessOf(m, ToLower(OrDefault(At(m, "PROVIDER"), "github")), UrlOf(a));
      if access.Ok? {
        AccessThenDescribes(m, k, name, a, cfg, access.value);
      }
    }
  }

  /**
   Round trip: the watcher started in the pod built for a spec accepts its environment exactly when the spec is
   startable, and then its configuration says what the spec says, with the defaults 60, github, true, false, false.
   */
  lemma SpecReachesWatcher(k: Kubelet, name: Name, a: ArtifactSpec, cfg: Settings)
    requires name != "" && RESERVED_VARS !! k.ambient.Keys
    ensures var loaded := LoadConfig(Resolve(k, PodOf(name, a, cfg).containers[0].env));
            && (loaded.Ok? <==> Startable(k, a, cfg))
            && (loaded.Ok? ==> Describes(loaded.value, k, name, a, cfg))
  {
    PodEnvCarries(k, name, a, cfg);
    LoadsWhatIsCarried(Resolve(k, EnvOf(name, a, cfg)), k, name, a, cfg);
  }
}
