/**
 The shared cluster state and its API server.

 Everything an actor cannot control is an input: `Env` says what other actors do to the cluster before each
 API call, which calls fail and how, in what order lists come back, and which objects admission accepts.
 A `World` is the cluster plus, for every API call made so far, the cluster that call saw.  The functions
 below give the meaning of one call; class `ApiServer` is the server the actors' methods talk to.
 */
module Kubernetes {
  import opened Wrappers

  /** A legal path segment of the API (rest.IsValidPathSegmentName); cluster-scoped objects have namespace "". */
  type Name = s: string | s != "." && s != ".." && '/' !in s && '%' !in s

  type Labels = map<string, string>

  type Int32 = n: int | -0x8000_0000 <= n < 0x8000_0000

  datatype Resource = Policies | ClusterPolicies | Custom(plural: string)

  datatype ObjKey = ObjKey(resource: Resource, namespace: Name, name: Name)

  /** What a manifest says about an object: labels, the JSON text of its spec if it has one, and the rest. */
  datatype Content = Content(labels: Labels, spec: Option<string>, rest: string)

  datatype Stored = Stored(content: Content, version: nat)

  datatype NsName = NsName(namespace: Name, name: Name)

  datatype PodPhase = Pending | Running | Succeeded | Failed | Unknown

  datatype EnvSource = Literal | SecretKey(secret: string, key: string) | PodField(path: string)

  datatype EnvVar = EnvVar(name: string, value: string, source: EnvSource)

  datatype Container = Container(name: string, image: string, args: seq<string>, env: seq<EnvVar>)

  /** A pod whose deletion was accepted is `terminating` until the kubelet has stopped it. */
  datatype Pod = Pod(
    labels: Labels, serviceAccount: string, containers: seq<Container>, phase: PodPhase, terminating: bool)

  datatype ArtifactSpec = ArtifactSpec(
    url: Option<string>,
    provider: Option<string>,
    pollingInterval: Option<Int32>,
    deletePoliciesOnTermination: Option<bool>,
    reconcilePoliciesFromChecksum: Option<bool>,
    pollForTagChanges: Option<bool>)

  datatype Cluster = Cluster(
    objects: map<ObjKey, Stored>,
    pods: map<NsName, Pod>,
    artifacts: map<NsName, ArtifactSpec>,
    revision: nat)

  datatype ApiError = NotFound | AlreadyExists | Conflict | Unavailable(text: string)

  /** A call works, is refused without effect, or takes effect while its reply is lost. */
  datatype Fault = Fine | Refused(text: string) | Lost(text: string)

  datatype Env = Env(
    interfere: (nat, Cluster) -> Cluster,
    fault: nat -> Fault,
    listing: (nat, set<ObjKey>) -> seq<ObjKey>,
    names: (nat, set<NsName>) -> seq<NsName>,
    admits: (ObjKey, Content) -> bool)

  datatype World = World(cluster: Cluster, audit: seq<Cluster>)

  /** No object is newer than the cluster. */
  ghost predicate Bounded(c: Cluster) {
    forall k :: k in c.objects ==> c.objects[k].version <= c.revision
  }

  /** Other actors may do anything that the store allows: every write takes a new revision. */
  ghost predicate Evolves(c: Cluster, c': Cluster) {
    && c.revision <= c'.revision
    && (Bounded(c) ==> Bounded(c'))
    && forall k :: k in c'.objects ==>
         || (k in c.objects && c'.objects[k] == c.objects[k])
         || c.revision < c'.objects[k].version
  }

  ghost predicate ValidEnv(env: Env) {
    && (forall t, c :: Evolves(c, env.interfere(t, c)))
    && (forall t, s :: Enumerates(env.listing(t, s), s))
    && (forall t, s :: Enumerates(env.names(t, s), s))
  }

  /** From call `t` on, no other actor acts and no call fails. */
  ghost predicate Quiet(env: Env, t: nat) {
    && (forall u, c :: u >= t ==> env.interfere(u, c) == c)
    && (forall u :: u >= t ==> env.fault(u).Fine?)
  }

  function Now(w: World): nat {
    |w.audit|
  }

  /** The next call reaches the server, after whatever others did meanwhile. */
  function Arrive(env: Env, w: World): World {
    var c := env.interfere(Now(w), w.cluster);
    World(c, w.audit + [c])
  }

  // ---- Reads ----

  /** A read that works answers from the cluster it finds on arrival. */
  function Observe(env: Env, w: World): (Result<Cluster, ApiError>, World) {
    var w' := Arrive(env, w);
    match env.fault(Now(w))
    case Fine => (Ok(w'.cluster), w')
    case Refused(text) => (Err(Unavailable(text)), w')
    case Lost(text) => (Err(Unavailable(text)), w')
  }

  function Reach(env: Env, w: World): (Result<(), ApiError>, World) {
    match Observe(env, w)
    case (Ok(_), w') => (Ok(()), w')
    case (Err(e), w') => (Err(e), w')
  }

  function Lookup<K, V>(m: map<K, V>, k: K): Result<V, ApiError> {
    if k in m then Ok(m[k]) else Err(NotFound)
  }

  function GetObject(env: Env, w: World, key: ObjKey): (Result<Stored, ApiError>, World) {
    match Observe(env, w)
    case (Ok(c), w') => (Lookup(c.objects, key), w')
    case (Err(e), w') => (Err(e), w')
  }

  function GetPod(env: Env, w: World, key: NsName): (Result<Pod, ApiError>, World) {
    match Observe(env, w)
    case (Ok(c), w') => (Lookup(c.pods, key), w')
    case (Err(e), w') => (Err(e), w')
  }

  function GetArtifact(env: Env, w: World, key: NsName): (Result<ArtifactSpec, ApiError>, World) {
    match Observe(env, w)
    case (Ok(c), w') => (Lookup(c.artifacts, key), w')
    case (Err(e), w') => (Err(e), w')
  }

  /** A label selector of one equality. */
  predicate Selects(name: string, value: string, labels: Labels) {
    name in labels && labels[name] == value
  }

  function Labelled(c: Cluster, resource: Resource, name: string, value: string): map<ObjKey, Stored> {
    map k | k in c.objects && k.resource == resource && Selects(name, value, c.objects[k].content.labels)
      :: c.objects[k]
  }

  function LabelledPods(c: Cluster, name: string, value: string): map<NsName, Pod> {
    map k | k in c.pods && Selects(name, value, c.pods[k].labels) :: c.pods[k]
  }

  /** The entries of `m` in the order in which the server returns them. */
  function Arrange<K, V>(m: map<K, V>, order: seq<K>): seq<(K, V)> {
    if order == [] then []
    else (if order[0] in m then [(order[0], m[order[0]])] else []) + Arrange(m, order[1..])
  }

  lemma {:induction false} ArrangeLists<K, V>(m: map<K, V>, order: seq<K>)
    ensures forall x :: x in Arrange(m, order) ==> x.0 in m && x.1 == m[x.0] && x.0 in order
    ensures forall k :: k in order && k in m ==> (k, m[k]) in Arrange(m, order)
    ensures Distinct(order) ==> Distinct(Keys(Arrange(m, order)))
  {
    if order != [] {
      var rest := Arrange(m, order[1..]);
      ArrangeLists(m, order[1..]);
      if order[0] in m && Distinct(order) {
        var items := [(order[0], m[order[0]])] + rest;
        assert Keys(items) == [order[0]] + Keys(rest);
        forall i | 0 <= i < |rest| ensures Keys(rest)[i] != order[0] {
          assert rest[i] in rest;
        }
      }
    }
  }

  function Keys<K, V>(items: seq<(K, V)>): (keys: seq<K>)
    ensures |keys| == |items| && forall i :: 0 <= i < |items| ==> keys[i] == items[i].0
  {
    seq(|items|, i requires 0 <= i < |items| => items[i].0)
  }

  function ListObjects(env: Env, w: World, resource: Resource, name: string, value: string)
    : (Result<seq<(ObjKey, Stored)>, ApiError>, World)
  {
    match Observe(env, w)
    case (Ok(c), w') =>
      var found := Labelled(c, resource, name, value);
      (Ok(Arrange(found, env.listing(Now(w), found.Keys))), w')
    case (Err(e), w') => (Err(e), w')
  }

  function ListPods(env: Env, w: World): (Result<seq<(NsName, Pod)>, ApiError>, World) {
    match Observe(env, w)
    case (Ok(c), w') => (Ok(Arrange(c.pods, env.names(Now(w), c.pods.Keys))), w')
    case (Err(e), w') => (Err(e), w')
  }

  function ListLabelledPods(env: Env, w: World, name: string, value: string)
    : (Result<seq<(NsName, Pod)>, ApiError>, World)
  {
    match Observe(env, w)
    case (Ok(c), w') =>
      var found := LabelledPods(c, name, value);
      (Ok(Arrange(found, env.names(Now(w), found.Keys))), w')
    case (Err(e), w') => (Err(e), w')
  }

  function ListArtifacts(env: Env, w: World): (Result<seq<(NsName, ArtifactSpec)>, ApiError>, World) {
    match Observe(env, w)
    case (Ok(c), w') => (Ok(Arrange(c.artifacts, env.names(Now(w), c.artifacts.Keys))), w')
    case (Err(e), w') => (Err(e), w')
  }

  // ---- Writes ----

  function Put(c: Cluster, key: ObjKey, content: Content): Cluster {
    c.(objects := c.objects[key := Stored(content, c.revision + 1)], revision := c.revision + 1)
  }

  function Remove(c: Cluster, key: ObjKey): Cluster {
    c.(objects := c.objects - {key}, revision := c.revision + 1)
  }

  /** The fate of a write that the server would answer with `answer`, leaving cluster `after` if it accepts. */
  function Commit(env: Env, w: World, answer: Result<(), ApiError>, after: Cluster): (Result<(), ApiError>, World) {
    var w' := Arrive(env, w);
    match env.fault(Now(w))
    case Refused(text) => (Err(Unavailable(text)), w')
    case Lost(text) => (Err(Unavailable(text)), if answer.Ok? then w'.(cluster := after) else w')
    case Fine => (answer, if answer.Ok? then w'.(cluster := after) else w')
  }

  function CreateObject(env: Env, w: World, key: ObjKey, content: Content): (Result<(), ApiError>, World) {
    var c := Arrive(env, w).cluster;
    var answer :=
      if !env.admits(key, content) then Err(Unavailable("denied the request"))
      else if key in c.objects then Err(AlreadyExists)
      else Ok(());
    Commit(env, w, answer, Put(c, key, content))
  }

  /** An update names the version it was based on and is refused if the object has moved on. */
  function UpdateObject(env: Env, w: World, key: ObjKey, content: Content, version: nat)
    : (Result<(), ApiError>, World)
  {
    var c := Arrive(env, w).cluster;
    var answer :=
      if !env.admits(key, content) then Err(Unavailable("denied the request"))
      else if key !in c.objects then Err(NotFound)
      else if c.objects[key].version != version then Err(Conflict)
      else Ok(());
    Commit(env, w, answer, Put(c, key, content))
  }

  function DeleteObject(env: Env, w: World, key: ObjKey): (Result<(), ApiError>, World) {
    var c := Arrive(env, w).cluster;
    Commit(env, w, if key in c.objects then Ok(()) else Err(NotFound), Remove(c, key))
  }

  function CreatePod(env: Env, w: World, key: NsName, pod: Pod): (Result<(), ApiError>, World) {
    var c := Arrive(env, w).cluster;
    Commit(env, w, if key in c.pods then Err(AlreadyExists) else Ok(()), c.(pods := c.pods[key := pod]))
  }

  function Terminate(c: Cluster, key: NsName): Cluster {
    if key in c.pods then c.(pods := c.pods[key := c.pods[key].(terminating := true)]) else c
  }

  /** An accepted delete only marks the pod; it disappears when the kubelet is done with it. */
  function DeletePod(env: Env, w: World, key: NsName): (Result<(), ApiError>, World) {
    var c := Arrive(env, w).cluster;
    Commit(env, w, if key in c.pods then Ok(()) else Err(NotFound), Terminate(c, key))
  }

  // ---- Every call is a legal evolution ----

  lemma EvolvesTransitive(a: Cluster, b: Cluster, c: Cluster)
    requires Evolves(a, b) && Evolves(b, c)
    ensures Evolves(a, c)
  {
  }

  /** In a bounded cluster, what has a new version is newer than all that the earlier cluster held. */
  ghost predicate NewerThanAll(c: Cluster, version: nat) {
    forall k :: k in c.objects ==> c.objects[k].version < version
  }

  lemma EvolvedIsNewer(c: Cluster, c': Cluster, k: ObjKey)
    requires Bounded(c) && Evolves(c, c') && k in c'.objects
    ensures (k in c.objects && c'.objects[k] == c.objects[k]) || NewerThanAll(c, c'.objects[k].version)
  {
  }

  /** So each actor is an admissible environment for the others. */
  lemma WritesEvolve(env: Env, w: World, key: ObjKey, content: Content, version: nat)
    requires ValidEnv(env)
    ensures Evolves(w.cluster, Arrive(env, w).cluster)
    ensures Evolves(w.cluster, CreateObject(env, w, key, content).1.cluster)
    ensures Evolves(w.cluster, UpdateObject(env, w, key, content, version).1.cluster)
    ensures Evolves(w.cluster, DeleteObject(env, w, key).1.cluster)
  {
    var c := env.interfere(Now(w), w.cluster);
    assert Evolves(w.cluster, c);
    assert Evolves(c, Put(c, key, content)) && Evolves(c, Remove(c, key));
    EvolvesTransitive(w.cluster, c, Put(c, key, content));
    EvolvesTransitive(w.cluster, c, Remove(c, key));
  }

  /** A write that is accepted gives the object a version later than everything the cluster held. */
  lemma WriteIsNewest(env: Env, w: World, key: ObjKey, content: Content, version: nat)
    requires ValidEnv(env) && Bounded(w.cluster)
    ensures var (r, w') := CreateObject(env, w, key, content);
            r.Ok? ==> && key in w'.cluster.objects && w'.cluster.objects[key].content == content
                      && NewerThanAll(w.cluster, w'.cluster.objects[key].version)
                      && NewerThanAll(Arrive(env, w).cluster, w'.cluster.objects[key].version)
    ensures var (r, w') := UpdateObject(env, w, key, content, version);
            r.Ok? ==> && key in w'.cluster.objects && w'.cluster.objects[key].content == content
                      && NewerThanAll(w.cluster, w'.cluster.objects[key].version)
                      && NewerThanAll(Arrive(env, w).cluster, w'.cluster.objects[key].version)
  {
    var c := env.interfere(Now(w), w.cluster);
    assert Evolves(w.cluster, c) && Bounded(c);
  }

  /** The API server as the actors see it. */
  class ApiServer {
    const env: Env
    var world: World

    constructor (env: Env, cluster: Cluster)
      ensures this.env == env && world == World(cluster, [])
    {
      this.env := env;
      world := World(cluster, []);
    }

    method Get(key: ObjKey) returns (r: Result<Stored, ApiError>)
      modifies this
      ensures (r, world) == GetObject(env, old(world), key)
    {
      var answer := GetObject(env, world, key);
      r, world := answer.0, answer.1;
    }

    method ReadPod(key: NsName) returns (r: Result<Pod, ApiError>)
      modifies this
      ensures (r, world) == GetPod(env, old(world), key)
    {
      var answer := GetPod(env, world, key);
      r, world := answer.0, answer.1;
    }

    method ReadArtifact(key: NsName) returns (r: Result<ArtifactSpec, ApiError>)
      modifies this
      ensures (r, world) == GetArtifact(env, old(world), key)
    {
      var answer := GetArtifact(env, world, key);
      r, world := answer.0, answer.1;
    }

    method List(resource: Resource, name: string, value: string) returns (r: Result<seq<(ObjKey, Stored)>, ApiError>)
      modifies this
      ensures (r, world) == ListObjects(env, old(world), resource, name, value)
    {
      var answer := ListObjects(env, world, resource, name, value);
      r, world := answer.0, answer.1;
    }

    method Pods() returns (r: Result<seq<(NsName, Pod)>, ApiError>)
      modifies this
      ensures (r, world) == ListPods(env, old(world))
    {
      var answer := ListPods(env, world);
      r, world := answer.0, answer.1;
    }

    method PodsLabelled(name: string, value: string) returns (r: Result<seq<(NsName, Pod)>, ApiError>)
      modifies this
      ensures (r, world) == ListLabelledPods(env, old(world), name, value)
    {
      var answer := ListLabelledPods(env, world, name, value);
      r, world := answer.0, answer.1;
    }

    method Artifacts() returns (r: Result<seq<(NsName, ArtifactSpec)>, ApiError>)
      modifies this
      ensures (r, world) == ListArtifacts(env, old(world))
    {
      var answer := ListArtifacts(env, world);
      r, world := answer.0, answer.1;
    }

    /** A request that only asks whether the server can be reached. */
    method Connect() returns (r: Result<(), ApiError>)
      modifies this
      ensures (r, world) == Reach(env, old(world))
    {
      var answer := Reach(env, world);
      r, world := answer.0, answer.1;
    }

    method Create(key: ObjKey, content: Content) returns (r: Result<(), ApiError>)
      modifies this
      ensures (r, world) == CreateObject(env, old(world), key, content)
    {
      var answer := CreateObject(env, world, key, content);
      r, world := answer.0, answer.1;
    }

    method Update(key: ObjKey, content: Content, version: nat) returns (r: Result<(), ApiError>)
      modifies this
      ensures (r, world) == UpdateObject(env, old(world), key, content, version)
    {
      var answer := UpdateObject(env, world, key, content, version);
      r, world := answer.0, answer.1;
    }

    method NewPod(key: NsName, pod: Pod) returns (r: Result<(), ApiError>)
      modifies this
      ensures (r, world) == CreatePod(env, old(world), key, pod)
    {
      var answer := CreatePod(env, world, key, pod);
      r, world := answer.0, answer.1;
    }

    method RemovePod(key: NsName) returns (r: Result<(), ApiError>)
      modifies this
      ensures (r, world) == DeletePod(env, old(world), key)
    {
      var answer := DeletePod(env, world, key);
      r, world := answer.0, answer.1;
    }

    method Delete(key: ObjKey) returns (r: Result<(), ApiError>)
      modifies this
      ensures (r, world) == DeleteObject(env, old(world), key)
    {
      var answer := DeleteObject(env, world, key);
      r, world := answer.0, answer.1;
    }
  }
}
