/**
 From pulled files to cluster objects: labelling (pullImageToDirReal), applying (applyManifestsReal,
 applyManifestFile, applyResource) and comparing (checksumsChanged).  One document per file.
 */
module Manifests {
  import opened Wrappers
  import opened Text
  import opened Kubernetes

  datatype Gvk = Gvk(group: string, version: string, kind: string)

  datatype Mapping = Mapping(resource: Resource, namespaced: bool)

  /** A parsed manifest; `spec` is the JSON text of the spec field, if there is one. */
  datatype Manifest = Manifest(
    gvk: Gvk, namespace: string, name: string, labels: Labels, spec: Option<string>, rest: string)

  /** Foreign functions: SHA-256 in hex, the YAML codec and the REST mapper. */
  datatype Tools = Tools(
    sha: string -> string,
    parse: string -> Option<Manifest>,
    render: Manifest -> string,
    mapping: Gvk -> Option<Mapping>)

  ghost predicate ValidTools(tools: Tools) {
    && (forall s :: |tools.sha(s)| == 64)
    && (forall m :: tools.parse(tools.render(m)) == Some(m))
  }

  // ---- Labelling ----

  /** The YAML files of an artifact in the directory, and those the disk will not let the watcher read or rewrite. */
  datatype Extracted = Extracted(files: map<string, string>, unreadable: set<string>, unwritable: set<string>)

  /** What the watcher works on: the files as they now stand, and a checksum for each manifest. */
  datatype Pulled = Pulled(files: map<string, string>, checksums: map<string, string>)

  function Checksum(tools: Tools, data: string, m: Manifest): string
    requires ValidTools(tools)
  {
    tools.sha(if m.spec.Some? then m.spec.value else data)[..48]
  }

  function Stamp(m: Manifest, artifactName: string, tag: string, checksum: string): Manifest {
    var labels := m.labels["managed-by" := "kyverno-watcher"]["policy-version" := tag];
    var owned := if artifactName != "" then labels["artifact-name" := artifactName] else labels;
    m.(labels := owned["policy-checksum" := checksum])
  }

  /** A file counts as a manifest if it can be read and parsed. */
  predicate IsManifest(tools: Tools, x: Extracted, f: string) {
    f in x.files && f !in x.unreadable && tools.parse(x.files[f]).Some?
  }

  function Stamped(tools: Tools, x: Extracted, artifactName: string, tag: string, f: string): string
    requires ValidTools(tools) && f in x.files
  {
    if IsManifest(tools, x, f) && f !in x.unwritable then
      var m := tools.parse(x.files[f]).value;
      tools.render(Stamp(m, artifactName, tag, Checksum(tools, x.files[f], m)))
    else x.files[f]
  }

  function Label(tools: Tools, x: Extracted, artifactName: string, tag: string): Pulled
    requires ValidTools(tools)
  {
    Pulled(map f | f in x.files :: Stamped(tools, x, artifactName, tag, f),
           map f | f in x.files && IsManifest(tools, x, f)
             :: Checksum(tools, x.files[f], tools.parse(x.files[f]).value))
  }

  /** The loop body of pullImageToDirReal: one file of the directory. */
  method LabelFile(tools: Tools, x: Extracted, artifactName: string, tag: string, f: string,
                   disk: map<string, string>, sums: map<string, string>)
    returns (disk': map<string, string>, sums': map<string, string>)
    requires ValidTools(tools) && f in x.files && f in disk && disk[f] == x.files[f]
    ensures disk' == disk[f := Stamped(tools, x, artifactName, tag, f)]
    ensures sums' == if IsManifest(tools, x, f)
                     then sums[f := Checksum(tools, x.files[f], tools.parse(x.files[f]).value)] else sums
  {
    disk', sums' := disk, sums;
    if f !in x.unreadable {
      var parsed := tools.parse(disk[f]);
      if parsed.Some? {
        var checksum := Checksum(tools, disk[f], parsed.value);
        sums' := sums'[f := checksum];
        var updated := tools.render(Stamp(parsed.value, artifactName, tag, checksum));
        if f !in x.unwritable {
          disk' := disk'[f := updated];
        }
      }
    }
  }

  /** What labelling has made of `original` once the files `done` have been labelled on the way to `all`. */
  ghost predicate LabelledSoFar(original: map<string, string>, all: Pulled, done: set<string>,
                                disk: map<string, string>, sums: map<string, string>) {
    && all.files.Keys == original.Keys == disk.Keys && all.checksums.Keys <= original.Keys
    && (forall f :: f in disk ==> disk[f] == if f in done then all.files[f] else original[f])
    && (forall f :: f in sums <==> f in all.checksums && f in done)
    && (forall f :: f in sums ==> sums[f] == all.checksums[f])
  }

  lemma LabelledNext(original: map<string, string>, all: Pulled, done: set<string>, f: string,
                     disk: map<string, string>, sums: map<string, string>)
    requires f in original && f !in done && LabelledSoFar(original, all, done, disk, sums)
    ensures disk[f] == original[f]
    ensures LabelledSoFar(original, all, done + {f}, disk[f := all.files[f]],
                          if f in all.checksums then sums[f := all.checksums[f]] else sums)
  {
  }

  lemma LabelledEnds(original: map<string, string>, all: Pulled, disk: map<string, string>, sums: map<string, string>)
    requires LabelledSoFar(original, all, original.Keys, disk, sums)
    ensures Pulled(disk, sums) == all
  {
    assert disk == all.files && sums == all.checksums;
  }

  lemma ElementsNext<T>(q: seq<T>, i: nat)
    requires i < |q|
    ensures Elements(q[..i + 1]) == Elements(q[..i]) + {q[i]}
    ensures Distinct(q) ==> q[i] !in Elements(q[..i])
  {
    TakeNext(q, i);
  }

  /** The loop of pullImageToDirReal over the extracted files, in any order. */
  method LabelFiles(tools: Tools, x: Extracted, artifactName: string, tag: string, files: seq<string>)
    returns (pulled: Pulled)
    requires ValidTools(tools) && Enumerates(files, x.files.Keys)
    ensures pulled == Label(tools, x, artifactName, tag)
  {
    var manifestChecksums: map<string, string> := map[];
    var disk := x.files;
    ghost var all := Label(tools, x, artifactName, tag);
    for i := 0 to |files|
      invariant LabelledSoFar(x.files, all, Elements(files[..i]), disk, manifestChecksums)
    {
      ElementsNext(files, i);
      LabelledNext(x.files, all, Elements(files[..i]), files[i], disk, manifestChecksums);
      disk, manifestChecksums := LabelFile(tools, x, artifactName, tag, files[i], disk, manifestChecksums);
    }
    TakeAll(files);
    assert Elements(files) == x.files.Keys;
    LabelledEnds(x.files, all, disk, manifestChecksums);
    pulled := Pulled(disk, manifestChecksums);
  }

  // ---- Applying ----

  /** The client refuses names that are no path segment, whichever call they are for. */
  function Place(resource: Resource, namespace: string, name: string): Result<ObjKey, ApiError> {
    if name == "" || !LegalName(name) || !LegalName(namespace) then Err(Unavailable("invalid resource name"))
    else Ok(ObjKey(resource, namespace, name))
  }

  /** Where applyResource writes: a cluster-scoped kind drops its namespace, an empty one asks at the cluster level. */
  function TargetOf(tools: Tools, m: Manifest): Result<ObjKey, ApiError> {
    match tools.mapping(m.gvk)
    case None => Err(Unavailable("failed to get REST mapping"))
    case Some(mapping) =>
      var namespace := if !mapping.namespaced && m.namespace != "" then "" else m.namespace;
      if mapping.namespaced && namespace != "" then Place(mapping.resource, namespace, m.name)
      else Place(mapping.resource, "", m.name)
  }

  predicate LegalName(s: string) {
    s != "." && s != ".." && '/' !in s && '%' !in s
  }

  function ContentOf(m: Manifest): Content {
    Content(m.labels, m.spec, m.rest)
  }

  function ApplyResource(tools: Tools, env: Env, w: World, m: Manifest): (Result<(), ApiError>, World) {
    match TargetOf(tools, m)
    case Err(e) => (Err(e), w)
    case Ok(key) =>
      match GetObject(env, w, key)
      case (Ok(existing), w1) => UpdateObject(env, w1, key, ContentOf(m), existing.version)
      case (Err(e), w1) => if e.NotFound? then CreateObject(env, w1, key, ContentOf(m)) else (Err(e), w1)
  }

  function ApplyFile(tools: Tools, env: Env, w: World, files: map<string, string>, f: string): (bool, World) {
    if f !in files then (false, w)
    else
      match tools.parse(files[f])
      case None => (false, w)
      case Some(m) =>
        var (r, w') := ApplyResource(tools, env, w, m);
        (r.Ok?, w')
  }

  /** A file that fails is passed over; the answers say which ones worked. */
  function ApplyAll(tools: Tools, env: Env, w: World, files: map<string, string>, todo: seq<string>): (seq<bool>, World)
    decreases |todo|
  {
    if todo == [] then ([], w)
    else
      var (ok, w1) := ApplyFile(tools, env, w, files, todo[0]);
      var (oks, w2) := ApplyAll(tools, env, w1, files, todo[1..]);
      ([ok] + oks, w2)
  }

  // ---- Comparing ----

  predicate SaysNotFound(e: ApiError) {
    e.NotFound? || (e.Unavailable? && Contains(e.text, "not found"))
  }

  /** Where checksumsChanged reads: under the manifest's namespace, whatever it is, if the kind has one. */
  function LookupKey(m: Manifest, mapping: Mapping): Result<ObjKey, ApiError> {
    if mapping.namespaced then Place(mapping.resource, m.namespace, m.name)
    else Place(mapping.resource, "", m.name)
  }

  /** checksumsChanged on one file: must it be applied again? */
  function Compare(tools: Tools, env: Env, w: World, pulled: Pulled, f: string): (bool, World)
    requires ValidTools(tools)
  {
    if f !in pulled.files || tools.parse(pulled.files[f]).None? then (false, w)
    else
      var m := tools.parse(pulled.files[f]).value;
      match tools.mapping(m.gvk)
      case None => (false, w)
      case Some(mapping) =>
        match LookupKey(m, mapping)
        case Err(e) => (SaysNotFound(e), w)
        case Ok(key) =>
          match GetObject(env, w, key)
          case (Err(e), w') => (SaysNotFound(e), w')
          case (Ok(existing), w') =>
            match existing.content.spec
            case None => (true, w')
            case Some(spec) => (f !in pulled.checksums || tools.sha(spec)[..48] != pulled.checksums[f], w')
  }

  function CompareAll(tools: Tools, env: Env, w: World, pulled: Pulled, todo: seq<string>): (seq<string>, World)
    requires ValidTools(tools)
    decreases |todo|
  {
    if todo == [] then ([], w)
    else
      var (differs, w1) := Compare(tools, env, w, pulled, todo[0]);
      var (more, w2) := CompareAll(tools, env, w1, pulled, todo[1..]);
      ((if differs then [todo[0]] else []) + more, w2)
  }
}
