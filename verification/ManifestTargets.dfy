/**
 Where pulled manifests end up: what labelling leaves of a file, the key under which it is looked up and stored, and
 what failing calls and other writers do to that.
 */
module ManifestTargets {
  import opened Wrappers
  import opened Text
  import opened Kubernetes
  import opened Manifests

  // ---- Labelling ----

  /** The labels that the watcher sets, by name; every other label is the manifest's own. */
  ghost function LabelAfter(m: Manifest, artifact: string, tag: string, checksum: string, l: string): Option<string> {
    if l == "managed-by" then Some("kyverno-watcher")
    else if l == "policy-version" then Some(tag)
    else if l == "policy-checksum" then Some(checksum)
    else if l == "artifact-name" && artifact != "" then Some(artifact)
    else if l in m.labels then Some(m.labels[l])
    else None
  }

  ghost predicate LabelsAre(labels: Labels, m: Manifest, artifact: string, tag: string, checksum: string) {
    forall l :: if l in labels then LabelAfter(m, artifact, tag, checksum, l) == Some(labels[l])
                else LabelAfter(m, artifact, tag, checksum, l) == None
  }

  lemma StampSetsLabels(m: Manifest, artifact: string, tag: string, checksum: string)
    ensures LabelsAre(Stamp(m, artifact, tag, checksum).labels, m, artifact, tag, checksum)
  {
    assert |"managed-by"| == 10 && |"policy-version"| == 14 && |"artifact-name"| == 13 && |"policy-checksum"| == 15;
  }

  /** The checksum of a manifest: 48 digits of the hash of its spec or, without one, of the whole file. */
  ghost function SumOf(tools: Tools, data: string, m: Manifest): string
    requires ValidTools(tools)
  {
    match m.spec
    case Some(spec) => tools.sha(spec)[..48]
    case None => tools.sha(data)[..48]
  }

  /**
   A file that can be read, parsed and rewritten keeps everything but its labels; any other file stays as it came.
   Exactly the files that can be read and parsed get a checksum.
   */
  lemma LabelIsExact(tools: Tools, x: Extracted, artifact: string, tag: string, f: string)
    requires ValidTools(tools) && f in x.files
    ensures var all := Label(tools, x, artifact, tag);
            && all.files.Keys == x.files.Keys
            && (f in all.checksums <==> f !in x.unreadable && tools.parse(x.files[f]).Some?)
            && (f in all.checksums ==> all.checksums[f] == SumOf(tools, x.files[f], tools.parse(x.files[f]).value))
            && (f !in all.checksums || f in x.unwritable ==> all.files[f] == x.files[f])
            && (f in all.checksums && f !in x.unwritable ==>
                  && tools.parse(all.files[f]).Some?
                  && var m, m' := tools.parse(x.files[f]).value, tools.parse(all.files[f]).value;
                     && m'.gvk == m.gvk && m'.namespace == m.namespace && m'.name == m.name
                     && m'.spec == m.spec && m'.rest == m.rest
                     && LabelsAre(m'.labels, m, artifact, tag, all.checksums[f]))
  {
    if IsManifest(tools, x, f) {
      var m := tools.parse(x.files[f]).value;
      var stamped := Stamp(m, artifact, tag, Checksum(tools, x.files[f], m));
      assert tools.parse(tools.render(stamped)) == Some(stamped);
      StampSetsLabels(m, artifact, tag, Checksum(tools, x.files[f], m));
    }
  }

  // ---- The key ----

  /** A name that the client lets pass. */
  ghost predicate Passes(name: string) {
    name != "." && name != ".." && forall i :: 0 <= i < |name| ==> name[i] != '/' && name[i] != '%'
  }

  /** The namespace of a namespaced kind is the manifest's own, be it empty; a cluster-scoped kind has none. */
  ghost function Home(m: Manifest, mapping: Mapping): string {
    if mapping.namespaced then m.namespace else ""
  }

  ghost predicate HasPlace(m: Manifest, mapping: Mapping) {
    m.name != "" && Passes(m.name) && Passes(Home(m, mapping))
  }

  ghost function PlaceOf(m: Manifest, mapping: Mapping): ObjKey
    requires HasPlace(m, mapping)
  {
    PassedIsName(m.name);
    PassedIsName(Home(m, mapping));
    ObjKey(mapping.resource, Home(m, mapping), m.name)
  }

  lemma PassedIsName(s: string)
    ensures Passes(s) <==> s != "." && s != ".." && '/' !in s && '%' !in s
  {
    if '/' in s {
      var i :| 0 <= i < |s| && s[i] == '/';
    }
    if '%' in s {
      var i :| 0 <= i < |s| && s[i] == '%';
    }
  }

  /** The write and the lookup both go to that place, and nowhere if there is none. */
  lemma BothGoThere(tools: Tools, m: Manifest, mapping: Mapping)
    requires tools.mapping(m.gvk) == Some(mapping)
    ensures TargetOf(tools, m) == LookupKey(m, mapping)
    ensures TargetOf(tools, m).Ok? <==> HasPlace(m, mapping)
    ensures HasPlace(m, mapping) ==> TargetOf(tools, m) == Ok(PlaceOf(m, mapping))
  {
    PassedIsName(m.name);
    PassedIsName(Home(m, mapping));
  }

  /** The pulled file holds a manifest of a known kind. */
  ghost predicate Known(tools: Tools, x: Extracted, f: string) {
    f in x.files && f !in x.unreadable && tools.parse(x.files[f]).Some?
    && tools.mapping(tools.parse(x.files[f]).value.gvk).Some?
  }

  ghost function ManifestOf(tools: Tools, x: Extracted, f: string): Manifest
    requires Known(tools, x, f)
  {
    tools.parse(x.files[f]).value
  }

  ghost function MappingOf(tools: Tools, x: Extracted, f: string): Mapping
    requires Known(tools, x, f)
  {
    tools.mapping(ManifestOf(tools, x, f).gvk).value
  }

  /** The object is the manifest with the watcher's labels, or, if its file could not be rewritten, as it came. */
  ghost predicate Delivers(
      tools: Tools, x: Extracted, artifact: string, tag: string, f: string, content: Content)
    requires ValidTools(tools) && Known(tools, x, f)
  {
    var m := ManifestOf(tools, x, f);
    && content.spec == m.spec && content.rest == m.rest
    && if f in x.unwritable then content.labels == m.labels
       else LabelsAre(content.labels, m, artifact, tag, SumOf(tools, x.files[f], m))
  }

  /**
   From the pulled file to the cluster: over a quiet cluster a file that applies leaves its manifest, with spec and
   rest as pulled, under its own resource, namespace and name, and touches no other object.
   */
  lemma AppliedWhereItSays(tools: Tools, env: Env, w: World, x: Extracted, artifact: string, tag: string, f: string)
    requires ValidTools(tools) && Quiet(env, Now(w)) && Known(tools, x, f)
    requires ApplyFile(tools, env, w, Label(tools, x, artifact, tag).files, f).0
    ensures var m, mapping := ManifestOf(tools, x, f), MappingOf(tools, x, f);
            && HasPlace(m, mapping)
            && var c, c' := w.cluster.objects,
                            ApplyFile(tools, env, w, Label(tools, x, artifact, tag).files, f).1.cluster.objects;
               var key := PlaceOf(m, mapping);
               && key in c' && Delivers(tools, x, artifact, tag, f, c'[key].content)
               && c' == c[key := c'[key]]
  {
    var files := Label(tools, x, artifact, tag).files;
    LabelIsExact(tools, x, artifact, tag, f);
    var m := tools.parse(files[f]).value;
    BothGoThere(tools, m, tools.mapping(m.gvk).value);
    AppliedThere(tools, env, w, files, f);
  }

  /** And it applies exactly if it has a place and admission lets it in there. */
  lemma AppliesIfAdmitted(tools: Tools, env: Env, w: World, x: Extracted, artifact: string, tag: string, f: string)
    requires ValidTools(tools) && Quiet(env, Now(w)) && Known(tools, x, f)
    ensures var m, mapping := ManifestOf(tools, x, f), MappingOf(tools, x, f);
            var files := Label(tools, x, artifact, tag).files;
            && tools.parse(files[f]).Some?
            && (ApplyFile(tools, env, w, files, f).0 <==>
                HasPlace(m, mapping) && env.admits(PlaceOf(m, mapping), ContentOf(tools.parse(files[f]).value)))
  {
    LabelIsExact(tools, x, artifact, tag, f);
    var m := tools.parse(Label(tools, x, artifact, tag).files[f]).value;
    BothGoThere(tools, m, tools.mapping(m.gvk).value);
    var w1 := Arrive(env, w);
    assert w1.cluster == w.cluster && env.fault(Now(w)).Fine?;
    assert Arrive(env, w1).cluster == w.cluster && env.fault(Now(w1)).Fine?;
  }

  lemma AppliedThere(tools: Tools, env: Env, w: World, files: map<string, string>, f: string)
    requires Quiet(env, Now(w)) && ApplyFile(tools, env, w, files, f).0
    ensures f in files && tools.parse(files[f]).Some? && TargetOf(tools, tools.parse(files[f]).value).Ok?
    ensures var m := tools.parse(files[f]).value;
            var key, c' := TargetOf(tools, m).value, ApplyFile(tools, env, w, files, f).1.cluster.objects;
            && key in c' && c'[key].content == ContentOf(m) && c' == w.cluster.objects[key := c'[key]]
  {
    var w1 := Arrive(env, w);
    assert w1.cluster == w.cluster && env.fault(Now(w)).Fine?;
    assert Arrive(env, w1).cluster == w.cluster && env.fault(Now(w1)).Fine?;
  }

  /** A pulled file is compared with the object at the same place: missing, without a spec, or of another checksum. */
  lemma ComparedWhereItSays(tools: Tools, env: Env, w: World, x: Extracted, artifact: string, tag: string, f: string)
    requires ValidTools(tools) && Quiet(env, Now(w)) && Known(tools, x, f)
    requires HasPlace(ManifestOf(tools, x, f), MappingOf(tools, x, f))
    ensures var c, key := w.cluster.objects, PlaceOf(ManifestOf(tools, x, f), MappingOf(tools, x, f));
            Compare(tools, env, w, Label(tools, x, artifact, tag), f).0 <==>
              || key !in c
              || c[key].content.spec.None?
              || tools.sha(c[key].content.spec.value)[..48] != SumOf(tools, x.files[f], ManifestOf(tools, x, f))
  {
    LabelIsExact(tools, x, artifact, tag, f);
    var all := Label(tools, x, artifact, tag);
    var m := tools.parse(all.files[f]).value;
    BothGoThere(tools, m, tools.mapping(m.gvk).value);
    assert Arrive(env, w).cluster == w.cluster && env.fault(Now(w)).Fine?;
  }

  // ---- Failing calls and other writers ----

  /** A comparison whose read fails selects the file exactly if the failure speaks of something not found. */
  lemma FailedComparison(tools: Tools, env: Env, w: World, pulled: Pulled, f: string, text: string)
    requires ValidTools(tools) && f in pulled.files && tools.parse(pulled.files[f]).Some?
    requires TargetOf(tools, tools.parse(pulled.files[f]).value).Ok?
    requires env.fault(Now(w)) in {Refused(text), Lost(text)}
    ensures Compare(tools, env, w, pulled, f).0 <==> exists a, b :: text == a + "not found" + b
  {
    var m := tools.parse(pulled.files[f]).value;
    BothGoThere(tools, m, tools.mapping(m.gvk).value);
    ContainsMeans(text, "not found");
  }

  lemma ContainsMeans(s: string, part: string)
    ensures Contains(s, part) <==> exists a, b :: s == a + part + b
  {
    if i :| 0 <= i <= |s| && part <= s[i..] {
      assert s == s[..i] + part + s[i + |part|..];
    }
    if a, b :| s == a + part + b {
      assert s[|a|..] == part + b;
    }
  }

  /** If the object cannot be read, nothing is written. */
  lemma FailedReadAppliesNothing(tools: Tools, env: Env, w: World, files: map<string, string>, f: string)
    requires !env.fault(Now(w)).Fine?
    ensures var (ok, w') := ApplyFile(tools, env, w, files, f);
            !ok && (w' == w || w' == Arrive(env, w))
  {
  }

  /** What another actor wrote or removed between the read and the write is never overwritten. */
  lemma RacedApplyFails(tools: Tools, env: Env, w: World, files: map<string, string>, f: string)
    requires f in files && tools.parse(files[f]).Some? && TargetOf(tools, tools.parse(files[f]).value).Ok?
    requires var key := TargetOf(tools, tools.parse(files[f]).value).value;
             var c1, c2 := Arrive(env, w).cluster.objects, Arrive(env, Arrive(env, w)).cluster.objects;
             || (key in c1) != (key in c2)
             || (key in c1 && c1[key].version != c2[key].version)
    ensures var (ok, w') := ApplyFile(tools, env, w, files, f);
            !ok && w'.cluster in {Arrive(env, w).cluster, Arrive(env, Arrive(env, w)).cluster}
  {
  }
}
