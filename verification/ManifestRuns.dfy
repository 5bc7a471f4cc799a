/** Applying in any order, applying twice, and what comparing finds afterwards. */
module ManifestRuns {
  import opened Wrappers
  import opened Kubernetes
  import opened Manifests

  /** The cluster's objects without their versions. */
  ghost function Contents(c: Cluster): map<ObjKey, Content> {
    map k | k in c.objects :: c.objects[k].content
  }

  /** The file holds a manifest that has a place to go and that admission accepts. */
  ghost predicate Applicable(tools: Tools, env: Env, files: map<string, string>, f: string) {
    HasTarget(tools, files, f) && env.admits(KeyOf(tools, files, f), ContentOf(tools.parse(files[f]).value))
  }

  ghost predicate HasTarget(tools: Tools, files: map<string, string>, f: string) {
    f in files && tools.parse(files[f]).Some? && TargetOf(tools, tools.parse(files[f]).value).Ok?
  }

  ghost function KeyOf(tools: Tools, files: map<string, string>, f: string): ObjKey
    requires HasTarget(tools, files, f)
  {
    TargetOf(tools, tools.parse(files[f]).value).value
  }

  ghost predicate DistinctTargets(tools: Tools, files: map<string, string>) {
    forall f, g :: HasTarget(tools, files, f) && HasTarget(tools, files, g) && f != g ==>
      KeyOf(tools, files, f) != KeyOf(tools, files, g)
  }

  // ---- Quiet applying ----

  /** `c'` is `c` with the applicable files of `s` put in. */
  ghost predicate Merged(tools: Tools, env: Env, c: Cluster, files: map<string, string>, s: set<string>, c': Cluster) {
    && (forall f :: f in s && Applicable(tools, env, files, f) ==>
          var k := KeyOf(tools, files, f);
          k in c'.objects && c'.objects[k].content == ContentOf(tools.parse(files[f]).value))
    && (forall k :: Untargeted(tools, env, files, s, k) ==>
          && (k in c'.objects <==> k in c.objects)
          && (k in c.objects ==> c'.objects[k] == c.objects[k]))
  }

  ghost predicate Untargeted(tools: Tools, env: Env, files: map<string, string>, s: set<string>, k: ObjKey) {
    forall f :: f in s && Applicable(tools, env, files, f) ==> KeyOf(tools, files, f) != k
  }

  lemma QuietApplyFile(tools: Tools, env: Env, w: World, files: map<string, string>, f: string)
    requires Quiet(env, Now(w))
    ensures var (ok, w') := ApplyFile(tools, env, w, files, f);
            && Now(w) <= Now(w') && Quiet(env, Now(w'))
            && (ok <==> Applicable(tools, env, files, f))
            && Merged(tools, env, w.cluster, files, {f}, w'.cluster)
  {
    if HasTarget(tools, files, f) {
      var m, key := tools.parse(files[f]).value, KeyOf(tools, files, f);
      var w1 := Arrive(env, w);
      assert w1.cluster == w.cluster && env.fault(Now(w)).Fine?;
      assert Arrive(env, w1).cluster == w.cluster && env.fault(Now(w1)).Fine?;
    }
  }

  lemma MergedStep(tools: Tools, env: Env, files: map<string, string>, f: string, s: set<string>,
                   c: Cluster, c1: Cluster, c2: Cluster)
    requires DistinctTargets(tools, files)
    requires Merged(tools, env, c, files, {f}, c1) && Merged(tools, env, c1, files, s, c2)
    ensures Merged(tools, env, c, files, {f} + s, c2)
  {
    forall g | g in {f} + s && Applicable(tools, env, files, g)
      ensures var k := KeyOf(tools, files, g);
              k in c2.objects && c2.objects[k].content == ContentOf(tools.parse(files[g]).value)
    {
      if g !in s {
        assert Untargeted(tools, env, files, s, KeyOf(tools, files, g));
      }
    }
    forall k | Untargeted(tools, env, files, {f} + s, k)
      ensures (k in c2.objects <==> k in c.objects) && (k in c.objects ==> c2.objects[k] == c.objects[k])
    {
      assert Untargeted(tools, env, files, {f}, k) && Untargeted(tools, env, files, s, k);
    }
  }

  lemma {:induction false} QuietApplyAll(
      tools: Tools, env: Env, w: World, files: map<string, string>, todo: seq<string>)
    requires Quiet(env, Now(w)) && DistinctTargets(tools, files)
    ensures var (oks, w') := ApplyAll(tools, env, w, files, todo);
            && Now(w) <= Now(w') && Quiet(env, Now(w'))
            && |oks| == |todo| && (forall i :: 0 <= i < |todo| ==> (oks[i] <==> Applicable(tools, env, files, todo[i])))
            && Merged(tools, env, w.cluster, files, Elements(todo), w'.cluster)
    decreases |todo|
  {
    if todo != [] {
      var (ok, w1) := ApplyFile(tools, env, w, files, todo[0]);
      var (oks, w2) := ApplyAll(tools, env, w1, files, todo[1..]);
      QuietApplyFile(tools, env, w, files, todo[0]);
      QuietApplyAll(tools, env, w1, files, todo[1..]);
      MergedStep(tools, env, files, todo[0], Elements(todo[1..]), w.cluster, w1.cluster, w2.cluster);
      assert Elements(todo) == {todo[0]} + Elements(todo[1..]);
    }
  }

  lemma MergedIsUnique(
      tools: Tools, env: Env, c: Cluster, files: map<string, string>, s: set<string>, c1: Cluster, c2: Cluster)
    requires Merged(tools, env, c, files, s, c1) && Merged(tools, env, c, files, s, c2)
    ensures Contents(c1) == Contents(c2)
  {
    forall k ensures k in c1.objects <==> k in c2.objects
             ensures k in c1.objects ==> c1.objects[k].content == c2.objects[k].content
    {
      if f :| f in s && Applicable(tools, env, files, f) && KeyOf(tools, files, f) == k {
      } else {
        assert Untargeted(tools, env, files, s, k);
      }
    }
  }

  ghost function Failures(oks: seq<bool>, todo: seq<string>): set<string>
    requires |oks| == |todo|
  {
    set i | 0 <= i < |todo| && !oks[i] :: todo[i]
  }

  /**
   Order independence: when the files go to distinct objects, any two orders leave the same content and fail on the
   same files, namely those that do not parse, have no target or are not admitted.
   */
  lemma OrderDoesNotMatter(
      tools: Tools, env: Env, w: World, files: map<string, string>, o1: seq<string>, o2: seq<string>)
    requires Quiet(env, Now(w)) && DistinctTargets(tools, files) && Elements(o1) == Elements(o2)
    ensures Contents(ApplyAll(tools, env, w, files, o1).1.cluster)
            == Contents(ApplyAll(tools, env, w, files, o2).1.cluster)
    ensures FailedFiles(tools, env, w, files, o1) == FailedFiles(tools, env, w, files, o2)
            == (set f | f in o1 && !Applicable(tools, env, files, f))
  {
    QuietApplyAll(tools, env, w, files, o1);
    QuietApplyAll(tools, env, w, files, o2);
    MergedIsUnique(tools, env, w.cluster, files, Elements(o1),
                   ApplyAll(tools, env, w, files, o1).1.cluster, ApplyAll(tools, env, w, files, o2).1.cluster);
    FailedFilesAre(tools, env, w, files, o1);
    FailedFilesAre(tools, env, w, files, o2);
    assert forall f :: f in o1 <==> f in Elements(o1);
    assert forall f :: f in o2 <==> f in Elements(o2);
  }

  lemma {:induction false} AnswersMatchFiles(
      tools: Tools, env: Env, w: World, files: map<string, string>, todo: seq<string>)
    ensures |ApplyAll(tools, env, w, files, todo).0| == |todo|
    decreases |todo|
  {
    if todo != [] {
      AnswersMatchFiles(tools, env, ApplyFile(tools, env, w, files, todo[0]).1, files, todo[1..]);
    }
  }

  ghost function FailedFiles(tools: Tools, env: Env, w: World, files: map<string, string>, todo: seq<string>)
    : set<string>
  {
    AnswersMatchFiles(tools, env, w, files, todo);
    Failures(ApplyAll(tools, env, w, files, todo).0, todo)
  }

  lemma FailedFilesAre(tools: Tools, env: Env, w: World, files: map<string, string>, todo: seq<string>)
    requires Quiet(env, Now(w)) && DistinctTargets(tools, files)
    ensures FailedFiles(tools, env, w, files, todo) == set f | f in todo && !Applicable(tools, env, files, f)
  {
    QuietApplyAll(tools, env, w, files, todo);
    FailuresAre(tools, env, files, ApplyAll(tools, env, w, files, todo).0, todo);
  }

  lemma FailuresAre(tools: Tools, env: Env, files: map<string, string>, oks: seq<bool>, todo: seq<string>)
    requires |oks| == |todo|
    requires forall i :: 0 <= i < |todo| ==> (oks[i] <==> Applicable(tools, env, files, todo[i]))
    ensures Failures(oks, todo) == set f | f in todo && !Applicable(tools, env, files, f)
  {
    forall f | f in todo && !Applicable(tools, env, files, f) ensures f in Failures(oks, todo) {
      var i :| 0 <= i < |todo| && todo[i] == f;
    }
  }

  /** Applying a list twice leaves what applying it once leaves. */
  lemma ApplyingTwiceIsOnce(tools: Tools, env: Env, w: World, files: map<string, string>, todo: seq<string>)
    requires Quiet(env, Now(w)) && DistinctTargets(tools, files)
    ensures var once := ApplyAll(tools, env, w, files, todo).1;
            Contents(ApplyAll(tools, env, once, files, todo).1.cluster) == Contents(once.cluster)
  {
    var once := ApplyAll(tools, env, w, files, todo).1;
    var twice := ApplyAll(tools, env, once, files, todo).1;
    QuietApplyAll(tools, env, w, files, todo);
    QuietApplyAll(tools, env, once, files, todo);
    MergedAgain(tools, env, w.cluster, files, Elements(todo), once.cluster, twice.cluster);
    MergedIsUnique(tools, env, w.cluster, files, Elements(todo), once.cluster, twice.cluster);
  }

  lemma MergedAgain(
      tools: Tools, env: Env, c: Cluster, files: map<string, string>, s: set<string>, c1: Cluster, c2: Cluster)
    requires Merged(tools, env, c, files, s, c1) && Merged(tools, env, c1, files, s, c2)
    ensures Merged(tools, env, c, files, s, c2)
  {
  }

  // ---- Comparing ----

  /** The object of this file is missing, has no spec, or has a spec of another truncated checksum. */
  ghost predicate NeedsApply(tools: Tools, c: Cluster, pulled: Pulled, f: string)
    requires ValidTools(tools)
  {
    HasTarget(tools, pulled.files, f) &&
    var k := KeyOf(tools, pulled.files, f);
    || k !in c.objects
    || c.objects[k].content.spec.None?
    || f !in pulled.checksums
    || tools.sha(c.objects[k].content.spec.value)[..48] != pulled.checksums[f]
  }

  /** Comparing changes nothing and selects exactly the files that need applying. */
  lemma {:induction false} QuietCompareAll(tools: Tools, env: Env, w: World, pulled: Pulled, todo: seq<string>)
    requires ValidTools(tools) && Quiet(env, Now(w))
    ensures var (selected, w') := CompareAll(tools, env, w, pulled, todo);
            && w'.cluster == w.cluster && Now(w) <= Now(w') && Quiet(env, Now(w'))
            && forall f :: f in selected <==> f in todo && NeedsApply(tools, w.cluster, pulled, f)
    decreases |todo|
  {
    if todo != [] {
      var (differs, w1) := Compare(tools, env, w, pulled, todo[0]);
      QuietCompare(tools, env, w, pulled, todo[0]);
      QuietCompareAll(tools, env, w1, pulled, todo[1..]);
      assert forall f :: f in todo <==> f == todo[0] || f in todo[1..];
    }
  }

  /** A refused name does not read as a missing object. */
  lemma RefusalIsNotMissing(resource: Resource, namespace: string, name: string)
    ensures var r := Place(resource, namespace, name); r.Err? ==> !SaysNotFound(r.error)
  {
    var refusal, phrase := "invalid resource name", "not found";
    assert phrase[4] == 'f' && 'f' !in refusal;
    assert forall i :: 0 <= i <= |refusal| && phrase <= refusal[i..] ==> refusal[i + 4] == refusal[i..][4] == 'f';
  }

  /**
   What is compared is what is written, for both scopes and for an empty or a stray namespace: applying a file to a
   quiet cluster leaves every object alone but the one that comparing this file reads, and that one then holds it.
   */
  lemma ComparedIsApplied(tools: Tools, env: Env, w: World, files: map<string, string>, f: string)
    requires Quiet(env, Now(w)) && f in files && tools.parse(files[f]).Some?
    requires ApplyFile(tools, env, w, files, f).1.cluster.objects != w.cluster.objects
    ensures var m := tools.parse(files[f]).value;
            var c, c' := w.cluster, ApplyFile(tools, env, w, files, f).1.cluster;
            && tools.mapping(m.gvk).Some? && LookupKey(m, tools.mapping(m.gvk).value).Ok?
            && var key := LookupKey(m, tools.mapping(m.gvk).value).value;
            && c'.objects.Keys == c.objects.Keys + {key} && c'.objects[key].content == ContentOf(m)
            && forall k :: k in c.objects && k != key ==> c'.objects[k] == c.objects[k]
  {
    var w1 := Arrive(env, w);
    assert w1.cluster == w.cluster && env.fault(Now(w)).Fine?;
    assert Arrive(env, w1).cluster == w.cluster && env.fault(Now(w1)).Fine?;
  }

  lemma QuietCompare(tools: Tools, env: Env, w: World, pulled: Pulled, f: string)
    requires ValidTools(tools) && Quiet(env, Now(w))
    ensures var (differs, w') := Compare(tools, env, w, pulled, f);
            && w'.cluster == w.cluster && Now(w) <= Now(w') && Quiet(env, Now(w'))
            && (differs <==> NeedsApply(tools, w.cluster, pulled, f))
  {
    assert Arrive(env, w).cluster == w.cluster && env.fault(Now(w)).Fine?;
    if f in pulled.files && tools.parse(pulled.files[f]).Some? {
      var m := tools.parse(pulled.files[f]).value;
      if tools.mapping(m.gvk).Some? {
        RefusalIsNotMissing(tools.mapping(m.gvk).value.resource, m.namespace, m.name);
        RefusalIsNotMissing(tools.mapping(m.gvk).value.resource, "", m.name);
      }
    }
  }

  /** Checksums belong to the files they stand beside. */
  ghost predicate ChecksumsMatch(tools: Tools, pulled: Pulled)
    requires ValidTools(tools)
  {
    forall f :: f in pulled.checksums ==>
      && f in pulled.files && tools.parse(pulled.files[f]).Some?
      && var m := tools.parse(pulled.files[f]).value;
         m.spec.Some? ==> pulled.checksums[f] == tools.sha(m.spec.value)[..48]
  }

  lemma LabelledMatch(tools: Tools, x: Extracted, artifactName: string, tag: string)
    requires ValidTools(tools)
    ensures ChecksumsMatch(tools, Label(tools, x, artifactName, tag))
  {
    var pulled := Label(tools, x, artifactName, tag);
    forall f | f in pulled.checksums
      ensures f in pulled.files && tools.parse(pulled.files[f]).Some?
      ensures var m := tools.parse(pulled.files[f]).value;
              m.spec.Some? ==> pulled.checksums[f] == tools.sha(m.spec.value)[..48]
    {
      var m := tools.parse(x.files[f]).value;
      assert pulled.files[f] in {x.files[f], tools.render(Stamp(m, artifactName, tag, Checksum(tools, x.files[f], m)))};
    }
  }

  ghost predicate HasSpec(tools: Tools, pulled: Pulled, f: string) {
    f in pulled.files && tools.parse(pulled.files[f]).Some? && tools.parse(pulled.files[f]).value.spec.Some?
  }

  /**
   Checksum convergence: after everything that a comparison selected has been applied, the next comparison selects
   exactly those of the same files that have no spec; so reconciliation settles when every selected file has one,
   and never settles otherwise.
   */
  lemma ChecksumsConverge(tools: Tools, env: Env, w: World, pulled: Pulled, order: seq<string>, order': seq<string>)
    requires ValidTools(tools) && Quiet(env, Now(w))
    requires ChecksumsMatch(tools, pulled) && DistinctTargets(tools, pulled.files)
    requires Elements(order) == Elements(order') <= pulled.checksums.Keys
    requires var (selected, w1) := CompareAll(tools, env, w, pulled, order);
             forall i :: 0 <= i < |ApplyAll(tools, env, w1, pulled.files, selected).0| ==>
               ApplyAll(tools, env, w1, pulled.files, selected).0[i]
    ensures var (selected, w1) := CompareAll(tools, env, w, pulled, order);
            var (oks, w2) := ApplyAll(tools, env, w1, pulled.files, selected);
            forall f :: f in CompareAll(tools, env, w2, pulled, order').0 <==>
              f in selected && !HasSpec(tools, pulled, f)
  {
    var (selected, w1) := CompareAll(tools, env, w, pulled, order);
    var (oks, w2) := ApplyAll(tools, env, w1, pulled.files, selected);
    QuietCompareAll(tools, env, w, pulled, order);
    QuietApplyAll(tools, env, w1, pulled.files, selected);
    QuietCompareAll(tools, env, w2, pulled, order');
    assert forall f :: f in order <==> f in Elements(order);
    assert forall f :: f in order' <==> f in Elements(order');
    forall f | f in order
      ensures NeedsApply(tools, w2.cluster, pulled, f) <==> f in selected && !HasSpec(tools, pulled, f)
    {
      if f in selected {
        var i :| 0 <= i < |selected| && selected[i] == f;
        assert oks[i] && f in Elements(selected);
      } else {
        UnselectedStays(tools, env, w1.cluster, pulled, selected, w2.cluster, f);
      }
    }
  }

  lemma UnselectedStays(
      tools: Tools, env: Env, c: Cluster, pulled: Pulled, selected: seq<string>, c': Cluster, f: string)
    requires ValidTools(tools) && DistinctTargets(tools, pulled.files) && f !in selected
    requires Merged(tools, env, c, pulled.files, Elements(selected), c')
    ensures NeedsApply(tools, c', pulled, f) <==> NeedsApply(tools, c, pulled, f)
  {
    if HasTarget(tools, pulled.files, f) {
      assert Untargeted(tools, env, pulled.files, Elements(selected), KeyOf(tools, pulled.files, f));
    }
  }

  /** When every manifest can be applied and has a spec, applying what a comparison selects leaves nothing to apply. */
  lemma SelectionSettles(tools: Tools, env: Env, w: World, pulled: Pulled, order: seq<string>)
    requires ValidTools(tools) && Quiet(env, Now(w))
    requires ChecksumsMatch(tools, pulled) && DistinctTargets(tools, pulled.files)
    requires Enumerates(order, pulled.checksums.Keys)
    requires forall f :: f in order ==> Applicable(tools, env, pulled.files, f) && HasSpec(tools, pulled, f)
    ensures var (selected, w1) := CompareAll(tools, env, w, pulled, order);
            var w2 := if selected == [] then w1 else ApplyAll(tools, env, w1, pulled.files, selected).1;
            && Quiet(env, Now(w2))
            && forall f :: f in order ==> !NeedsApply(tools, w2.cluster, pulled, f)
  {
    var (selected, w1) := CompareAll(tools, env, w, pulled, order);
    QuietCompareAll(tools, env, w, pulled, order);
    if selected != [] {
      AllApply(tools, env, w1, pulled, selected);
      ChecksumsConverge(tools, env, w, pulled, order, order);
      QuietCompareAll(tools, env, ApplyAll(tools, env, w1, pulled.files, selected).1, pulled, order);
    }
  }

  lemma AllApply(tools: Tools, env: Env, w: World, pulled: Pulled, todo: seq<string>)
    requires Quiet(env, Now(w)) && DistinctTargets(tools, pulled.files)
    requires forall f :: f in todo ==> Applicable(tools, env, pulled.files, f)
    ensures var (oks, w') := ApplyAll(tools, env, w, pulled.files, todo);
            Quiet(env, Now(w')) && forall i :: 0 <= i < |oks| ==> oks[i]
  {
    QuietApplyAll(tools, env, w, pulled.files, todo);
  }
}
