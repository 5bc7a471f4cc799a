/** Layer extraction: pullOCI's loop and processLayer of internal/watcher/watcher.go. */
module Layers {
  import opened Wrappers
  import opened Text

  const POLICY_LAYER := "application/vnd.cncf.kyverno.policy.layer.v1+yaml"

  /** A layer as the registry and the disk let it be seen: None where reading it fails. */
  datatype Layer = Layer(mediaType: Option<string>, content: Option<string>, writable: bool)

  function FileName(dir: string, index: nat, mediaType: string): string {
    dir + "/" + ((if mediaType == POLICY_LAYER then "policy-" else "layer-") + (Itoa(index) + ".yaml"))
  }

  /** The names of the first layers and of any later one: they end as the search for YAML files expects. */
  lemma FileNameShape(dir: string, i: nat, mediaType: string)
    ensures FileName(dir, i, "application/vnd.cncf.kyverno.policy.layer.v1+yaml")
            == dir + "/policy-" + Itoa(i) + ".yaml"
    ensures mediaType != "application/vnd.cncf.kyverno.policy.layer.v1+yaml" ==>
              FileName(dir, i, mediaType) == dir + "/layer-" + Itoa(i) + ".yaml"
    ensures IsYaml(FileName(dir, i, mediaType)) && dir + "/" <= FileName(dir, i, mediaType)
  {
    var name := FileName(dir, i, mediaType);
    var tail := ".yaml";
    assert name[|name| - 5..] == tail;
    assert dir + "/policy-" == dir + "/" + "policy-" && dir + "/layer-" == dir + "/" + "layer-";
  }

  /** What the search for YAML files picks up, among the names that layers get. */
  predicate IsYaml(name: string) {
    |name| >= 5 && name[|name| - 5..] == ".yaml"
  }

  /** Across both prefixes, the name tells the index. */
  lemma FileNameInjective(dir: string, i: nat, mi: string, j: nat, mj: string)
    requires FileName(dir, i, mi) == FileName(dir, j, mj)
    ensures i == j
  {
    var pi := if mi == POLICY_LAYER then "policy-" else "layer-";
    var pj := if mj == POLICY_LAYER then "policy-" else "layer-";
    var n := |dir + "/"|;
    assert FileName(dir, i, mi)[n..] == pi + (Itoa(i) + ".yaml");
    assert FileName(dir, j, mj)[n..] == pj + (Itoa(j) + ".yaml");
    assert pi == pj by {
      assert (pi + (Itoa(i) + ".yaml"))[0] == pi[0];
      assert (pj + (Itoa(j) + ".yaml"))[0] == pj[0];
    }
    SameTail(pi, Itoa(i) + ".yaml", Itoa(j) + ".yaml");
    SameHead(Itoa(i), Itoa(j), ".yaml");
    ItoaInjective(i, j);
  }

  lemma SameTail(a: string, b: string, c: string)
    requires a + b == a + c
    ensures b == c
  {
    assert (a + b)[|a|..] == b && (a + c)[|a|..] == c;
  }

  lemma SameHead(a: string, b: string, c: string)
    requires a + c == b + c
    ensures a == b
  {
    assert |a + c| == |a| + |c| && |b + c| == |b| + |c|;
    assert (a + c)[..|a|] == a && (b + c)[..|b|] == b;
  }

  predicate Extractable(l: Layer) {
    l.mediaType.Some? && l.content.Some? && (l.content.value == "" || l.writable)
  }

  predicate Holds(l: Layer) {
    Extractable(l) && l.content.value != ""
  }

  function NameOf(dir: string, layers: seq<Layer>, i: nat): string
    requires i < |layers| && Holds(layers[i])
  {
    FileName(dir, i, layers[i].mediaType.value)
  }

  /** The directory holds one file per non-empty layer among the first n, with its content, and nothing else. */
  ghost predicate Extracted(dir: string, layers: seq<Layer>, n: nat, files: map<string, string>)
    requires n <= |layers|
  {
    && (forall i :: 0 <= i < n && Holds(layers[i]) ==>
          NameOf(dir, layers, i) in files && files[NameOf(dir, layers, i)] == layers[i].content.value)
    && (forall f :: f in files ==> exists i :: 0 <= i < n && Holds(layers[i]) && NameOf(dir, layers, i) == f)
  }

  /** So the search for YAML files finds all that was extracted. */
  lemma ExtractedIsFound(dir: string, layers: seq<Layer>, n: nat, files: map<string, string>)
    requires n <= |layers| && Extracted(dir, layers, n, files)
    ensures forall f :: f in files ==> IsYaml(f) && dir + "/" <= f
  {
    forall f | f in files ensures IsYaml(f) && dir + "/" <= f {
      var i :| 0 <= i < n && Holds(layers[i]) && NameOf(dir, layers, i) == f;
      FileNameShape(dir, i, layers[i].mediaType.value);
    }
  }

  method ProcessLayer(layer: Layer, dir: string, index: nat, files: map<string, string>, fileCount: nat)
    returns (ok: bool, files': map<string, string>, fileCount': nat)
    ensures ok <==> layer.mediaType.Some? && layer.content.Some? && (layer.content.value != "" ==> layer.writable)
    ensures if Holds(layer) then files' == files[FileName(dir, index, layer.mediaType.value) := layer.content.value]
            else files' == files
    ensures fileCount' == fileCount + if Holds(layer) then 1 else 0
  {
    ok, files', fileCount' := false, files, fileCount;
    if layer.mediaType.None? || layer.content.None? { return; }
    if layer.content.value == "" { return true, files, fileCount; }
    var filename := FileName(dir, index, "");
    if layer.mediaType.value == POLICY_LAYER {
      filename := FileName(dir, index, POLICY_LAYER);
    }
    if !layer.writable { return; }
    return true, files[filename := layer.content.value], fileCount + 1;
  }

  lemma NameIsNew(dir: string, layers: seq<Layer>, i: nat, files: map<string, string>)
    requires i < |layers| && Extracted(dir, layers, i, files) && Holds(layers[i])
    ensures NameOf(dir, layers, i) !in files
    ensures forall j :: 0 <= j < i && Holds(layers[j]) ==> NameOf(dir, layers, j) != NameOf(dir, layers, i)
  {
    forall j | 0 <= j < i && Holds(layers[j]) ensures NameOf(dir, layers, j) != NameOf(dir, layers, i) {
      if NameOf(dir, layers, j) == NameOf(dir, layers, i) {
        FileNameInjective(dir, j, layers[j].mediaType.value, i, layers[i].mediaType.value);
        assert false;
      }
    }
  }

  lemma ExtractedNext(dir: string, layers: seq<Layer>, i: nat, files: map<string, string>)
    requires i < |layers| && Extracted(dir, layers, i, files)
    ensures !Holds(layers[i]) ==> Extracted(dir, layers, i + 1, files)
    ensures Holds(layers[i]) ==>
              NameOf(dir, layers, i) !in files
              && Extracted(dir, layers, i + 1, files[NameOf(dir, layers, i) := layers[i].content.value])
  {
    if Holds(layers[i]) {
      NameIsNew(dir, layers, i, files);
      var name := NameOf(dir, layers, i);
      var files' := files[name := layers[i].content.value];
      forall f | f in files' ensures exists j :: 0 <= j < i + 1 && Holds(layers[j]) && NameOf(dir, layers, j) == f {
        if f in files {
          var j :| 0 <= j < i && Holds(layers[j]) && NameOf(dir, layers, j) == f;
        } else {
          assert NameOf(dir, layers, i) == f;
        }
      }
    }
  }

  /**
   Starting from an empty directory, extraction works exactly if every layer can be extracted, and then leaves one
   file per non-empty layer with that layer's content, none overwritten, and a counter equal to their number.
   */
  method PullOCI(layers: seq<Layer>, dir: string) returns (ok: bool, files: map<string, string>, fileCount: nat)
    ensures ok <==> forall i :: 0 <= i < |layers| ==> Extractable(layers[i])
    ensures ok ==> Extracted(dir, layers, |layers|, files)
    ensures fileCount == |files|
  {
    files, fileCount := map[], 0;
    for i := 0 to |layers|
      invariant forall j :: 0 <= j < i ==> Extractable(layers[j])
      invariant Extracted(dir, layers, i, files) && fileCount == |files|
    {
      ghost var before := files;
      ok, files, fileCount := ProcessLayer(layers[i], dir, i, files, fileCount);
      LayerAdded(dir, layers, i, before, files);
      if !ok {
        assert !Extractable(layers[i]);
        return;
      }
    }
    ok := true;
  }

  lemma LayerAdded(dir: string, layers: seq<Layer>, i: nat, files: map<string, string>, files': map<string, string>)
    requires i < |layers| && Extracted(dir, layers, i, files)
    requires if Holds(layers[i])
             then files' == files[FileName(dir, i, layers[i].mediaType.value) := layers[i].content.value]
             else files' == files
    ensures Extracted(dir, layers, i + 1, files')
    ensures |files'| == |files| + if Holds(layers[i]) then 1 else 0
  {
    ExtractedNext(dir, layers, i, files);
  }
}
