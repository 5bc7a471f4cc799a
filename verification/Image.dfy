/** Image references, as internal/watcher/schema.go and watcher.go take them apart and put them together. */
module Image {
  import opened Wrappers
  import opened Text

  /** The reference without its tag: everything before the first colon. */
  function BaseOf(imageBase: string): string {
    Split(imageBase, ':')[0]
  }

  function ParseImageBase(imageBase: string): Result<(string, string), string> {
    var parts := Split(BaseOf(imageBase), '/');
    if |parts| < 3 then Err("IMAGE_BASE must be in format ghcr.io/owner/package")
    else
      var owner, package := parts[1], Join(parts[2..], '/');
      if owner == "" || package == "" then Err("could not extract owner and package from IMAGE_BASE")
      else Ok((owner, package))
  }

  /** The tag that pinned mode takes from the reference: what follows the last colon, unless it looks like a path. */
  function PinnedTag(imageBase: string): Option<string> {
    if ':' in imageBase && '/' !in Last(Split(imageBase, ':')) then Some(Last(Split(imageBase, ':'))) else None
  }

  /** The reference that is pulled. */
  function PullRef(imageBase: string, tag: string): string {
    BaseOf(imageBase) + ":" + tag
  }

  lemma {:induction false} SplitPartsClean(s: string, c: char)
    ensures forall p :: p in Split(s, c) ==> c !in p
    decreases |s|
  {
    if c in s {
      SplitPartsClean(s[Index(s, c) + 1..], c);
    }
  }

  lemma SplitWhole(s: string, c: char)
    requires c !in s
    ensures Split(s, c) == [s]
  {
  }

  /** Host, owner and package are told apart by the first two slashes before the first colon, and by nothing else. */
  lemma ParseIsExact(imageBase: string, owner: string, package: string)
    ensures ParseImageBase(imageBase) == Ok((owner, package)) <==>
            exists host :: IsReference(BaseOf(imageBase), host, owner, package)
  {
    if ParseImageBase(imageBase) == Ok((owner, package)) {
      ParsedIsReference(imageBase, owner, package);
    }
    if host :| IsReference(BaseOf(imageBase), host, owner, package) {
      ReferenceSplits(BaseOf(imageBase), host, owner, package);
      JoinInvertsSplit(package, '/');
    }
  }

  lemma ParsedIsReference(imageBase: string, owner: string, package: string)
    requires ParseImageBase(imageBase) == Ok((owner, package))
    ensures IsReference(BaseOf(imageBase), Split(BaseOf(imageBase), '/')[0], owner, package)
  {
    var base := BaseOf(imageBase);
    var parts := Split(base, '/');
    SplitPartsClean(base, '/');
    JoinInvertsSplit(base, '/');
    JoinCons(parts[0], parts[1..], '/');
    JoinCons(parts[1], parts[2..], '/');
    assert parts == [parts[0]] + parts[1..] && parts[1..] == [parts[1]] + parts[2..];
    calc {
      base;
      parts[0] + ['/'] + (parts[1] + ['/'] + Join(parts[2..], '/'));
      parts[0] + ['/'] + (owner + ['/'] + package);
    }
  }

  lemma ReferenceSplits(base: string, host: string, owner: string, package: string)
    requires IsReference(base, host, owner, package)
    ensures |Split(base, '/')| >= 3 && Split(base, '/')[1] == owner && Split(base, '/')[2..] == Split(package, '/')
  {
    var tail := owner + ['/'] + package;
    SplitFirst(host, '/', tail);
    SplitFirst(owner, '/', package);
    DropTwo(host, owner, Split(package, '/'));
  }

  lemma DropTwo(a: string, b: string, rest: seq<string>)
    ensures |[a] + ([b] + rest)| == |rest| + 2 && ([a] + ([b] + rest))[1] == b && ([a] + ([b] + rest))[2..] == rest
  {
  }

  ghost predicate IsReference(base: string, host: string, owner: string, package: string) {
    && base == host + ['/'] + (owner + ['/'] + package)
    && '/' !in host && '/' !in owner && owner != "" && package != ""
  }

  /** A tag after the package does not matter to the parser. */
  lemma ParseRecovers(host: string, owner: string, package: string, tag: Option<string>)
    requires '/' !in host && ':' !in host && '/' !in owner && ':' !in owner && ':' !in package
    requires owner != "" && package != ""
    ensures var base := host + "/" + owner + "/" + package;
            ParseImageBase(if tag.Some? then base + ":" + tag.value else base) == Ok((owner, package))
  {
    var base := host + ['/'] + (owner + ['/'] + package);
    assert base == host + "/" + owner + "/" + package;
    var ref := if tag.Some? then base + ":" + tag.value else base;
    if tag.Some? {
      assert ref == base + [':'] + tag.value;
      SplitFirst(base, ':', tag.value);
    } else {
      SplitWhole(base, ':');
    }
    assert IsReference(BaseOf(ref), host, owner, package);
    ParseIsExact(ref, owner, package);
  }

  /** Pinned mode pulls the very reference it was given exactly when that reference holds a single colon. */
  lemma PinnedPullIsExact(imageBase: string)
    requires PinnedTag(imageBase).Some?
    ensures PullRef(imageBase, PinnedTag(imageBase).value) == imageBase <==> |Split(imageBase, ':')| == 2
  {
    var parts := Split(imageBase, ':');
    var base, tag := parts[0], Last(parts);
    SplitPartsClean(imageBase, ':');
    assert base + ":" + tag == base + [':'] + tag;
    SplitFirst(base, ':', tag);
    SplitWhole(tag, ':');
    if |parts| == 2 {
      JoinInvertsSplit(imageBase, ':');
      JoinCons(parts[0], parts[1..], ':');
      assert parts == [parts[0]] + parts[1..];
    }
  }

  /** A registry port is cut off together with everything behind it: the pull goes to the bare host. */
  lemma PortIsCutOff(host: string, port: string, path: string, tag: string)
    requires ':' !in host && ':' !in port && ':' !in path && ':' !in tag && '/' !in tag
    ensures var ref := host + ":" + (port + path + ":" + tag);
            PinnedTag(ref) == Some(tag) && PullRef(ref, tag) == host + ":" + tag
  {
    var tail := port + path + ":" + tag;
    var ref := host + ":" + tail;
    assert ref == host + [':'] + tail && tail == (port + path) + [':'] + tag;
    SplitFirst(host, ':', tail);
    SplitFirst(port + path, ':', tag);
    SplitWhole(tag, ':');
    assert Split(ref, ':') == [host] + ([port + path] + [tag]);
    assert ref[|host|] == ':';
  }
}
