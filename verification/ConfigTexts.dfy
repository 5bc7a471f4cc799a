/** How the watcher reads single settings, and what it assumes where a setting is missing. */
module ConfigTexts {
  import opened Wrappers
  import opened Text
  import opened Trimming
  import opened WatcherConfig

  // ---- Letters ----

  /** Only capital letters change, each into its small one. */
  lemma {:induction false} LowerIsExact(s: string)
    ensures |ToLower(s)| == |s|
    ensures forall i :: 0 <= i < |s| ==>
              if 'A' <= s[i] <= 'Z' then ToLower(s)[i] as int == s[i] as int + 32 else ToLower(s)[i] == s[i]
  {
    if s != "" {
      LowerIsExact(s[1..]);
      forall i | 0 < i < |s| ensures s[i] == s[1..][i - 1] && ToLower(s)[i] == ToLower(s[1..])[i - 1] {
      }
    }
  }

  /** The spelling of the provider does not matter. */
  lemma ProviderSpelling(env: map<string, string>, p: string)
    requires p != ""
    ensures LoadConfig(env["PROVIDER" := p]) == LoadConfig(env["PROVIDER" := ToLower(p)])
  {
    LowerIsExact(p);
    Lowers(ToLower(p), ToLower(p));
    SameElsewhere(env, p, ToLower(p));
  }

  /** What is read under this name is the same in both. */
  ghost predicate Agree(env: map<string, string>, env': map<string, string>, x: string) {
    At(env, x) == At(env', x)
  }

  lemma AgreeElsewhere(env: map<string, string>, p: string, q: string, x: string)
    requires x != "PROVIDER"
    ensures Agree(env["PROVIDER" := p], env["PROVIDER" := q], x)
  {
  }

  lemma SameElsewhere(env: map<string, string>, p: string, q: string)
    requires p != "" && q != "" && ToLower(p) == ToLower(q)
    ensures LoadConfig(env["PROVIDER" := p]) == LoadConfig(env["PROVIDER" := q])
  {
    var e, e' := env["PROVIDER" := p], env["PROVIDER" := q];
    NamesApart();
    AgreeElsewhere(env, p, q, "IMAGE_BASE");
    AgreeElsewhere(env, p, q, "GITHUB_TOKEN");
    AgreeElsewhere(env, p, q, "ARTIFACTORY_USERNAME");
    AgreeElsewhere(env, p, q, "ARTIFACTORY_PASSWORD");
    AgreeElsewhere(env, p, q, "POLL_INTERVAL");
    AgreeElsewhere(env, p, q, "WATCHER_POLL_FOR_TAG_CHANGES_ENABLED");
    AgreeElsewhere(env, p, q, "GITHUB_API_OWNER_TYPE");
    AgreeElsewhere(env, p, q, "ARTIFACT_NAME");
    AgreeElsewhere(env, p, q, "HOSTNAME");
    AgreeElsewhere(env, p, q, "WATCHER_DELETE_POLICIES_ON_TERMINATION");
    AgreeElsewhere(env, p, q, "WATCHER_CHECKSUM_RECONCILIATION_ENABLED");
    AgreeElsewhere(env, p, q, "WATCHER_IMAGE");
    AgreeElsewhere(env, p, q, "POD_NAMESPACE");
    assert At(e, "PROVIDER") == p && At(e', "PROVIDER") == q;
    AgreeingLoads(e, e');
  }

  lemma NamesApart()
    ensures "PROVIDER" !in {
              "IMAGE_BASE", "GITHUB_TOKEN", "ARTIFACTORY_USERNAME", "ARTIFACTORY_PASSWORD", "POLL_INTERVAL",
              "WATCHER_POLL_FOR_TAG_CHANGES_ENABLED", "GITHUB_API_OWNER_TYPE", "ARTIFACT_NAME", "HOSTNAME",
              "WATCHER_DELETE_POLICIES_ON_TERMINATION", "WATCHER_CHECKSUM_RECONCILIATION_ENABLED", "WATCHER_IMAGE",
              "POD_NAMESPACE" }
  {
    assert |"PROVIDER"| == 8 && "PROVIDER"[0] == 'P' && "HOSTNAME"[0] == 'H';
    assert |"IMAGE_BASE"| == 10 && |"GITHUB_TOKEN"| == 12 && |"ARTIFACTORY_USERNAME"| == 20;
    assert |"ARTIFACTORY_PASSWORD"| == 20 && |"POLL_INTERVAL"| == 13 && |"GITHUB_API_OWNER_TYPE"| == 21;
    assert |"WATCHER_POLL_FOR_TAG_CHANGES_ENABLED"| == 36 && |"ARTIFACT_NAME"| == 13 && |"WATCHER_IMAGE"| == 13;
    assert |"WATCHER_DELETE_POLICIES_ON_TERMINATION"| == 38 && |"POD_NAMESPACE"| == 13;
    assert |"WATCHER_CHECKSUM_RECONCILIATION_ENABLED"| == 39;
  }

  lemma AgreeingLoads(e: map<string, string>, e': map<string, string>)
    requires At(e, "PROVIDER") != "" && At(e', "PROVIDER") != ""
    requires ToLower(At(e, "PROVIDER")) == ToLower(At(e', "PROVIDER"))
    requires Agree(e, e', "IMAGE_BASE") && Agree(e, e', "GITHUB_TOKEN") && Agree(e, e', "ARTIFACTORY_USERNAME")
    requires Agree(e, e', "ARTIFACTORY_PASSWORD") && Agree(e, e', "POLL_INTERVAL") && Agree(e, e', "ARTIFACT_NAME")
    requires Agree(e, e', "WATCHER_POLL_FOR_TAG_CHANGES_ENABLED") && Agree(e, e', "GITHUB_API_OWNER_TYPE")
    requires Agree(e, e', "HOSTNAME") && Agree(e, e', "WATCHER_DELETE_POLICIES_ON_TERMINATION")
    requires Agree(e, e', "WATCHER_CHECKSUM_RECONCILIATION_ENABLED") && Agree(e, e', "WATCHER_IMAGE")
    requires Agree(e, e', "POD_NAMESPACE")
    ensures LoadConfig(e) == LoadConfig(e')
  {
    var provider, base := ToLower(At(e, "PROVIDER")), At(e, "IMAGE_BASE");
    assert AccessOf(e, provider, base) == AccessOf(e', provider, base);
  }

  // ---- Switches ----

  /** What switches on, in any spelling. */
  lemma OnTexts(default: bool)
    ensures AsBool("t", default) && AsBool("T", default) && AsBool("1", default)
    ensures AsBool("true", default) && AsBool("True", default) && AsBool("TRUE", default)
  {
    Lowers("t", "t");
    Lowers("T", "t");
    Lowers("1", "1");
    Lowers("true", "true");
    Lowers("True", "true");
    Lowers("TRUE", "true");
  }

  /** What switches off, whatever the default; only the empty text leaves it. */
  lemma OffTexts(default: bool)
    ensures !AsBool("0", default) && !AsBool("false", default) && !AsBool("yes", default) && !AsBool(" true", default)
    ensures AsBool("", default) == default
  {
    Lowers("0", "0");
    assert "0"[0] == '0';
    NotOn("0");
    Lowers("false", "false");
    NotOn("false");
    Lowers("yes", "yes");
    NotOn("yes");
    Lowers(" true", " true");
    NotOn(" true");
  }

  lemma NotOn(l: string)
    requires |l| !in {1, 4} || (|l| == 1 && l[0] == '0')
    ensures l !in {"t", "true", "1"}
  {
    assert |"t"| == 1 && |"true"| == 4 && |"1"| == 1;
    assert "1"[0] == '1' && "t"[0] == 't';
  }

  lemma Lowers(s: string, l: string)
    requires |s| == |l|
    requires forall i :: 0 <= i < |s| ==>
               if 'A' <= s[i] <= 'Z' then l[i] as int == s[i] as int + 32 else l[i] == s[i]
    ensures ToLower(s) == l
  {
    LowerIsExact(s);
  }

  // ---- Numbers ----

  /** White space in front and anything that is no digit behind a number is ignored. */
  lemma NumberAmongOthers(blank: string, n: int, rest: string)
    requires -0x8000_0000_0000_0000 <= n < 0x8000_0000_0000_0000
    requires forall i :: 0 <= i < |blank| ==> IsSpace(blank[i]) && blank[i] != '\n'
    requires rest != "" ==> !IsDigit(rest[0])
    ensures AsInt(blank + (Itoa(n) + rest), 30) == n
  {
    ScanInvertsItoa(n);
    NumberStarts(n);
    BlanksAreSkipped(blank, Itoa(n) + rest);
    RestIsIgnored(n, rest);
    assert blank + (Itoa(n) + rest) != "";
  }

  lemma NumberStarts(n: int)
    ensures Itoa(n) != "" && (IsDigit(Itoa(n)[0]) || Itoa(n)[0] == '-')
  {
    var digits := Digits(if n < 0 then -n else n);
    assert digits[0] in digits;
  }

  lemma RestIsIgnored(n: int, rest: string)
    requires rest != "" ==> !IsDigit(rest[0])
    ensures ScanInt(Itoa(n) + rest) == ScanInt(Itoa(n))
  {
    var number := Itoa(n);
    NumberStarts(n);
    if n < 0 {
      DigitsEnd(-n, rest);
      assert (number + rest)[1..] == Digits(-n) + rest && number[1..] == Digits(-n);
    } else {
      DigitsEnd(n, rest);
      assert Digits(n)[0] in Digits(n);
    }
    SameDigitsSameNumber(number, number + rest);
  }

  lemma ScanIsNumeral(s: string)
    requires s != "" && (IsDigit(s[0]) || s[0] == '-')
    ensures ScanInt(s) == Numeral(s[0] == '-', DigitPrefix(if s[0] == '-' then s[1..] else s))
  {
    NoSpaceToSkip(s);
  }

  lemma SameDigitsSameNumber(s: string, t: string)
    requires s != "" && t != "" && s[0] == t[0] && (IsDigit(s[0]) || s[0] == '-')
    requires if s[0] == '-' then DigitPrefix(s[1..]) == DigitPrefix(t[1..]) else DigitPrefix(s) == DigitPrefix(t)
    ensures ScanInt(s) == ScanInt(t)
  {
    ScanIsNumeral(s);
    ScanIsNumeral(t);
  }

  lemma {:induction false} BlanksAreSkipped(blank: string, rest: string)
    requires forall i :: 0 <= i < |blank| ==> IsSpace(blank[i]) && blank[i] != '\n'
    ensures SkipSpace(blank + rest) == SkipSpace(rest)
  {
    if blank == "" {
      assert blank + rest == rest;
    } else {
      BlanksAreSkipped(blank[1..], rest);
      assert (blank + rest)[1..] == blank[1..] + rest;
    }
  }

  lemma {:induction false} PrefixEnds(digits: string, rest: string)
    requires forall c :: c in digits ==> IsDigit(c)
    requires rest != "" ==> !IsDigit(rest[0])
    ensures DigitPrefix(digits + rest) == digits
  {
    if digits == "" {
      assert digits + rest == rest;
    } else {
      PrefixEnds(digits[1..], rest);
      assert (digits + rest)[1..] == digits[1..] + rest;
    }
  }

  lemma DigitsEnd(n: nat, rest: string)
    requires rest != "" ==> !IsDigit(rest[0])
    ensures DigitPrefix(Digits(n) + rest) == Digits(n) == DigitPrefix(Digits(n))
  {
    PrefixEnds(Digits(n), rest);
    DigitPrefixOfDigits(Digits(n));
  }

  /** A plus sign is no harm. */
  lemma PlusSign(n: nat)
    requires n < 0x8000_0000_0000_0000
    ensures AsInt("+" + Itoa(n), 30) == n
  {
    var s := "+" + Itoa(n);
    ValueInvertsDigits(n);
    DigitPrefixOfDigits(Digits(n));
    assert s[0] == '+' && s[1..] == Digits(n);
  }

  /** A number that does not fit leaves the default, and so does one after a line end. */
  lemma NumberRefused(n: int, default: int, s: string)
    ensures !(-0x8000_0000_0000_0000 <= n < 0x8000_0000_0000_0000) ==> AsInt(Itoa(n), default) == default
    ensures AsInt("\n" + s, default) == default
  {
    if !(-0x8000_0000_0000_0000 <= n < 0x8000_0000_0000_0000) {
      TooBig(n);
    }
  }

  lemma TooBig(n: int)
    requires !(-0x8000_0000_0000_0000 <= n < 0x8000_0000_0000_0000)
    ensures ScanInt(Itoa(n)) == None
  {
    NumberStarts(n);
    NoSpaceToSkip(Itoa(n));
    var m := if n < 0 then -n else n;
    ValueInvertsDigits(m);
    DigitPrefixOfDigits(Digits(m));
    if n < 0 {
      assert Itoa(n)[1..] == Digits(m);
    } else {
      assert Itoa(n) == Digits(m) && Digits(m)[0] in Digits(m);
    }
  }

  /** What does not begin as a number is none, and the default stands. */
  lemma NoNumber(s: string, default: int)
    requires s == "" || (!IsDigit(s[0]) && !IsSpace(s[0]) && s[0] != '-' && s[0] != '+')
    ensures AsInt(s, default) == default
  {
  }

  // ---- Tokens ----

  /** Nothing but printable ASCII is left of a token, and what was printable and trimmed is left whole. */
  lemma {:induction false} PrintableIsExact(s: string)
    ensures forall c :: c in Printable(s) ==> 32 <= c as int <= 126
    ensures (forall c :: c in s ==> 32 <= c as int <= 126) ==> Printable(s) == s
  {
    if s != "" {
      PrintableIsExact(s[1..]);
      assert s == [s[0]] + s[1..] && s[0] in s;
      assert forall c :: c in s[1..] ==> c in s;
    }
  }

  lemma PrintableStep(c: char, s: string)
    ensures Printable([c] + s) == if 32 <= c as int <= 126 then [c] + Printable(s) else Printable(s)
  {
    assert ([c] + s)[1..] == s;
  }

  lemma {:induction false} PrintableJoins(a: string, b: string)
    ensures Printable(a + b) == Printable(a) + Printable(b)
  {
    if a == "" {
      assert a + b == b;
    } else {
      PrintableJoins(a[1..], b);
      PrintableStep(a[0], a[1..] + b);
      PrintableStep(a[0], a[1..]);
      assert a == [a[0]] + a[1..];
      assert a + b == [a[0]] + (a[1..] + b);
    }
  }

  /** A token is first trimmed and then cleaned. */
  lemma TokenIsExact(s: string, m: string)
    requires Trims(s, m)
    ensures Token(s) == Printable(m)
  {
    TrimSpaceTrims(s);
    TrimsOneWay(s, m, TrimSpace(s));
  }

  // ---- Replacing ----

  /** Parts put together with a string between them. */
  ghost function Spread(parts: seq<string>, between: string): string
    requires |parts| >= 1
  {
    if |parts| == 1 then parts[0] else parts[0] + between + Spread(parts[1..], between)
  }

  lemma {:induction false} ReplaceFirst(a: string, c: char, b: string, sub: string)
    requires c !in a
    ensures ReplaceAll(a + b, c, sub) == a + ReplaceAll(b, c, sub)
  {
    if a == "" {
      assert a + b == b;
    } else {
      ReplaceFirst(a[1..], c, b, sub);
      assert (a + b)[1..] == a[1..] + b;
    }
  }

  lemma ReplaceStep(a: string, c: char, rest: string, sub: string)
    requires c !in a
    ensures ReplaceAll(a + ([c] + rest), c, sub) == a + sub + ReplaceAll(rest, c, sub)
  {
    ReplaceFirst(a, c, [c] + rest, sub);
    assert ([c] + rest)[1..] == rest;
  }

  lemma SpreadStep(a: string, parts: seq<string>, between: string)
    requires |parts| >= 1
    ensures Spread([a] + parts, between) == a + between + Spread(parts, between)
  {
    assert ([a] + parts)[1..] == parts;
  }

  lemma {:induction false} ReplaceSpreads(s: string, c: char, sub: string)
    ensures ReplaceAll(s, c, sub) == Spread(Split(s, c), sub)
    decreases |s|
  {
    if c in s {
      var i := Index(s, c);
      var rest := s[i + 1..];
      ReplaceSpreads(rest, c, sub);
      ReplaceStep(s[..i], c, rest, sub);
      assert s == s[..i] + ([c] + rest);
      SpreadStep(s[..i], Split(rest, c), sub);
    } else {
      ReplaceFirst(s, c, "", sub);
      assert s + "" == s;
    }
  }

  /** The package as the API path wants it: its parts with "%2F" between them. */
  lemma PackageIsEscaped(env: map<string, string>)
    requires LoadConfig(env).Ok?
    ensures LoadConfig(env).value.packageNormalized == Spread(Split(LoadConfig(env).value.package, '/'), "%2F")
  {
    ReplaceSpreads(LoadConfig(env).value.package, '/', "%2F");
  }

  // ---- Missing settings ----

  /** None of the optional settings is there. */
  ghost predicate Bare(env: map<string, string>) {
    && At(env, "PROVIDER") == "" && At(env, "POLL_INTERVAL") == "" && At(env, "GITHUB_API_OWNER_TYPE") == ""
    && At(env, "WATCHER_POLL_FOR_TAG_CHANGES_ENABLED") == ""
    && At(env, "WATCHER_DELETE_POLICIES_ON_TERMINATION") == ""
    && At(env, "WATCHER_CHECKSUM_RECONCILIATION_ENABLED") == ""
    && At(env, "ARTIFACT_NAME") == ""
  }

  lemma BareDefaults(env: map<string, string>)
    requires Bare(env) && LoadConfig(env).Ok?
    ensures var c := LoadConfig(env).value;
            && c.provider == "github" && c.pollInterval == 30 && c.pollForTagChanges
            && !c.deletePoliciesOnTermination && !c.reconcilePoliciesFromChecksum && c.githubAPIOwnerType == "users"
  {
    ProvidersLower();
  }

  /** Without a name of its own the artifact's name is taken from the pod's, if that has the prefix. */
  lemma NameFromHost(env: map<string, string>)
    requires At(env, "ARTIFACT_NAME") == "" && LoadConfig(env).Ok?
    ensures forall name :: At(env, "HOSTNAME") == "kyverno-artifact-manager-" + name ==>
              LoadConfig(env).value.artifactName == name
    ensures (forall name :: At(env, "HOSTNAME") != "kyverno-artifact-manager-" + name) ==>
              LoadConfig(env).value.artifactName == ""
  {
    assert LoadConfig(env).value.artifactName == ArtifactNameOf("", At(env, "HOSTNAME"));
    HostTellsName(At(env, "HOSTNAME"));
  }

  lemma HostTellsName(host: string)
    ensures forall name :: host == "kyverno-artifact-manager-" + name ==> ArtifactNameOf("", host) == name
    ensures (forall name :: host != "kyverno-artifact-manager-" + name) ==> ArtifactNameOf("", host) == ""
  {
    var prefix := "kyverno-artifact-manager-";
    forall name | host == prefix + name ensures ArtifactNameOf("", host) == name {
      assert host[|prefix|..] == name;
    }
    if prefix <= host {
      assert host == prefix + host[|prefix|..];
    }
  }
}
