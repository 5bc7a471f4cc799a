/** What strings.TrimSpace leaves of a text. */
module Trimming {
  import opened Text

  /** `m` is `s` without the white space at its ends. */
  ghost predicate Trims(s: string, m: string) {
    exists a, b :: s == a + m + b && Blank(a) && Blank(b) && (m == "" || (!IsSpace(m[0]) && !IsSpace(m[|m| - 1])))
  }

  ghost predicate Blank(s: string) {
    forall i :: 0 <= i < |s| ==> IsSpace(s[i])
  }

  lemma {:induction false} TrimLeftCuts(s: string) returns (a: string)
    ensures s == a + TrimLeft(s) && Blank(a)
  {
    if s != "" && IsSpace(s[0]) {
      var rest := TrimLeftCuts(s[1..]);
      a := [s[0]] + rest;
    } else {
      a := "";
    }
  }

  lemma {:induction false} TrimRightCuts(s: string) returns (b: string)
    ensures s == TrimRight(s) + b && Blank(b)
    ensures TrimRight(s) == "" || !IsSpace(TrimRight(s)[|TrimRight(s)| - 1])
  {
    if s != "" && IsSpace(s[|s| - 1]) {
      var rest := TrimRightCuts(s[..|s| - 1]);
      b := rest + [s[|s| - 1]];
    } else {
      b := "";
    }
  }

  lemma TrimSpaceTrims(s: string)
    ensures Trims(s, TrimSpace(s))
  {
    var a := TrimLeftCuts(s);
    var l := TrimLeft(s);
    var b := TrimRightCuts(l);
    var m := TrimSpace(s);
    TrimLeftClean(s);
    assert s == a + m + b;
    assert m != "" ==> m[0] == l[0];
  }

  lemma TrimsOneWay(s: string, m: string, n: string)
    requires Trims(s, m) && Trims(s, n)
    ensures m == n
  {
    var a, b :| s == a + m + b && Blank(a) && Blank(b)
                && (m == "" || (!IsSpace(m[0]) && !IsSpace(m[|m| - 1])));
    var c, d :| s == c + n + d && Blank(c) && Blank(d)
                && (n == "" || (!IsSpace(n[0]) && !IsSpace(n[|n| - 1])));
    TrimmedPart(s, a, m, b, c, n, d);
    TrimmedPart(s, c, n, d, a, m, b);
    if m != "" && n != "" {
      assert |a| == |c| && |b| == |d|;
      assert m == s[|a|..|s| - |b|] == n;
    }
  }

  /** Between blank ends, what begins and ends without white space begins no later and ends no earlier. */
  lemma TrimmedPart(s: string, a: string, m: string, b: string, c: string, n: string, d: string)
    requires s == a + m + b && s == c + n + d && Blank(c) && Blank(d)
    requires m == "" || (!IsSpace(m[0]) && !IsSpace(m[|m| - 1]))
    ensures m != "" ==> n != "" && |c| <= |a| && |d| <= |b|
  {
    if m != "" {
      var i, j := |a|, |a| + |m| - 1;
      assert s[i] == m[0] && s[j] == m[|m| - 1];
      assert forall k :: 0 <= k < |c| ==> s[k] == c[k];
      assert forall k :: |s| - |d| <= k < |s| ==> s[k] == d[k - (|s| - |d|)];
    }
  }

  lemma {:induction false} TrimLeftClean(s: string)
    ensures TrimLeft(s) == "" || !IsSpace(TrimLeft(s)[0])
    ensures TrimLeft(TrimLeft(s)) == TrimLeft(s)
  {
    if s != "" && IsSpace(s[0]) {
      TrimLeftClean(s[1..]);
    }
  }

  lemma {:induction false} TrimRightClean(s: string)
    ensures TrimRight(s) <= s
    ensures TrimRight(TrimRight(s)) == TrimRight(s)
  {
    if s != "" && IsSpace(s[|s| - 1]) {
      TrimRightClean(s[..|s| - 1]);
    }
  }

  lemma TrimSpaceTwice(s: string)
    ensures TrimSpace(TrimSpace(s)) == TrimSpace(s)
  {
    var l := TrimLeft(s);
    TrimLeftClean(s);
    TrimRightClean(l);
    var r := TrimRight(l);
    assert r != "" ==> r[0] == l[0];
    assert TrimLeft(r) == r;
  }

  /** Blanks, tabs and line ends are white space; visible ASCII is not. */
  lemma SpacesInAscii(c: char)
    requires c as int < 0x80
    ensures IsSpace(c) <==> c in {' ', '\t', '\n', '\r', '\U{0B}', '\U{0C}'}
  {
  }
}
