/** The string operations that the three actors share: splitting, trimming and decimal numbers. */
module Text {
  import opened Wrappers

  predicate HasPrefix(s: string, prefix: string) {
    prefix <= s
  }

  /** Indexing a Go map of strings, or reading an environment variable: "" stands for a missing entry. */
  function At(m: map<string, string>, name: string): string {
    if name in m then m[name] else ""
  }

  predicate Contains(s: string, part: string) {
    exists i | 0 <= i <= |s| :: part <= s[i..]
  }

  // ---- Splitting (strings.Split, strings.Join) ----

  function Index(s: string, c: char): (i: nat)
    requires c in s
    ensures i < |s| && s[i] == c && c !in s[..i]
  {
    if s[0] == c then 0
    else
      var i := 1 + Index(s[1..], c);
      assert s[..i] == [s[0]] + s[1..][..i - 1];
      i
  }

  function Split(s: string, c: char): (parts: seq<string>)
    ensures |parts| >= 1
    decreases |s|
  {
    if c !in s then [s]
    else [s[..Index(s, c)]] + Split(s[Index(s, c) + 1..], c)
  }

  function Join(parts: seq<string>, c: char): string
    requires |parts| >= 1
  {
    if |parts| == 1 then parts[0] else parts[0] + [c] + Join(parts[1..], c)
  }

  function Last<T>(q: seq<T>): T
    requires |q| >= 1
  {
    q[|q| - 1]
  }

  lemma JoinCons(first: string, rest: seq<string>, c: char)
    requires |rest| >= 1
    ensures Join([first] + rest, c) == first + [c] + Join(rest, c)
  {
    assert ([first] + rest)[1..] == rest;
  }

  lemma SplitFirst(a: string, c: char, b: string)
    requires c !in a
    ensures Split(a + [c] + b, c) == [a] + Split(b, c)
  {
    var s := a + [c] + b;
    assert s[|a|] == c;
    var i := Index(s, c);
    assert forall m :: 0 <= m < |a| ==> s[m] == a[m] && a[m] in a;
    assert forall m :: 0 <= m < i ==> s[m] == s[..i][m] && s[..i][m] in s[..i];
    assert i == |a|;
    assert s[..i] == a && s[i + 1..] == b;
  }

  lemma {:induction false} JoinInvertsSplit(s: string, c: char)
    ensures Join(Split(s, c), c) == s
    decreases |s|
  {
    if c in s {
      var i := Index(s, c);
      var head, tail := s[..i], s[i + 1..];
      HeadAndTail(s, i);
      JoinInvertsSplit(tail, c);
      JoinSplitStep(head, c, tail);
    }
  }

  lemma HeadAndTail(s: string, i: nat)
    requires i < |s|
    ensures s == s[..i] + [s[i]] + s[i + 1..]
  {
  }

  lemma JoinSplitStep(first: string, c: char, tail: string)
    requires c !in first
    ensures Join(Split(first + [c] + tail, c), c) == first + [c] + Join(Split(tail, c), c)
  {
    SplitFirst(first, c, tail);
    JoinCons(first, Split(tail, c), c);
  }

  /** Replaces every occurrence of one character by a string (strings.ReplaceAll on one character). */
  function ReplaceAll(s: string, c: char, sub: string): string {
    if s == "" then "" else (if s[0] == c then sub else [s[0]]) + ReplaceAll(s[1..], c, sub)
  }

  // ---- Trimming and case ----

  /** The white space of Go's unicode.IsSpace. */
  predicate IsSpace(c: char) {
    var n := c as int;
    || 9 <= n <= 13 || n == 32 || n == 0x85 || n == 0xA0 || n == 0x1680 || 0x2000 <= n <= 0x200a
    || n == 0x2028 || n == 0x2029 || n == 0x202f || n == 0x205f || n == 0x3000
  }

  function TrimLeft(s: string): string {
    if s != "" && IsSpace(s[0]) then TrimLeft(s[1..]) else s
  }

  function TrimRight(s: string): string {
    if s != "" && IsSpace(s[|s| - 1]) then TrimRight(s[..|s| - 1]) else s
  }

  function TrimSpace(s: string): string {
    TrimRight(TrimLeft(s))
  }

  /** strings.ToLower on ASCII letters. */
  function ToLower(s: string): string {
    if s == "" then ""
    else [if 'A' <= s[0] <= 'Z' then (s[0] as int + 32) as char else s[0]] + ToLower(s[1..])
  }

  // ---- Decimal numbers (fmt's %d) ----

  function DigitChar(d: nat): (c: char)
    requires d < 10
    ensures IsDigit(c) && DigitValue(c) == d
  {
    ('0' as int + d) as char
  }

  predicate IsDigit(c: char) {
    '0' <= c <= '9'
  }

  function Digits(n: nat): (s: string)
    ensures |s| >= 1 && forall c :: c in s ==> IsDigit(c)
  {
    if n < 10 then [DigitChar(n)] else Digits(n / 10) + [DigitChar(n % 10)]
  }

  function Itoa(n: int): string {
    if n < 0 then "-" + Digits(-n) else Digits(n)
  }

  function DigitValue(c: char): nat
    requires IsDigit(c)
  {
    c as int - '0' as int
  }

  function Value(s: string): nat
    requires forall c :: c in s ==> IsDigit(c)
  {
    if s == "" then 0 else 10 * Value(s[..|s| - 1]) + DigitValue(s[|s| - 1])
  }

  lemma {:induction false} ValueInvertsDigits(n: nat)
    ensures Value(Digits(n)) == n
  {
    var s := Digits(n);
    if n < 10 {
      assert s[..|s| - 1] == "";
    } else {
      ValueInvertsDigits(n / 10);
      assert s[..|s| - 1] == Digits(n / 10);
    }
  }

  /** Skips the white space fmt.Sscanf skips before a verb; a newline is an error. */
  function SkipSpace(s: string): Option<string> {
    if s == "" then Some(s)
    else if s[0] == '\n' then None
    else if IsSpace(s[0]) then SkipSpace(s[1..])
    else Some(s)
  }

  function DigitPrefix(s: string): (d: string)
    ensures d <= s && forall c :: c in d ==> IsDigit(c)
  {
    if s != "" && IsDigit(s[0]) then [s[0]] + DigitPrefix(s[1..]) else ""
  }

  /** fmt.Sscanf(s, "%d", &i) into a 64-bit int: white space, an optional sign, then digits; what follows is ignored. */
  function ScanInt(s: string): Option<int> {
    match SkipSpace(s)
    case None => None
    case Some(rest) =>
      var negative := rest != "" && rest[0] == '-';
      Numeral(negative, DigitPrefix(if rest != "" && (rest[0] == '-' || rest[0] == '+') then rest[1..] else rest))
  }

  /** The number of a sign and digits, if there are any and it fits. */
  function Numeral(negative: bool, digits: string): Option<int>
    requires forall c :: c in digits ==> IsDigit(c)
  {
    var n: int := if negative then -(Value(digits) as int) else Value(digits);
    if digits == "" || !(-0x8000_0000_0000_0000 <= n < 0x8000_0000_0000_0000) then None else Some(n)
  }

  lemma {:induction false} DigitPrefixOfDigits(s: string)
    requires forall c :: c in s ==> IsDigit(c)
    ensures DigitPrefix(s) == s
  {
    if s != "" {
      DigitPrefixOfDigits(s[1..]);
    }
  }

  lemma NoSpaceToSkip(s: string)
    requires s != "" && (IsDigit(s[0]) || s[0] == '-')
    ensures SkipSpace(s) == Some(s)
  {
  }

  /** Scanning undoes printing on every 64-bit number. */
  lemma ScanInvertsItoa(n: int)
    requires -0x8000_0000_0000_0000 <= n < 0x8000_0000_0000_0000
    ensures ScanInt(Itoa(n)) == Some(n)
  {
    var m := if n < 0 then -n else n;
    var s, digits := Itoa(n), Digits(m);
    ValueInvertsDigits(m);
    DigitPrefixOfDigits(digits);
    assert IsDigit(digits[0]);
    NoSpaceToSkip(s);
    if n < 0 {
      assert s == ['-'] + digits;
      assert s[0] == '-' && s[1..] == digits;
    } else {
      assert s == digits && s[0] != '-' && s[0] != '+';
    }
  }

  lemma ItoaInjective(m: int, n: int)
    requires Itoa(m) == Itoa(n)
    ensures m == n
  {
    ItoaSign(m);
    ItoaSign(n);
    ValueInvertsDigits(if m < 0 then -m else m);
    ValueInvertsDigits(if n < 0 then -n else n);
  }

  lemma ItoaSign(n: int)
    ensures n < 0 ==> Itoa(n)[0] == '-' && Itoa(n)[1..] == Digits(-n)
    ensures n >= 0 ==> Itoa(n)[0] != '-' && Itoa(n) == Digits(n)
  {
    if n >= 0 {
      assert IsDigit(Digits(n)[0]);
    }
  }
}
