/** Python string operations the core relies on, over `seq<char>`.
    Case mapping covers ASCII letters only; whitespace is Python's `str.isspace` set. */
module Text {

  /** The characters Python's `str.strip()` removes. */
  predicate IsSpace(c: char) {
    c == ' ' || ('\t' <= c <= '\r') || ('\U{1C}' <= c <= '\U{1F}') || c == '\U{85}' || c == '\U{A0}'
    || c == '\U{1680}' || ('\U{2000}' <= c <= '\U{200A}') || c == '\U{2028}' || c == '\U{2029}'
    || c == '\U{202F}' || c == '\U{205F}' || c == '\U{3000}'
  }

  /** `s.lstrip()` */
  function LStrip(s: string): (r: string)
    ensures |r| <= |s| && r == s[|s| - |r|..]
    ensures r == [] || !IsSpace(r[0])
    ensures forall i :: 0 <= i < |s| - |r| ==> IsSpace(s[i])
  {
    if s != [] && IsSpace(s[0]) then LStrip(s[1..]) else s
  }

  /** `s.rstrip()` */
  function RStrip(s: string): (r: string)
    ensures |r| <= |s| && r == s[..|r|]
    ensures r == [] || !IsSpace(r[|r| - 1])
    ensures forall i :: |r| <= i < |s| ==> IsSpace(s[i])
  {
    if s != [] && IsSpace(s[|s| - 1]) then RStrip(s[..|s| - 1]) else s
  }

  /** `s.strip()` */
  function Strip(s: string): (r: string)
    ensures |r| <= |s|
    ensures r == [] || (!IsSpace(r[0]) && !IsSpace(r[|r| - 1]))
  {
    RStrip(LStrip(s))
  }

  /** `s.strip(c)` for a single character `c`. */
  function StripChar(s: string, c: char): (r: string)
    ensures |r| <= |s|
    ensures r == [] || (r[0] != c && r[|r| - 1] != c)
  {
    if s != [] && s[0] == c then StripChar(s[1..], c)
    else if s != [] && s[|s| - 1] == c then StripChar(s[..|s| - 1], c)
    else s
  }

  /** The number of leading characters equal to `c`: `len(s) - len(s.lstrip(c))`. */
  function LeadingCount(s: string, c: char): (n: nat)
    ensures n <= |s|
    ensures forall i :: 0 <= i < n ==> s[i] == c
    ensures n == |s| || s[n] != c
  {
    if s != [] && s[0] == c then 1 + LeadingCount(s[1..], c) else 0
  }

  function LowerChar(c: char): char {
    if 'A' <= c <= 'Z' then (c as int + 32) as char else c
  }

  function UpperChar(c: char): char {
    if 'a' <= c <= 'z' then (c as int - 32) as char else c
  }

  /** `s.lower()` (ASCII letters). */
  function Lower(s: string): (r: string)
    ensures |r| == |s| && forall i :: 0 <= i < |s| ==> r[i] == LowerChar(s[i])
  {
    if s == [] then [] else [LowerChar(s[0])] + Lower(s[1..])
  }

  /** `s.upper()` (ASCII letters). */
  function Upper(s: string): (r: string)
    ensures |r| == |s| && forall i :: 0 <= i < |s| ==> r[i] == UpperChar(s[i])
  {
    if s == [] then [] else [UpperChar(s[0])] + Upper(s[1..])
  }

  predicate IsAlpha(c: char) {
    'a' <= c <= 'z' || 'A' <= c <= 'Z'
  }

  /** `s.title()` (ASCII letters): a letter is upper-cased after a non-letter, lower-cased after a letter. */
  function Title(s: string): (r: string)
    ensures |r| == |s|
  {
    TitleFrom(s, false)
  }

  function TitleFrom(s: string, afterLetter: bool): (r: string)
    ensures |r| == |s|
    ensures forall i :: 0 <= i < |s| && !IsAlpha(s[i]) ==> r[i] == s[i]
  {
    if s == [] then []
    else
      var c := if !IsAlpha(s[0]) then s[0] else if afterLetter then LowerChar(s[0]) else UpperChar(s[0]);
      [c] + TitleFrom(s[1..], IsAlpha(s[0]))
  }

  predicate StartsWith(s: string, p: string) {
    |p| <= |s| && s[..|p|] == p
  }

  predicate EndsWith(s: string, p: string) {
    |p| <= |s| && s[|s| - |p|..] == p
  }

  predicate OccursAt(s: string, sub: string, i: int) {
    0 <= i && i + |sub| <= |s| && s[i..i + |sub|] == sub
  }

  /** `s.find(sub, from)`: the first index at or after `from` where `sub` occurs, or -1. */
  function FindFrom(s: string, sub: string, from: nat): (r: int)
    requires from <= |s|
    ensures r == -1 || from <= r
    ensures r != -1 ==> OccursAt(s, sub, r)
    ensures forall j :: from <= j && (r == -1 || j < r) ==> !OccursAt(s, sub, j)
    decreases |s| - from
  {
    if OccursAt(s, sub, from) then from
    else if from == |s| then -1
    else FindFrom(s, sub, from + 1)
  }

  /** `s.find(sub)` */
  function Find(s: string, sub: string): (r: int)
    ensures r == -1 || OccursAt(s, sub, r)
    ensures forall j :: 0 <= j && (r == -1 || j < r) ==> !OccursAt(s, sub, j)
  {
    FindFrom(s, sub, 0)
  }

  /** `sub in s` */
  predicate Contains(s: string, sub: string) {
    Find(s, sub) != -1
  }

  lemma ContainsIff(s: string, sub: string)
    ensures Contains(s, sub) <==> exists i :: OccursAt(s, sub, i)
  {
    if !Contains(s, sub) {
      forall i ensures !OccursAt(s, sub, i) {
        if 0 <= i { assert Find(s, sub) == -1; }
      }
    }
  }

  /** Concatenation is associative. */
  lemma ConcatAssoc<T>(p: seq<T>, q: seq<T>, r: seq<T>)
    ensures (p + q) + r == p + (q + r)
  {
  }

  /** `s.index(c)` for a character that occurs. */
  function IndexOf(s: string, c: char): (i: nat)
    requires c in s
    ensures i < |s| && s[i] == c && c !in s[..i]
  {
    if s[0] == c then 0 else 1 + IndexOf(s[1..], c)
  }

  function Join(sep: string, xs: seq<string>): string {
    if xs == [] then []
    else if |xs| == 1 then xs[0]
    else xs[0] + sep + Join(sep, xs[1..])
  }

  /** `s.split(c)` for a one-character separator. */
  function SplitOn(s: string, c: char): (r: seq<string>)
    ensures |r| >= 1
    ensures forall i :: 0 <= i < |r| ==> c !in r[i]
  {
    if c !in s then [s]
    else
      var k := IndexOf(s, c);
      [s[..k]] + SplitOn(s[k + 1..], c)
  }

  /** Joining the pieces of a split with the separator gives back the original text. */
  lemma {:induction false} SplitJoin(s: string, c: char)
    ensures Join([c], SplitOn(s, c)) == s
  {
    if c in s {
      var k := IndexOf(s, c);
      var rest := SplitOn(s[k + 1..], c);
      SplitJoin(s[k + 1..], c);
      var r := [s[..k]] + rest;
      assert SplitOn(s, c) == r;
      assert r[1..] == rest;
      assert Join([c], r) == s[..k] + [c] + Join([c], rest);
      assert s == s[..k] + [c] + s[k + 1..];
    }
  }

  function DigitChar(d: nat): char
    requires d < 10
  {
    ('0' as int + d) as char
  }

  function NatToString(n: nat): (r: string)
    ensures |r| >= 1
    ensures forall i :: 0 <= i < |r| ==> '0' <= r[i] <= '9'
  {
    if n < 10 then [DigitChar(n)] else NatToString(n / 10) + [DigitChar(n % 10)]
  }

  /** `str(i)` for a Python int. */
  function IntToString(i: int): string {
    if i < 0 then "-" + NatToString(-i) else NatToString(i)
  }

  /** Python's `a <= b` on strings: lexicographic by code point. */
  predicate LexLe(a: string, b: string) {
    a == [] || (b != [] && (a[0] < b[0] || (a[0] == b[0] && LexLe(a[1..], b[1..]))))
  }

  lemma {:induction false} LexLeTotal(a: string, b: string)
    ensures LexLe(a, b) || LexLe(b, a)
  {
    if a != [] && b != [] && a[0] == b[0] {
      LexLeTotal(a[1..], b[1..]);
    }
  }

  lemma {:induction false} LexLeTransitive(a: string, b: string, c: string)
    requires LexLe(a, b) && LexLe(b, c)
    ensures LexLe(a, c)
  {
    if a != [] && b != [] && c != [] && a[0] == b[0] && b[0] == c[0] {
      LexLeTransitive(a[1..], b[1..], c[1..]);
    }
  }

  lemma {:induction false} LexLeAntisymmetric(a: string, b: string)
    requires LexLe(a, b) && LexLe(b, a)
    ensures a == b
  {
    if a != [] && b != [] {
      LexLeAntisymmetric(a[1..], b[1..]);
    }
  }
}
