/**
 * Python string operations the core relies on, stated over `seq<char>` (each char is one
 * Unicode scalar value, which is what Python's `len` and indexing count).
 */
module PyStr {

  /** `str.isspace()` for one character; the same set is `\s` in `re` and what `str.strip()` removes. */
  predicate IsSpace(c: char) {
    || c == ' '
    || '\t' <= c <= '\r'
    || '\U{1c}' <= c <= '\U{1f}'
    || c == '\U{85}' || c == '\U{a0}' || c == '\U{1680}'
    || '\U{2000}' <= c <= '\U{200a}'
    || c == '\U{2028}' || c == '\U{2029}' || c == '\U{202f}' || c == '\U{205f}' || c == '\U{3000}'
  }

  /** `\w` restricted to ASCII: letters, digits and underscore. */
  predicate IsWordChar(c: char) {
    ('a' <= c <= 'z') || ('A' <= c <= 'Z') || ('0' <= c <= '9') || c == '_'
  }

  /** The character class `[a-f0-9]`. */
  predicate IsLowerHexChar(c: char) {
    ('a' <= c <= 'f') || ('0' <= c <= '9')
  }

  predicate IsLowerHex(s: string) {
    forall i :: 0 <= i < |s| ==> IsLowerHexChar(s[i])
  }

  function LowerChar(c: char): char {
    if 'A' <= c <= 'Z' then (c as int + 32) as char else c
  }

  /**
   * `s.lower()` on ASCII letters. Every test the core makes on a lowered string compares it
   * with a word spelled without `k` ("success", the six JSON type names); the only
   * non-ASCII character Python lowers to an ASCII letter is U+212A (to `k`), so for those
   * tests ASCII lowering decides exactly what Python's decides.
   */
  function Lower(s: string): (r: string)
    ensures |r| == |s|
  {
    seq(|s|, i requires 0 <= i < |s| => LowerChar(s[i]))
  }

  /**
   * One character of a pattern compiled with `re.IGNORECASE`: the same letter in either case,
   * and the two extra equivalences Python's `re` adds in Unicode mode (long s, Kelvin sign).
   */
  predicate CharEqIgnoreCase(c: char, p: char) {
    || LowerChar(c) == LowerChar(p)
    || (LowerChar(p) == 's' && c == '\U{17f}')
    || (LowerChar(p) == 'k' && c == '\U{212a}')
  }

  /** The literal `lit` matches `s` at position `i`, ignoring case. */
  predicate MatchesAtIgnoreCase(s: string, i: nat, lit: string) {
    i + |lit| <= |s| && forall j :: 0 <= j < |lit| ==> CharEqIgnoreCase(s[i + j], lit[j])
  }

  predicate StartsWith(s: string, p: string) {
    |p| <= |s| && s[..|p|] == p
  }

  predicate EndsWith(s: string, p: string) {
    |p| <= |s| && s[|s| - |p|..] == p
  }

  /** `sub in s`. */
  predicate Contains(s: string, sub: string)
    decreases |s|
  {
    StartsWith(s, sub) || (|s| > 0 && Contains(s[1..], sub))
  }

  /** A text starts with whatever was put in front of it. */
  lemma ConcatStartsWith(a: string, b: string)
    ensures StartsWith(a + b, a)
  {
    assert (a + b)[..|a|] == a;
  }

  /** An occurrence at a known position is found by `Contains`. */
  lemma {:induction false} ContainsAt(s: string, sub: string, i: nat)
    requires i + |sub| <= |s| && s[i..i + |sub|] == sub
    ensures Contains(s, sub)
    decreases i
  {
    if i == 0 {
      assert s[..|sub|] == sub;
    } else {
      assert s[1..][i - 1..i - 1 + |sub|] == s[i..i + |sub|];
      ContainsAt(s[1..], sub, i - 1);
    }
  }

  /** Whatever is spliced into a text can be found in it. */
  lemma ContainsMiddle(a: string, sub: string, b: string)
    ensures Contains(a + sub + b, sub)
  {
    var s := a + sub + b;
    assert s[|a|..|a| + |sub|] == sub;
    ContainsAt(s, sub, |a|);
  }

  /** Dropping a known head leaves the rest. */
  lemma DropHead(a: string, b: string)
    ensures (a + b)[|a|..] == b
  {
  }

  /** Concatenation regrouped to the left, one step at a time. */
  lemma Regroup(a: string, b: string, c: string)
    ensures a + (b + c) == a + b + c
  {
  }

  /** Whatever a text ends with can be found in it. */
  lemma ContainsLast(a: string, sub: string)
    ensures Contains(a + sub, sub)
  {
    assert (a + sub)[|a|..|a| + |sub|] == sub;
    ContainsAt(a + sub, sub, |a|);
  }

  /** The end of the maximal run of characters satisfying `p` that starts at `i`. */
  function SkipWhile(s: string, i: nat, p: char -> bool): (r: nat)
    requires i <= |s|
    ensures i <= r <= |s|
    ensures forall j :: i <= j < r ==> p(s[j])
    ensures r == |s| || !p(s[r])
    decreases |s| - i
  {
    if i < |s| && p(s[i]) then SkipWhile(s, i + 1, p) else i
  }

  /** `s.rstrip(c)` for a single character `c`. */
  function RStrip(s: string, c: char): string
    decreases |s|
  {
    if |s| > 0 && s[|s| - 1] == c then RStrip(s[..|s| - 1], c) else s
  }

  /** `s.lstrip()` and `s.rstrip()` with no argument: Python whitespace. */
  function LStripSpace(s: string): string
    decreases |s|
  {
    if |s| > 0 && IsSpace(s[0]) then LStripSpace(s[1..]) else s
  }

  function RStripSpace(s: string): string
    decreases |s|
  {
    if |s| > 0 && IsSpace(s[|s| - 1]) then RStripSpace(s[..|s| - 1]) else s
  }

  /** `s.strip()`. */
  function Strip(s: string): string {
    RStripSpace(LStripSpace(s))
  }

  /** `c * n` for a one-character string. */
  function Chars(c: char, n: nat): (r: string)
    ensures |r| == n && forall i :: 0 <= i < n ==> r[i] == c
  {
    seq(n, i => c)
  }

  function Digit(d: nat): char
    requires d < 10
  {
    "0123456789"[d]
  }

  /** `str(n)` for a non-negative integer. */
  function NatToString(n: nat): string
    decreases n
  {
    if n < 10 then [Digit(n)] else NatToString(n / 10) + [Digit(n % 10)]
  }

  /** `str(i)` (and an `int` in an f-string). */
  function IntToString(i: int): string {
    if i < 0 then "-" + NatToString(-i) else NatToString(i)
  }

  /** `sep.join(parts)`. */
  function Join(parts: seq<string>, sep: string): string
    decreases |parts|
  {
    if |parts| == 0 then ""
    else if |parts| == 1 then parts[0]
    else parts[0] + sep + Join(parts[1..], sep)
  }

  /** Each joined part occurs in the joined text. */
  lemma {:induction false} JoinContains(parts: seq<string>, sep: string, i: nat)
    requires i < |parts|
    ensures Contains(Join(parts, sep), parts[i])
    decreases |parts|
  {
    if |parts| == 1 {
      ContainsMiddle("", parts[0], "");
      assert "" + parts[0] + "" == parts[0];
    } else if i == 0 {
      ContainsMiddle("", parts[0], sep + Join(parts[1..], sep));
      assert "" + parts[0] + (sep + Join(parts[1..], sep)) == Join(parts, sep);
    } else {
      JoinContains(parts[1..], sep, i - 1);
      ContainsSuffix(parts[0] + sep, Join(parts[1..], sep), parts[i]);
    }
  }

  /** An occurrence in the tail is an occurrence in the whole. */
  lemma {:induction false} ContainsSuffix(a: string, b: string, sub: string)
    requires Contains(b, sub)
    ensures Contains(a + b, sub)
    decreases |a|
  {
    if a == [] {
      assert a + b == b;
    } else {
      ContainsSuffix(a[1..], b, sub);
      assert (a + b)[1..] == a[1..] + b;
    }
  }

  /** An occurrence in the head is an occurrence in the whole. */
  lemma {:induction false} ContainsPrefix(a: string, b: string, sub: string)
    requires Contains(a, sub)
    ensures Contains(a + b, sub)
    decreases |a|
  {
    if StartsWith(a, sub) {
      assert (a + b)[..|sub|] == a[..|sub|];
    } else {
      ContainsPrefix(a[1..], b, sub);
      assert (a + b)[1..] == a[1..] + b;
    }
  }
}
