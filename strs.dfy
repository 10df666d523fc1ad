/** The few functions of Go's strings package that the core uses, on
    strings as sequences of characters. */
module Strs {

  predicate HasPrefix(s: string, prefix: string) {
    |prefix| <= |s| && s[..|prefix|] == prefix
  }

  predicate HasSuffix(s: string, suffix: string) {
    |suffix| <= |s| && s[|s| - |suffix|..] == suffix
  }

  /** strings.TrimPrefix: removes one leading copy of prefix, if present. */
  function TrimPrefix(s: string, prefix: string): (r: string)
    ensures HasPrefix(s, prefix) ==> prefix + r == s
    ensures !HasPrefix(s, prefix) ==> r == s
  {
    if HasPrefix(s, prefix) then s[|prefix|..] else s
  }

  /** strings.TrimSuffix: removes one trailing copy of suffix, if present. */
  function TrimSuffix(s: string, suffix: string): (r: string)
    ensures HasSuffix(s, suffix) ==> r + suffix == s
    ensures !HasSuffix(s, suffix) ==> r == s
  {
    if HasSuffix(s, suffix) then s[..|s| - |suffix|] else s
  }

  /** sub occurs in s starting at index i. */
  predicate OccursAt(s: string, sub: string, i: int) {
    0 <= i && i + |sub| <= |s| && s[i..i + |sub|] == sub
  }

  /** strings.Contains. */
  predicate Contains(s: string, sub: string) {
    exists i | 0 <= i <= |s| - |sub| :: OccursAt(s, sub, i)
  }

  /** strings.Join(parts, sep). */
  function JoinWith(parts: seq<string>, sep: string): string {
    if |parts| == 0 then ""
    else if |parts| == 1 then parts[0]
    else parts[0] + sep + JoinWith(parts[1..], sep)
  }

  /** JoinWith on four and five parts, written out. */
  lemma JoinFour(xs: seq<string>, sep: string)
    requires |xs| == 4
    ensures JoinWith(xs, sep) == xs[0] + sep + xs[1] + sep + xs[2] + sep + xs[3]
  {
    assert xs[1..][1..] == xs[2..] && xs[2..][1..] == xs[3..];
    assert JoinWith(xs[3..], sep) == xs[3];
    assert JoinWith(xs[2..], sep) == xs[2] + sep + xs[3];
    assert JoinWith(xs[1..], sep) == xs[1] + sep + (xs[2] + sep + xs[3]);
  }

  lemma JoinFive(xs: seq<string>, sep: string)
    requires |xs| == 5
    ensures JoinWith(xs, sep) == xs[0] + sep + xs[1] + sep + xs[2] + sep + xs[3] + sep + xs[4]
  {
    assert xs[1..][1..] == xs[2..] && xs[2..][1..] == xs[3..] && xs[3..][1..] == xs[4..];
    assert JoinWith(xs[4..], sep) == xs[4];
    assert JoinWith(xs[3..], sep) == xs[3] + sep + xs[4];
    assert JoinWith(xs[2..], sep) == xs[2] + sep + (xs[3] + sep + xs[4]);
    assert JoinWith(xs[1..], sep) == xs[1] + sep + (xs[2] + sep + (xs[3] + sep + xs[4]));
  }

  lemma PrefixOccurs(s: string, prefix: string)
    requires HasPrefix(s, prefix)
    ensures Contains(s, prefix)
  {
    assert OccursAt(s, prefix, 0);
  }

  lemma OccursInExtension(s: string, sub: string, i: int, before: string, after: string)
    requires OccursAt(s, sub, i)
    ensures OccursAt(before + s + after, sub, |before| + i)
    ensures Contains(before + s + after, sub)
  {
    var t := before + s + after;
    assert t[|before| + i..|before| + i + |sub|] == s[i..i + |sub|];
    assert OccursAt(t, sub, |before| + i);
  }

  function ToLowerChar(c: char): char {
    if 'A' <= c <= 'Z' then (c as int + 32) as char else c
  }

  function ToUpperChar(c: char): char {
    if 'a' <= c <= 'z' then (c as int - 32) as char else c
  }

  // ---------------------------------------------------------------------
  // Decimal numbers, as fmt's %d writes them

  predicate IsDigit(c: char) {
    '0' <= c <= '9'
  }

  function DigitChar(d: nat): (c: char)
    requires d < 10
    ensures IsDigit(c) && c as int - '0' as int == d
  {
    ('0' as int + d) as char
  }

  /** The decimal digits of a natural number, most significant first, with
      no leading zero. */
  function NatText(n: nat): (r: string)
    ensures |r| > 0 && forall i :: 0 <= i < |r| ==> IsDigit(r[i])
    ensures |r| > 1 ==> r[0] != '0'
  {
    if n < 10 then [DigitChar(n)] else NatText(n / 10) + [DigitChar(n % 10)]
  }

  /** %d: a minus sign for negative numbers, then the digits. */
  function Itoa(n: int): string {
    if n < 0 then "-" + NatText(-n) else NatText(n)
  }

  /** The number a string of digits denotes. */
  function DigitsValue(s: string): nat
    requires forall i :: 0 <= i < |s| ==> IsDigit(s[i])
  {
    if s == [] then 0
    else
      assert IsDigit(s[|s| - 1]);
      DigitsValue(s[..|s| - 1]) * 10 + (s[|s| - 1] as int - '0' as int)
  }

  /** Reading the digits back gives the number. */
  lemma {:induction false} NatTextValue(n: nat)
    ensures DigitsValue(NatText(n)) == n
  {
    var r := NatText(n);
    if n >= 10 {
      NatTextValue(n / 10);
      assert r[..|r| - 1] == NatText(n / 10);
    }
  }

  /** Different numbers are written differently. */
  lemma ItoaInjective(m: int, n: int)
    requires Itoa(m) == Itoa(n)
    ensures m == n
  {
    if m < 0 && n < 0 {
      assert NatText(-m) == Itoa(m)[1..] == NatText(-n);
      NatTextValue(-m);
      NatTextValue(-n);
    } else if m >= 0 && n >= 0 {
      NatTextValue(m);
      NatTextValue(n);
    }
  }
}
