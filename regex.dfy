/** The regular expressions the program compiles are literal alternations:
    a literal, a literal prefix followed by a group "(a|b|...)", or ".*".
    regexp.MatchString is unanchored: it succeeds when a match starts
    anywhere in the text. Inside a literal '.' stands for any character
    except a newline, as in Go's RE2 syntax. */
module Regex {
  import opened Strs

  datatype Pattern =
    | MatchAll
    | Literal(text: string)
    | Group(prefix: string, alternatives: seq<string>)

  /** The pattern's source text, as passed to regexp.MustCompile. */
  function Source(p: Pattern): string {
    match p
    case MatchAll => ".*"
    case Literal(t) => t
    case Group(prefix, alts) => prefix + "(" + JoinWith(alts, "|") + ")"
  }

  predicate CharMatches(pc: char, c: char) {
    if pc == '.' then c != '\n' else pc == c
  }

  /** The literal lit matches s at index i. */
  predicate LiteralAt(s: string, lit: string, i: int) {
    0 <= i && i + |lit| <= |s| && forall k :: 0 <= k < |lit| ==> CharMatches(lit[k], s[i + k])
  }

  /** The literal lit matches somewhere in s. */
  predicate FindsLiteral(s: string, lit: string) {
    exists i | 0 <= i <= |s| - |lit| :: LiteralAt(s, lit, i)
  }

  /** regexp.MatchString for the pattern. ".*" matches every string: it
      may match the empty string at the very start. */
  predicate Matches(p: Pattern, s: string) {
    match p
    case MatchAll => true
    case Literal(t) => FindsLiteral(s, t)
    case Group(prefix, alts) => exists a | a in alts :: FindsLiteral(s, prefix + a)
  }

  /** A literal without '.' matches exactly where it occurs as a substring. */
  lemma DotFreeLiteral(s: string, lit: string)
    requires '.' !in lit
    ensures FindsLiteral(s, lit) <==> Contains(s, lit)
  {
    forall i | 0 <= i <= |s| - |lit|
      ensures LiteralAt(s, lit, i) <==> OccursAt(s, lit, i)
    {
      if LiteralAt(s, lit, i) {
        assert forall k :: 0 <= k < |lit| ==> s[i..i + |lit|][k] == lit[k];
      }
      if OccursAt(s, lit, i) {
        forall k | 0 <= k < |lit| ensures CharMatches(lit[k], s[i + k]) {
          assert s[i..i + |lit|][k] == s[i + k];
        }
      }
    }
  }

  /** With dot-free alternatives, a group pattern matches exactly the
      strings that contain one of prefix+alternative. */
  lemma DotFreeGroup(prefix: string, alts: seq<string>, s: string)
    requires '.' !in prefix
    requires forall a :: a in alts ==> '.' !in a
    ensures Matches(Group(prefix, alts), s) <==> exists a | a in alts :: Contains(s, prefix + a)
  {
    forall a | a in alts
      ensures FindsLiteral(s, prefix + a) <==> Contains(s, prefix + a)
    {
      DotFreeLiteral(s, prefix + a);
    }
  }
}
