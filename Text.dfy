/** String helpers: ordinal case-insensitive comparison and substring search. */
module Text {

  /** Upper-cases an ASCII letter and leaves every other character alone. */
  function UpperChar(c: char): (u: char)
    ensures 'a' <= c <= 'z' ==> 'A' <= u <= 'Z' && u as int == c as int - 32
    ensures !('a' <= c <= 'z') ==> u == c
  {
    if 'a' <= c <= 'z' then (c as int - 32) as char else c
  }

  /** Upper-cases every character of `s`. */
  function Upper(s: string): (r: string)
    ensures |r| == |s|
    ensures forall i :: 0 <= i < |s| ==> r[i] == UpperChar(s[i])
  {
    seq(|s|, i requires 0 <= i < |s| => UpperChar(s[i]))
  }

  /** `StringComparison.OrdinalIgnoreCase` equality, restricted to ASCII case folding. */
  predicate EqualsIgnoreCase(a: string, b: string) {
    Upper(a) == Upper(b)
  }

  /** True iff `pattern` occurs in `s` starting at index `at`. */
  predicate OccursAt(s: string, pattern: string, at: nat) {
    at + |pattern| <= |s| && s[at..at + |pattern|] == pattern
  }

  /** `String.Contains`: `pattern` occurs somewhere in `s`. */
  ghost predicate Contains(s: string, pattern: string) {
    exists at: nat :: OccursAt(s, pattern, at)
  }

  /** Case-insensitive equality is an equivalence relation, so a case-insensitive lookup
      among names that are pairwise different ignoring case finds at most one name. */
  lemma EqualsIgnoreCaseIsEquivalence(a: string, b: string, c: string)
    ensures EqualsIgnoreCase(a, a)
    ensures EqualsIgnoreCase(a, b) ==> EqualsIgnoreCase(b, a)
    ensures EqualsIgnoreCase(a, b) && EqualsIgnoreCase(b, c) ==> EqualsIgnoreCase(a, c)
  {
  }

  /** An occurrence inside a prefix is an occurrence in the whole string. */
  lemma {:induction false} ContainsInPrefix(s: string, t: string, pattern: string)
    requires Contains(s, pattern)
    ensures Contains(s + t, pattern)
  {
    var at: nat :| OccursAt(s, pattern, at);
    assert (s + t)[at..at + |pattern|] == s[at..at + |pattern|];
    assert OccursAt(s + t, pattern, at);
  }

  /** An occurrence inside a suffix is an occurrence in the whole string. */
  lemma {:induction false} ContainsInSuffix(s: string, t: string, pattern: string)
    requires Contains(t, pattern)
    ensures Contains(s + t, pattern)
  {
    var at: nat :| OccursAt(t, pattern, at);
    assert (s + t)[|s| + at..|s| + at + |pattern|] == t[at..at + |pattern|];
    assert OccursAt(s + t, pattern, |s| + at);
  }

  /** `String.Concat`: the parts joined left to right. */
  function Concat(parts: seq<string>): string
  {
    if |parts| == 0 then "" else Concat(parts[..|parts| - 1]) + parts[|parts| - 1]
  }

  /** An occurrence inside one part is an occurrence in the joined string. */
  lemma {:induction false} ContainsPart(parts: seq<string>, i: nat, pattern: string)
    requires i < |parts| && Contains(parts[i], pattern)
    ensures Contains(Concat(parts), pattern)
  {
    var n := |parts| - 1;
    if i == n {
      ContainsInSuffix(Concat(parts[..n]), parts[n], pattern);
    } else {
      assert parts[..n][i] == parts[i];
      ContainsPart(parts[..n], i, pattern);
      ContainsInPrefix(Concat(parts[..n]), parts[n], pattern);
    }
  }

  /** Two strings with the same surroundings are equal when the whole strings are. */
  lemma MiddleDetermined(prefix: string, x: string, y: string, sep: string, suffix: string)
    requires prefix + x + sep + suffix == prefix + y + sep + suffix
    ensures x == y
  {
    var s := prefix + x + sep + suffix;
    assert |x| == |y|;
    assert x == s[|prefix|..|prefix| + |x|];
    assert y == (prefix + y + sep + suffix)[|prefix|..|prefix| + |y|];
  }
}
