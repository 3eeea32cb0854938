/** The parts of Go's `strings` package that the manifests asset relies on,
    over byte strings (one `char` per byte). */
module Strings {

  /** Number of occurrences of `c` in `s`. */
  function Count(c: char, s: string): nat
  {
    if s == [] then 0 else (if s[0] == c then 1 else 0) + Count(c, s[1..])
  }

  /** `strings.Repeat(" ", n)`. */
  function Spaces(n: nat): string
  {
    seq(n, _ => ' ')
  }

  predicate HasSuffix(s: string, suffix: string)
  {
    |suffix| <= |s| && s[|s| - |suffix|..] == suffix
  }

  /** `strings.TrimSuffix`: drops one trailing `suffix`, if there is one. */
  function TrimSuffix(s: string, suffix: string): string
  {
    if HasSuffix(s, suffix) then s[..|s| - |suffix|] else s
  }

  /** `strings.Replace(s, pattern, replacement, -1)` for a non-empty
      `pattern`: every non-overlapping occurrence of `pattern`, scanning left to
      right, is replaced. */
  function ReplaceAll(s: string, pattern: string, replacement: string): string
    requires pattern != []
    decreases |s|
  {
    if |s| < |pattern| then s
    else if s[..|pattern|] == pattern then replacement + ReplaceAll(s[|pattern|..], pattern, replacement)
    else [s[0]] + ReplaceAll(s[1..], pattern, replacement)
  }

  lemma TrimSuffixOnce(s: string, suffix: string)
    ensures TrimSuffix(s + suffix, suffix) == s
  {
    assert (s + suffix)[|s|..] == suffix;
    assert (s + suffix)[..|s|] == s;
  }

  lemma TrimSuffixKeeps(s: string, suffix: string)
    requires !HasSuffix(s, suffix)
    ensures TrimSuffix(s, suffix) == s
  {
  }

  lemma TrimSuffixIsPrefix(s: string, suffix: string)
    ensures var r := TrimSuffix(s, suffix); |r| <= |s| && r == s[..|r|]
  {
  }

  lemma CountPositive(c: char, s: string)
    requires c in s
    ensures Count(c, s) > 0
  {
    if s[0] != c {
      assert c in s[1..];
      CountPositive(c, s[1..]);
    }
  }
}
