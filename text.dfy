/**
 * The two string operations of Go's `strings` package the core relies on:
 * `HasPrefix` and `Index`. Strings are sequences of characters; Go counts
 * bytes, which makes no difference to any property stated here.
 */
module Text {

  /** `strings.HasPrefix(s, p)`. */
  predicate HasPrefix(s: string, p: string)
  {
    |p| <= |s| && s[..|p|] == p
  }

  /** `sub` occurs in `s` starting at position `i`. */
  predicate OccursAt(s: string, sub: string, i: int)
  {
    0 <= i && i + |sub| <= |s| && s[i..i + |sub|] == sub
  }

  /** `strings.Index(s, sub)`: the first position where `sub` occurs, or -1. */
  function Index(s: string, sub: string): (r: int)
    ensures r == -1 || OccursAt(s, sub, r)
    ensures r == -1 ==> forall j :: 0 <= j <= |s| - |sub| ==> !OccursAt(s, sub, j)
    ensures r != -1 ==> forall j :: 0 <= j < r ==> !OccursAt(s, sub, j)
    decreases |s|
  {
    if |sub| > |s| then -1
    else if s[..|sub|] == sub then 0
    else
      var r := Index(s[1..], sub);
      ShiftOccurrence(s, sub);
      assert !OccursAt(s, sub, 0);
      if r == -1 then -1 else r + 1
  }

  /** An occurrence in `s` at `j >= 1` is an occurrence in `s[1..]` at `j - 1`. */
  lemma ShiftOccurrence(s: string, sub: string)
    requires |s| > 0
    ensures forall j :: 1 <= j ==> (OccursAt(s, sub, j) <==> OccursAt(s[1..], sub, j - 1))
  {
    forall j | 1 <= j
      ensures OccursAt(s, sub, j) <==> OccursAt(s[1..], sub, j - 1)
    {
      if j + |sub| <= |s| {
        assert s[1..][j - 1..j - 1 + |sub|] == s[j..j + |sub|];
      }
    }
  }

  /** Every string starts with itself followed by anything. */
  lemma PrefixOfConcat(p: string, k: string)
    ensures HasPrefix(p + k, p)
  {
    assert (p + k)[..|p|] == p;
  }

  /** Two prefixes of one string are comparable: the shorter is a prefix of the longer. */
  lemma PrefixesComparable(s: string, a: string, b: string)
    requires HasPrefix(s, a) && HasPrefix(s, b) && |a| <= |b|
    ensures HasPrefix(b, a)
  {
    assert b[..|a|] == s[..|b|][..|a|] == s[..|a|];
  }

  /** Starting with a string that starts with `p` means starting with `p`. */
  lemma PrefixTransitive(s: string, q: string, p: string)
    requires HasPrefix(s, q) && HasPrefix(q, p)
    ensures HasPrefix(s, p)
  {
    assert s[..|p|] == s[..|q|][..|p|];
  }
}
