/** The three JavaScript string operations the core relies on:
    `indexOf` of one character, `split(sep)[1]` and `replace(pattern, replacement)`
    (which replaces the first occurrence only). */
module Strings {
  import opened Common

  /** `s.indexOf(c)`, with None for -1. */
  function IndexOf(s: string, c: char): (r: Option<nat>)
    ensures r.None? <==> c !in s
    ensures r.Some? ==> r.value < |s| && s[r.value] == c && c !in s[..r.value]
  {
    if |s| == 0 then None
    else if s[0] == c then Some(0)
    else
      match IndexOf(s[1..], c)
      case None => None
      case Some(i) =>
        assert s[..i + 1] == [s[0]] + s[1..][..i];
        Some(i + 1)
  }

  /** The first separator of `a + [c] + b` is the one after `a` when `a` holds none. */
  lemma IndexOfAfterPrefix(a: string, c: char, b: string)
    requires c !in a
    ensures IndexOf(a + [c] + b, c) == Some(|a|)
  {
    assert (a + [c] + b)[|a|] == c;
  }

  /** The text before and after the first `c` in `s`, if there is one. */
  function SplitFirst(s: string, c: char): (r: Option<(string, string)>)
    ensures r.None? <==> c !in s
    ensures r.Some? ==> c !in r.value.0 && s == r.value.0 + [c] + r.value.1
  {
    match IndexOf(s, c)
    case None => None
    case Some(i) =>
      assert s == s[..i] + [c] + s[i + 1..];
      Some((s[..i], s[i + 1..]))
  }

  lemma SplitFirstConcat(a: string, c: char, b: string)
    requires c !in a
    ensures SplitFirst(a + [c] + b, c) == Some((a, b))
  {
    IndexOfAfterPrefix(a, c, b);
    assert (a + [c] + b)[..|a|] == a;
    assert (a + [c] + b)[|a| + 1..] == b;
  }

  /** `s.split(sep)[1]`: None when `s` has no separator (the element is undefined),
      otherwise the text between the first separator and the next one (or the end). */
  function SplitSecond(s: string, sep: char): (r: Option<string>)
    ensures r.None? <==> sep !in s
    ensures r.Some? ==>
              var i := IndexOf(s, sep).value;
              && sep !in r.value
              && r.value <= s[i + 1..]
              && (i + 1 + |r.value| == |s| || s[i + 1 + |r.value|] == sep)
  {
    match IndexOf(s, sep)
    case None => None
    case Some(i) =>
      var rest := s[i + 1..];
      match IndexOf(rest, sep)
      case None => Some(rest)
      case Some(j) => Some(rest[..j])
  }

  /** `pat` occurs in `s` at position `k`. */
  predicate MatchesAt(s: string, pat: string, k: nat) {
    k + |pat| <= |s| && s[k..k + |pat|] == pat
  }

  /** The position of the first occurrence of `pat` in `s`, as `s.indexOf(pat)`. */
  function Find(s: string, pat: string): (r: Option<nat>)
    ensures r.Some? ==> MatchesAt(s, pat, r.value)
    ensures r.Some? ==> forall k: nat :: k < r.value ==> !MatchesAt(s, pat, k)
    ensures r.None? ==> forall k: nat :: !MatchesAt(s, pat, k)
    decreases |s|
  {
    if |s| < |pat| then None
    else if s[..|pat|] == pat then Some(0)
    else
      match Find(s[1..], pat)
      case None =>
        assert forall k: nat :: k > 0 && MatchesAt(s, pat, k) ==> MatchesAt(s[1..], pat, k - 1);
        None
      case Some(i) =>
        assert s[i + 1..i + 1 + |pat|] == s[1..][i..i + |pat|];
        assert forall k: nat :: 0 < k < i + 1 && MatchesAt(s, pat, k) ==> MatchesAt(s[1..], pat, k - 1);
        Some(i + 1)
  }

  /** `s.replace(pat, rep)` with a string pattern: the first occurrence only, if any. */
  function ReplaceFirst(s: string, pat: string, rep: string): (r: string)
  {
    match Find(s, pat)
    case None => s
    case Some(k) => s[..k] + rep + s[k + |pat|..]
  }

  /** Replacing inside a string without `c`, using a replacement without `c`, yields no `c`. */
  lemma ReplaceFirstAvoids(s: string, pat: string, rep: string, c: char)
    requires c !in s && c !in rep
    ensures c !in ReplaceFirst(s, pat, rep)
  {
    match Find(s, pat)
    case None =>
    case Some(k) =>
      var r := s[..k] + rep + s[k + |pat|..];
      forall i | 0 <= i < |r| ensures r[i] != c {
        if i < k {
          assert r[i] == s[i];
        } else if i < k + |rep| {
          assert r[i] == rep[i - k];
        } else {
          assert r[i] == s[i - k - |rep| + k + |pat|];
        }
      }
  }
}
