/**
 * Leftmost occurrence of a literal pattern: the meaning of C's `strstr` and `strchr`
 * over a NUL-free text, used by the file scanner and by the index.json helpers.
 */
module Search {

  /** `pat` occurs in `s` starting at position `p`. */
  predicate OccursAt<T(==)>(s: seq<T>, pat: seq<T>, p: int) {
    0 <= p && p + |pat| <= |s| && s[p..p + |pat|] == pat
  }

  /** Element by element: `pat` matches `s` from position `p` on. */
  predicate MatchAt<T(==)>(s: seq<T>, pat: seq<T>, p: nat)
    decreases |pat|
  {
    |pat| == 0 || (p < |s| && s[p] == pat[0] && MatchAt(s, pat[1..], p + 1))
  }

  /** The element-by-element match is the slice comparison. */
  lemma {:induction false} MatchAtIff<T>(s: seq<T>, pat: seq<T>, p: nat)
    requires p + |pat| <= |s|
    ensures MatchAt(s, pat, p) <==> s[p..p + |pat|] == pat
    decreases |pat|
  {
    if |pat| > 0 {
      MatchAtIff(s, pat[1..], p + 1);
      assert s[p..p + |pat|] == [s[p]] + s[p + 1..p + |pat|];
      assert pat == [pat[0]] + pat[1..];
    }
  }

  /** The first position from `from` on where `pat` occurs and ends by `to`, or -1. */
  function IndexOf<T(==)>(s: seq<T>, pat: seq<T>, from: nat, to: nat): (r: int)
    requires to <= |s|
    ensures -1 <= r
    decreases if from <= to then to - from else 0
  {
    if from + |pat| > to then -1
    else if MatchAt(s, pat, from) then from
    else IndexOf(s, pat, from + 1, to)
  }

  /**
   * IndexOf is the leftmost occurrence: a result other than -1 is an occurrence in
   * range with none before it, and -1 means there is no occurrence in range.
   */
  lemma {:induction false} IndexOfSound<T>(s: seq<T>, pat: seq<T>, from: nat, to: nat)
    requires to <= |s|
    ensures var r := IndexOf(s, pat, from, to);
      (r == -1 || (from <= r && r + |pat| <= to && OccursAt(s, pat, r))) &&
      (r >= 0 ==> forall q :: from <= q < r ==> !OccursAt(s, pat, q)) &&
      (r == -1 ==> forall q :: from <= q && q + |pat| <= to ==> !OccursAt(s, pat, q))
    decreases if from <= to then to - from else 0
  {
    if from + |pat| <= to {
      MatchAtIff(s, pat, from);
      if !MatchAt(s, pat, from) {
        IndexOfSound(s, pat, from + 1, to);
      }
    }
  }

  /** An occurrence with none before it in the range is what IndexOf reports. */
  lemma IndexOfIs<T>(s: seq<T>, pat: seq<T>, from: nat, to: nat, p: int)
    requires to <= |s|
    requires from <= p && p + |pat| <= to && OccursAt(s, pat, p)
    requires forall q :: from <= q < p ==> !OccursAt(s, pat, q)
    ensures IndexOf(s, pat, from, to) == p
  {
    IndexOfSound(s, pat, from, to);
  }

  /** No occurrence in the range means IndexOf reports -1. */
  lemma IndexOfNone<T>(s: seq<T>, pat: seq<T>, from: nat, to: nat)
    requires to <= |s|
    requires forall q :: from <= q && q + |pat| <= to ==> !OccursAt(s, pat, q)
    ensures IndexOf(s, pat, from, to) == -1
  {
    IndexOfSound(s, pat, from, to);
  }

  /** An occurrence inside a slice `s[a..b]` is an occurrence in `s`, shifted by `a`. */
  lemma OccursInSlice<T>(s: seq<T>, a: nat, b: nat, pat: seq<T>, q: int)
    requires a <= b <= |s|
    ensures a <= q && q + |pat| <= b ==> (OccursAt(s, pat, q) <==> OccursAt(s[a..b], pat, q - a))
  {
    if a <= q && q + |pat| <= b {
      var t := s[a..b];
      var u, v := t[q - a..q - a + |pat|], s[q..q + |pat|];
      assert |u| == |v|;
      forall k | 0 <= k < |pat| ensures u[k] == v[k] {
        assert u[k] == t[q - a + k];
      }
      assert u == v;
    }
  }

  /** The scanning loop behind `strstr`: tries each start position from `from` on. */
  method Find<T(==)>(s: seq<T>, pat: seq<T>, from: nat) returns (r: int)
    requires from <= |s|
    ensures r == IndexOf(s, pat, from, |s|)
  {
    var i := from;
    while i + |pat| <= |s|
      invariant from <= i
      invariant IndexOf(s, pat, from, |s|) == IndexOf(s, pat, i, |s|)
      decreases |s| - i
    {
      MatchAtIff(s, pat, i);
      if s[i..i + |pat|] == pat {
        return i;
      }
      i := i + 1;
    }
    return -1;
  }
}
