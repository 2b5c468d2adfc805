/** The two std::string services the firmware relies on: `find` (substring
    search, used to pick a field's decoding) and the ordering `std::map`
    keeps its keys in (lexicographic by character code). */
module Strings {
  import opened Common

  /** `pat` occurs in `s` starting at index `i`. */
  predicate MatchesAt(s: string, pat: string, i: nat)
  {
    i + |pat| <= |s| && forall j :: 0 <= j < |pat| ==> s[i + j] == pat[j]
  }

  /** `s.find(pat, start)`: the first index at or after `start` where `pat`
      occurs, or None for `std::string::npos`. */
  function FindFrom(s: string, pat: string, start: nat): (r: Option<nat>)
    decreases |s| - start
    ensures r.Some? ==> start <= r.value && MatchesAt(s, pat, r.value)
    ensures r.Some? ==> forall j :: start <= j < r.value ==> !MatchesAt(s, pat, j)
    ensures r.None? ==> forall j :: start <= j ==> !MatchesAt(s, pat, j)
  {
    if start + |pat| > |s| then None
    else if s[start..start + |pat|] == pat then Some(start)
    else FindFrom(s, pat, start + 1)
  }

  /** `s.find(pat)`. */
  function Find(s: string, pat: string): Option<nat>
  {
    FindFrom(s, pat, 0)
  }

  /** `pat` occurs somewhere in `s`. */
  predicate Contains(s: string, pat: string)
  {
    exists i: nat | i <= |s| :: MatchesAt(s, pat, i)
  }

  /** `s.find(pat) != std::string::npos` exactly when `pat` occurs in `s`,
      and a hit is the first occurrence. */
  lemma FindIffContains(s: string, pat: string)
    ensures Find(s, pat).Some? <==> Contains(s, pat)
    ensures Find(s, pat).Some? ==> forall j :: MatchesAt(s, pat, j) ==> Find(s, pat).value <= j
  {
    if Find(s, pat).Some? {
      assert MatchesAt(s, pat, Find(s, pat).value);
    }
  }

  /** An occurrence at a known index. */
  lemma OccursAt(s: string, pat: string, i: nat)
    requires MatchesAt(s, pat, i)
    ensures Contains(s, pat)
  {
  }

  /** A string lacking one of the pattern's characters does not contain it. */
  lemma LacksChar(s: string, pat: string, k: nat)
    requires k < |pat| && pat[k] !in s
    ensures !Contains(s, pat)
  {
    forall i: nat | i <= |s|
      ensures !MatchesAt(s, pat, i)
    {
    }
  }

  /** `k` is where `a` first comes before `b`: the two agree on their
      first `k` characters, and then either `a` ends and `b` goes on, or both
      go on and `a`'s character has the smaller code. */
  predicate FirstDifferenceAt(a: string, b: string, k: nat)
  {
    k <= |a| && k <= |b| && (forall j :: 0 <= j < k ==> a[j] == b[j]) &&
    if k == |a| then k < |b| else k < |b| && a[k] < b[k]
  }

  /** `a < b` for std::string: lexicographic on character codes, a proper
      prefix coming first. */
  predicate LexLess(a: string, b: string)
  {
    exists k: nat | k <= |a| :: FirstDifferenceAt(a, b, k)
  }

  /** The order is strict: no string precedes itself. */
  lemma LexLessIrreflexive(a: string)
    ensures !LexLess(a, a)
  {
  }

  /** The order is transitive. */
  lemma LexLessTransitive(a: string, b: string, c: string)
    requires LexLess(a, b) && LexLess(b, c)
    ensures LexLess(a, c)
  {
    var i: nat :| FirstDifferenceAt(a, b, i);
    var j: nat :| FirstDifferenceAt(b, c, j);
    assert FirstDifferenceAt(a, b, i) && FirstDifferenceAt(b, c, j);
    var k := if i <= j then i else j;
    assert FirstDifferenceAt(a, c, k);
  }

  /** Every string of `s` precedes the next one. */
  predicate Ascending(s: seq<string>)
  {
    forall i :: 0 <= i < |s| - 1 ==> LexLess(s[i], s[i + 1])
  }

  /** In an ascending sequence every string precedes every later one, so in
      particular no string occurs twice. */
  lemma {:induction false} AscendingPairwise(s: seq<string>, i: nat, j: nat)
    requires Ascending(s) && i < j < |s|
    ensures LexLess(s[i], s[j])
    ensures s[i] != s[j]
    decreases j - i
  {
    if i + 1 < j {
      AscendingPairwise(s, i + 1, j);
      LexLessTransitive(s[i], s[i + 1], s[j]);
    }
    LexLessIrreflexive(s[i]);
  }

  /** A sequence without repetitions has as many distinct elements as entries. */
  lemma {:induction false} DistinctCard<T>(s: seq<T>)
    requires forall i, j :: 0 <= i < j < |s| ==> s[i] != s[j]
    ensures |set x | x in s| == |s|
  {
    if |s| > 0 {
      DistinctCard(s[1..]);
      assert (set x | x in s) == (set x | x in s[1..]) + {s[0]};
      assert s[0] !in s[1..];
    }
  }
}
