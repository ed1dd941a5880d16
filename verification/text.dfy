/**
 * The string operations the schedule classifier relies on: ASCII lower-casing
 * (the part of Python's `str.lower` the model keeps) and substring membership
 * (Python's `p in s`), with a positional reference definition of the latter.
 */
module Text {

  function LowerChar(c: char): char {
    if 'A' <= c <= 'Z' then (c as int - 'A' as int + 'a' as int) as char else c
  }

  /** ASCII lower-casing: no capital letter survives, every other character is kept, and only case changes. */
  function Lower(s: string): (r: string)
    ensures |r| == |s|
    ensures forall i :: 0 <= i < |r| ==> !('A' <= r[i] <= 'Z')
    ensures forall i :: 0 <= i < |s| && !('A' <= s[i] <= 'Z') ==> r[i] == s[i]
    ensures SameUpToCase(s, r)
  {
    seq(|s|, i requires 0 <= i < |s| => LowerChar(s[i]))
  }

  /** Two strings that differ only in the case of their ASCII letters. */
  predicate SameUpToCase(s: string, t: string) {
    |s| == |t| && forall i :: 0 <= i < |s| ==> LowerChar(s[i]) == LowerChar(t[i])
  }

  lemma LowerSameUpToCase(s: string, t: string)
    requires SameUpToCase(s, t)
    ensures Lower(s) == Lower(t)
  {
    assert forall i :: 0 <= i < |s| ==> Lower(s)[i] == Lower(t)[i];
  }

  /** Python's `p in s`: `p` is a contiguous block of `s`; the empty string is in every string. */
  function Contains(s: string, p: string): (c: bool)
    ensures |p| == 0 ==> c
    ensures c ==> |p| <= |s|
    ensures |p| == |s| ==> (c <==> s == p)
    decreases |s|
  {
    |p| <= |s| && (s[..|p|] == p || (|s| > 0 && Contains(s[1..], p)))
  }

  /** Reference definition: `p` occurs in `s` starting at position `i`. */
  ghost predicate OccursAt(s: string, p: string, i: int) {
    0 <= i && i + |p| <= |s| && s[i..i + |p|] == p
  }

  /** Any occurrence makes `Contains` true. */
  lemma {:induction false} OccursAtContains(s: string, p: string, i: int)
    requires OccursAt(s, p, i)
    ensures Contains(s, p)
    decreases |s|
  {
    if i > 0 {
      assert s[1..][i - 1..i - 1 + |p|] == s[i..i + |p|];
      OccursAtContains(s[1..], p, i - 1);
    }
  }

  /** `Contains` is true only with an occurrence, which this returns. */
  lemma {:induction false} ContainsOccurs(s: string, p: string) returns (i: int)
    requires Contains(s, p)
    ensures OccursAt(s, p, i)
    decreases |s|
  {
    if s[..|p|] == p {
      i := 0;
    } else {
      var j := ContainsOccurs(s[1..], p);
      assert s[1..][j..j + |p|] == s[j + 1..j + 1 + |p|];
      i := j + 1;
    }
  }

  lemma ContainsIff(s: string, p: string)
    ensures Contains(s, p) <==> exists i :: OccursAt(s, p, i)
  {
    if Contains(s, p) {
      var i := ContainsOccurs(s, p);
    }
    if exists i :: OccursAt(s, p, i) {
      var i :| OccursAt(s, p, i);
      OccursAtContains(s, p, i);
    }
  }

  /** A block of a block of `s` is a block of `s`. */
  lemma ContainsTransitive(s: string, q: string, p: string)
    requires Contains(s, q) && Contains(q, p)
    ensures Contains(s, p)
  {
    var i := ContainsOccurs(s, q);
    var j := ContainsOccurs(q, p);
    var block := s[i + j..i + j + |p|];
    assert forall m :: 0 <= m < |p| ==> block[m] == q[j + m];
    assert block == q[j..j + |p|];
    OccursAtContains(s, p, i + j);
  }

  /**
   * `p` is not in `s` when its `k`-th character is absent from every position
   * of `s` where that character of an occurrence would have to sit.
   */
  lemma {:induction false} NotContains(s: string, p: string, k: int)
    requires 0 <= k < |p|
    requires forall j :: k <= j && j - k + |p| <= |s| ==> s[j] != p[k]
    ensures !Contains(s, p)
    decreases |s|
  {
    if |p| <= |s| {
      assert s[..|p|][k] != p[k];
      var t := s[1..];
      forall j | k <= j && j - k + |p| <= |t|
        ensures t[j] != p[k]
      {
        assert t[j] == s[j + 1];
      }
      NotContains(t, p, k);
    }
  }
}
