/** Positions of the elements of a sequence that pass a test, in order.
    Both filters of the pipeline (records that carry a sample, files that
    yield a series) are described through this one function. */
module Seqs {

  /** The indices j, in increasing order, at which p(s[j]) holds. */
  function Positions<T>(s: seq<T>, p: T -> bool): (r: seq<nat>)
    ensures |r| <= |s|
    ensures forall k :: 0 <= k < |r| ==> r[k] < |s| && p(s[r[k]])
  {
    if s == [] then []
    else
      var init := Positions(s[..|s| - 1], p);
      if p(s[|s| - 1]) then init + [|s| - 1] else init
  }

  /** The positions are strictly increasing, so they list the passing
      elements in their original order. */
  lemma {:induction false} PositionsIncreasing<T>(s: seq<T>, p: T -> bool)
    ensures forall a, b :: 0 <= a < b < |Positions(s, p)| ==> Positions(s, p)[a] < Positions(s, p)[b]
  {
    if s != [] {
      var init := s[..|s| - 1];
      PositionsIncreasing(init, p);
    }
  }

  /** Every passing element is listed, and nothing else is. */
  lemma {:induction false} PositionsComplete<T>(s: seq<T>, p: T -> bool)
    ensures forall j :: 0 <= j < |s| ==> (j in Positions(s, p) <==> p(s[j]))
  {
    if s != [] {
      var init := s[..|s| - 1];
      PositionsComplete(init, p);
      forall j | 0 <= j < |s|
        ensures j in Positions(s, p) <==> p(s[j])
      {
        if j < |s| - 1 {
          assert s[j] == init[j];
        }
      }
    }
  }

  /** Filtering a prefix gives a prefix of the positions. */
  lemma {:induction false} PositionsOfPrefix<T>(s: seq<T>, m: nat, p: T -> bool)
    requires m <= |s|
    ensures Positions(s[..m], p) <= Positions(s, p)
    decreases |s|
  {
    if m < |s| {
      var init := s[..|s| - 1];
      assert init[..m] == s[..m];
      PositionsOfPrefix(init, m, p);
    } else {
      assert s[..m] == s;
    }
  }

  /** When every element passes, the positions are 0, 1, ..., |s| - 1. */
  lemma {:induction false} PositionsAllPass<T>(s: seq<T>, p: T -> bool)
    requires forall j :: 0 <= j < |s| ==> p(s[j])
    ensures |Positions(s, p)| == |s|
    ensures forall k :: 0 <= k < |s| ==> Positions(s, p)[k] == k
  {
    if s != [] {
      var init := s[..|s| - 1];
      assert forall j :: 0 <= j < |init| ==> init[j] == s[j];
      PositionsAllPass(init, p);
    }
  }

  /** In a strictly increasing sequence of naturals, entries b - a apart differ by at least b - a. */
  lemma {:induction false} IncreasingSpreads(r: seq<nat>, a: nat, b: nat)
    requires forall i, j :: 0 <= i < j < |r| ==> r[i] < r[j]
    requires a <= b < |r|
    ensures r[b] - r[a] >= b - a
    decreases b - a
  {
    if a < b {
      IncreasingSpreads(r, a, b - 1);
    }
  }

  /** The k-th passing element is the k-th element exactly when all of the
      first k + 1 elements pass. */
  lemma PositionsIdentityIff<T>(s: seq<T>, p: T -> bool, k: nat)
    requires k < |s|
    ensures (k < |Positions(s, p)| && Positions(s, p)[k] == k) <==> (forall j :: 0 <= j <= k ==> p(s[j]))
  {
    var r := Positions(s, p);
    if k < |r| && r[k] == k {
      PositionsIncreasing(s, p);
      forall j | 0 <= j <= k
        ensures p(s[j])
      {
        IncreasingSpreads(r, j, k);
        IncreasingSpreads(r, 0, j);
        assert r[j] == j;
      }
    }
    if forall j :: 0 <= j <= k ==> p(s[j]) {
      var pre := s[..k + 1];
      assert forall j :: 0 <= j < |pre| ==> pre[j] == s[j];
      PositionsAllPass(pre, p);
      PositionsOfPrefix(s, k + 1, p);
    }
  }

  /** The first passing element is the first one listed. */
  lemma FirstPosition<T>(s: seq<T>, p: T -> bool, j: nat)
    requires j < |s| && p(s[j])
    requires forall i :: 0 <= i < j ==> !p(s[i])
    ensures |Positions(s, p)| > 0 && Positions(s, p)[0] == j
  {
    var r := Positions(s, p);
    PositionsComplete(s, p);
    PositionsIncreasing(s, p);
    assert j in r;
    var m :| 0 <= m < |r| && r[m] == j;
    if m > 0 {
      assert false;
    }
  }
}
