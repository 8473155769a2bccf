/**
 * Round sampling: a Fisher-Yates shuffle of the pool indices 0..n-1,
 * whose first nine entries pick the round's options.
 */
module Sampler {
  import opened Common

  /** The indices 0, 1, ..., n-1 in order, as the index list is first filled. */
  function Iota(n: nat): seq<int> {
    seq(n, k => k)
  }

  /**
   * The random draws of one shuffle of n indices: draws[i] is the value of
   * Random.Range(0, i + 1) taken when the loop is at position i (draws[0] is never used).
   */
  predicate DrawsInBounds(draws: seq<int>, n: nat) {
    |draws| == n && forall i :: 0 < i < n ==> 0 <= draws[i] <= i
  }

  function Swap(s: seq<int>, i: nat, j: nat): seq<int>
    requires i < |s| && j < |s|
  {
    s[i := s[j]][j := s[i]]
  }

  /** The shuffle steps at positions i, i-1, ..., 1 applied to s. */
  function FisherYates(s: seq<int>, draws: seq<int>, i: int): (r: seq<int>)
    requires i < |s| && |draws| == |s|
    requires forall k :: 0 < k <= i ==> 0 <= draws[k] <= k
    ensures |r| == |s|
    decreases i
  {
    if i <= 0 then s else FisherYates(Swap(s, i, draws[i]), draws, i - 1)
  }

  /** The shuffled index list of a pool of n sprites. */
  function Shuffled(n: nat, draws: seq<int>): seq<int>
    requires DrawsInBounds(draws, n)
  {
    FisherYates(Iota(n), draws, n - 1)
  }

  /** Fills a fresh index list with 0..n-1 and shuffles it in place. */
  method ShuffledIndices(n: nat, draws: seq<int>) returns (idxs: array<int>)
    requires DrawsInBounds(draws, n)
    ensures fresh(idxs) && idxs[..] == Shuffled(n, draws)
  {
    idxs := IndexList(n);
    Shuffle(idxs, draws);
  }

  /** A fresh index list holding 0, 1, ..., n-1. */
  method IndexList(n: nat) returns (idxs: array<int>)
    ensures fresh(idxs) && idxs[..] == Iota(n)
  {
    idxs := new int[n];
    var i := 0;
    while i < n
      invariant 0 <= i <= n
      invariant forall k :: 0 <= k < i ==> idxs[k] == k
    {
      idxs[i] := i;
      i := i + 1;
    }
  }

  /** Swaps position i with position draws[i], for i from the last position down to 1. */
  method Shuffle(idxs: array<int>, draws: seq<int>)
    requires DrawsInBounds(draws, idxs.Length)
    modifies idxs
    ensures idxs[..] == FisherYates(old(idxs[..]), draws, idxs.Length - 1)
  {
    var i := idxs.Length - 1;
    while i > 0
      invariant i < idxs.Length
      invariant FisherYates(idxs[..], draws, i) == FisherYates(old(idxs[..]), draws, idxs.Length - 1)
    {
      var j := draws[i];
      ghost var before := idxs[..];
      idxs[i], idxs[j] := idxs[j], idxs[i];
      assert idxs[..] == Swap(before, i, j);
      i := i - 1;
    }
  }

  lemma SwapPermutes(s: seq<int>, i: nat, j: nat)
    requires i < |s| && j < |s|
    ensures multiset(Swap(s, i, j)) == multiset(s)
  {
  }

  /** Every shuffle step is a swap, so the shuffle only reorders its input. */
  lemma {:induction false} FisherYatesPermutes(s: seq<int>, draws: seq<int>, i: int)
    requires i < |s| && |draws| == |s|
    requires forall k :: 0 < k <= i ==> 0 <= draws[k] <= k
    ensures multiset(FisherYates(s, draws, i)) == multiset(s)
    decreases i
  {
    if i > 0 {
      SwapPermutes(s, i, draws[i]);
      FisherYatesPermutes(Swap(s, i, draws[i]), draws, i - 1);
    }
  }

  lemma {:induction false} IotaCount(n: nat, v: int)
    ensures multiset(Iota(n))[v] == if 0 <= v < n then 1 else 0
  {
    if n > 0 {
      assert Iota(n) == Iota(n - 1) + [n - 1];
      IotaCount(n - 1, v);
    }
  }

  /** A reordering of 0..n-1 holds each index in range exactly once. */
  lemma PermutationOfIota(r: seq<int>, n: nat)
    requires multiset(r) == multiset(Iota(n))
    ensures |r| == n && Distinct(r) && forall k :: 0 <= k < |r| ==> 0 <= r[k] < n
  {
    assert |r| == |multiset(r)| == |multiset(Iota(n))| == |Iota(n)|;
    forall k | 0 <= k < |r|
      ensures 0 <= r[k] < n
    {
      assert r[k] in multiset(r);
      IotaCount(n, r[k]);
    }
    forall a, b | 0 <= a < b < |r|
      ensures r[a] != r[b]
    {
      if r[a] == r[b] {
        var v := r[a];
        assert r == r[..b] + [v] + r[b + 1..];
        assert multiset(r) == multiset(r[..b]) + multiset{v} + multiset(r[b + 1..]);
        assert v in r[..b];
        assert multiset(r)[v] >= 2;
        IotaCount(n, v);
      }
    }
  }

  /** The shuffle of 0..n-1 is a permutation of 0..n-1. */
  lemma ShuffledIsPermutation(n: nat, draws: seq<int>)
    requires DrawsInBounds(draws, n)
    ensures multiset(Shuffled(n, draws)) == multiset(Iota(n))
    ensures |Shuffled(n, draws)| == n && Distinct(Shuffled(n, draws))
    ensures forall k :: 0 <= k < n ==> 0 <= Shuffled(n, draws)[k] < n
  {
    FisherYatesPermutes(Iota(n), draws, n - 1);
    PermutationOfIota(Shuffled(n, draws), n);
  }

  /** The nine options of a round: the pool entries at the first nine shuffled indices. */
  function RoundSample<T>(pool: seq<T>, draws: seq<int>): (r: seq<T>)
    requires |pool| >= 9 && DrawsInBounds(draws, |pool|)
    ensures |r| == 9 && forall k :: 0 <= k < 9 ==> r[k] in pool
  {
    var order := Shuffled(|pool|, draws);
    ShuffledIsPermutation(|pool|, draws);
    seq(9, k requires 0 <= k < 9 => pool[order[k]])
  }

  /** Drawn from a duplicate-free pool, the nine options of a round are pairwise distinct. */
  lemma RoundSampleDistinct<T>(pool: seq<T>, draws: seq<int>)
    requires |pool| >= 9 && DrawsInBounds(draws, |pool|) && Distinct(pool)
    ensures Distinct(RoundSample(pool, draws))
  {
    var order := Shuffled(|pool|, draws);
    ShuffledIsPermutation(|pool|, draws);
    var r := RoundSample(pool, draws);
    forall a, b | 0 <= a < b < 9
      ensures r[a] != r[b]
    {
      assert r[a] == pool[order[a]] && r[b] == pool[order[b]];
      assert order[a] != order[b];
    }
  }
}
