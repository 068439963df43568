/**
 * The mutation operator `shuffle_p` of drill.py.
 *
 * The source draws `int(num/2)` pairs of distinct row indices (num = N*p/100)
 * and swaps the two rows of each pair, one pair after the other, in a copy of
 * the array. Here the drawn pairs are an argument; every property below holds
 * whatever pairs the random source picks.
 */
module Mutation {

  /** One drawn pair of row indices; its two rows trade places. */
  type IndexPair = (int, int)

  /** `num == 0` at drill.py:21, with `num = N*p/100` computed by true division. */
  predicate NothingToShuffle(n: nat, p: nat) {
    n * p == 0
  }

  /** `int(num/2)`: the number of pairs drawn, that is floor(N*p/200). */
  function PairCount(n: nat, p: nat): (k: nat) {
    n * p / 200
  }

  /** The drawn indices in draw order: both members of the first pair, then of the second, and so on. */
  function Drawn(pairs: seq<IndexPair>): (r: seq<int>)
    ensures |r| == 2 * |pairs|
  {
    if pairs == [] then []
    else Drawn(pairs[..|pairs| - 1]) + [pairs[|pairs| - 1].0, pairs[|pairs| - 1].1]
  }

  /** The set of positions named by some drawn pair. */
  function DrawnSet(pairs: seq<IndexPair>): (drawn: set<int>) {
    if pairs == [] then {}
    else DrawnSet(pairs[..|pairs| - 1]) + {pairs[|pairs| - 1].0, pairs[|pairs| - 1].1}
  }

  /** Every drawn index is a row of an array of `n` rows. */
  predicate InRange(pairs: seq<IndexPair>, n: nat) {
    forall i :: 0 <= i < |pairs| ==> 0 <= pairs[i].0 < n && 0 <= pairs[i].1 < n
  }

  /**
   * What `np.random.choice(np.arange(n), [k, 2], False)` can return:
   * k pairs of indices in [0, n), all 2k of them distinct (no replacement).
   */
  predicate ValidPairs(pairs: seq<IndexPair>, n: nat, k: nat) {
    && |pairs| == k
    && InRange(pairs, n)
    && forall i, j :: 0 <= i < j < |Drawn(pairs)| ==> Drawn(pairs)[i] != Drawn(pairs)[j]
  }

  /** The rows at positions `a` and `b` trade places: the row-permutation matrix product of drill.py:32-34 on finite coordinates. */
  function Swap<T>(s: seq<T>, a: int, b: int): (r: seq<T>)
    requires 0 <= a < |s| && 0 <= b < |s|
    ensures |r| == |s|
    ensures r[a] == s[b] && r[b] == s[a]
    ensures forall i :: 0 <= i < |s| && i != a && i != b ==> r[i] == s[i]
  {
    s[a := s[b]][b := s[a]]
  }

  /** The array after the transpositions of `pairs` have been applied in order. */
  function ApplySwaps<T>(s: seq<T>, pairs: seq<IndexPair>): (r: seq<T>)
    requires InRange(pairs, |s|)
    ensures |r| == |s|
  {
    if pairs == [] then s
    else
      var last := pairs[|pairs| - 1];
      Swap(ApplySwaps(s, pairs[..|pairs| - 1]), last.0, last.1)
  }

  /** The value `shuffle_p(ar, p)` returns when the random draw is `pairs`. */
  function Shuffled<T>(ar: seq<T>, p: nat, pairs: seq<IndexPair>): (shuffled: seq<T>)
    requires InRange(pairs, |ar|)
  {
    if NothingToShuffle(|ar|, p) then ar else ApplySwaps(ar, pairs)
  }

  /** Positions whose row differs between `a` and `b`. */
  function Changed<T(==)>(a: seq<T>, b: seq<T>): (changed: set<int>) {
    set i | 0 <= i < |a| && i < |b| && a[i] != b[i]
  }

  /** Positions whose row is the same in `a` and `b`. */
  function Kept<T(==)>(a: seq<T>, b: seq<T>): (kept: set<int>) {
    set i | 0 <= i < |a| && i < |b| && a[i] == b[i]
  }

  /**
   * shuffle_p (drill.py:11-36): the early return when num is 0, otherwise a
   * copy whose rows are swapped pair by pair.
   */
  method ShuffleP<T(==)>(ar: seq<T>, p: nat, pairs: seq<IndexPair>) returns (shuffled: seq<T>)
    requires ValidPairs(pairs, |ar|, PairCount(|ar|, p))
    ensures shuffled == Shuffled(ar, p, pairs)
    ensures p == 0 ==> shuffled == ar
    ensures multiset(shuffled) == multiset(ar)
    ensures forall i :: 0 <= i < |ar| && i !in DrawnSet(pairs) ==> shuffled[i] == ar[i]
    ensures |Changed(ar, shuffled)| <= |ar| * p / 100
  {
    if |ar| * p == 0 {
      return ar;
    }
    shuffled := ar;
    var i := 0;
    while i < |pairs|
      invariant 0 <= i <= |pairs|
      invariant shuffled == ApplySwaps(ar, pairs[..i])
    {
      var (a, b) := pairs[i];
      assert pairs[..i + 1][..i] == pairs[..i];
      shuffled := shuffled[a := shuffled[b]][b := shuffled[a]];
      i := i + 1;
    }
    assert pairs[..i] == pairs;
    SwapsPermute(ar, pairs);
    SwapsTouchOnlyDrawn(ar, pairs);
    ChangedAtMostRate(ar, p, pairs);
  }

  /** Whatever branch is taken, the result is a rearrangement of the rows of `ar`. */
  lemma ShuffledPermutes<T>(ar: seq<T>, p: nat, pairs: seq<IndexPair>)
    requires InRange(pairs, |ar|)
    ensures multiset(Shuffled(ar, p, pairs)) == multiset(ar)
    ensures |Shuffled(ar, p, pairs)| == |ar|
  {
    SwapsPermute(ar, pairs);
  }

  /** One transposition keeps the multiset of rows. */
  lemma SwapPermutes<T>(s: seq<T>, a: int, b: int)
    requires 0 <= a < |s| && 0 <= b < |s|
    ensures multiset(Swap(s, a, b)) == multiset(s)
  {
    var t := s[a := s[b]];
    assert multiset(t) == multiset(s) - multiset{s[a]} + multiset{s[b]};
    assert multiset(t[b := s[a]]) == multiset(t) - multiset{t[b]} + multiset{s[a]};
  }

  /** Applying any in-range transpositions keeps the multiset of rows (drill.py:31-34). */
  lemma {:induction false} SwapsPermute<T>(s: seq<T>, pairs: seq<IndexPair>)
    requires InRange(pairs, |s|)
    ensures multiset(ApplySwaps(s, pairs)) == multiset(s)
  {
    if pairs != [] {
      var last := pairs[|pairs| - 1];
      SwapsPermute(s, pairs[..|pairs| - 1]);
      SwapPermutes(ApplySwaps(s, pairs[..|pairs| - 1]), last.0, last.1);
    }
  }

  /** A position that no drawn pair names keeps its row. */
  lemma {:induction false} SwapsTouchOnlyDrawn<T>(s: seq<T>, pairs: seq<IndexPair>)
    requires InRange(pairs, |s|)
    ensures forall i :: 0 <= i < |s| && i !in DrawnSet(pairs) ==> ApplySwaps(s, pairs)[i] == s[i]
  {
    if pairs != [] {
      SwapsTouchOnlyDrawn(s, pairs[..|pairs| - 1]);
    }
  }

  /** The drawn set has at most two indices per pair. */
  lemma {:induction false} DrawnSetSize(pairs: seq<IndexPair>)
    ensures |DrawnSet(pairs)| <= 2 * |pairs|
  {
    if pairs != [] {
      var init := pairs[..|pairs| - 1];
      var last := pairs[|pairs| - 1];
      DrawnSetSize(init);
      var pair: set<int> := {last.0, last.1};
      assert |pair| <= 2;
      assert |DrawnSet(init) + pair| <= |DrawnSet(init)| + |pair|;
    }
  }

  /** The set of drawn positions holds exactly the indices of the drawn sequence. */
  lemma {:induction false} DrawnSetIsDrawn(pairs: seq<IndexPair>)
    ensures forall i :: i in DrawnSet(pairs) <==> i in Drawn(pairs)
  {
    if pairs != [] {
      DrawnSetIsDrawn(pairs[..|pairs| - 1]);
    }
  }

  /** A subset of a finite set is no larger than the set. */
  lemma SubsetSize(a: set<int>, b: set<int>)
    requires a <= b
    ensures |a| <= |b|
  {
    assert b == a + (b - a);
  }

  /** Two draws of floor(x/200) positions each are at most floor(x/100) positions. */
  lemma TwicePairCount(x: nat)
    ensures 2 * (x / 200) <= x / 100
  {
    var q := x / 200;
    assert 200 * q <= x;
    assert 100 * (2 * q) <= x;
  }

  /**
   * shuffle_p changes at most the 2*floor(N*p/200) drawn positions, hence at
   * most floor(N*p/100) rows (drill.py:18,25,31-34).
   */
  lemma ChangedAtMostRate<T>(ar: seq<T>, p: nat, pairs: seq<IndexPair>)
    requires ValidPairs(pairs, |ar|, PairCount(|ar|, p))
    ensures Changed(ar, Shuffled(ar, p, pairs)) <= DrawnSet(pairs)
    ensures |Changed(ar, Shuffled(ar, p, pairs))| <= 2 * PairCount(|ar|, p) <= |ar| * p / 100
  {
    var r := Shuffled(ar, p, pairs);
    SwapsTouchOnlyDrawn(ar, pairs);
    assert Changed(ar, r) <= DrawnSet(pairs);
    SubsetSize(Changed(ar, r), DrawnSet(pairs));
    DrawnSetSize(pairs);
    TwicePairCount(|ar| * p);
  }

  /** The positions below `n`, with their count. */
  function Positions(n: nat): (r: set<int>)
    ensures forall i :: i in r <==> 0 <= i < n
    ensures |r| == n
  {
    if n == 0 then {} else Positions(n - 1) + {n - 1}
  }

  /** Every position of two equally long arrays is either kept or changed. */
  lemma KeptAndChanged<T>(a: seq<T>, b: seq<T>)
    requires |a| == |b|
    ensures |Kept(a, b)| == |a| - |Changed(a, b)|
  {
    assert Positions(|a|) == Kept(a, b) + Changed(a, b);
    assert Kept(a, b) * Changed(a, b) == {};
  }

  /** At a rate of at most 50 percent, the drawn positions are at most half of the rows. */
  lemma HalfRate(n: nat, p: nat)
    requires p <= 50
    ensures 2 * PairCount(n, p) <= n / 2
  {
    var x := n * p;
    assert x <= n * 50 by {
      assert n * 50 - x == n * (50 - p);
    }
    var q := n / 4;
    assert n < 4 * q + 4;
    assert x < 200 * (q + 1);
    assert x / 200 <= q;
    assert 2 * q <= n / 2;
  }

  /**
   * With a rate of at most 50 percent, at least half of the rows keep their
   * position (the bound tests.py:16-30 asserts for four rows and p = 50).
   */
  lemma HalfKept<T>(ar: seq<T>, p: nat, pairs: seq<IndexPair>)
    requires p <= 50
    requires ValidPairs(pairs, |ar|, PairCount(|ar|, p))
    ensures |Kept(ar, Shuffled(ar, p, pairs))| >= |ar| / 2
  {
    ChangedAtMostRate(ar, p, pairs);
    KeptAndChanged(ar, Shuffled(ar, p, pairs));
    HalfRate(|ar|, p);
  }
}
