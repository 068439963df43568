/**
 * The selector `shortest_path` of drill.py: a running-minimum scan over a list
 * of candidate paths. The update uses a strict `<`, so among paths of equal
 * length the first one seen wins.
 */
module Selection {
  import opened Fitness

  /** The running bound of the scan: `np.inf` before the first path, then a path length. */
  datatype Bound = Infinite | Finite(value: real)

  /** `length < shortest_length` at drill.py:60; every real number is below np.inf. */
  predicate Below(length: real, bound: Bound) {
    bound.Infinite? || length < bound.value
  }

  /** The index the scan settles on: the first path of least length. */
  function FirstShortest<T>(pool: seq<seq<T>>, dist: (T, T) -> real): (k: nat)
    requires pool != []
    ensures k < |pool|
  {
    if |pool| == 1 then 0
    else
      var k := FirstShortest(pool[..|pool| - 1], dist);
      if Length(pool[|pool| - 1], dist) < Length(pool[k], dist) then |pool| - 1 else k
  }

  /** `k` names a path no longer than any other and strictly shorter than every path before it. */
  predicate IsFirstShortest<T>(pool: seq<seq<T>>, k: int, dist: (T, T) -> real) {
    && 0 <= k < |pool|
    && (forall j :: 0 <= j < |pool| ==> Length(pool[k], dist) <= Length(pool[j], dist))
    && (forall j :: 0 <= j < k ==> Length(pool[k], dist) < Length(pool[j], dist))
  }

  /** What shortest_path returns: the first shortest path, or the empty array for an empty list. */
  function Fittest<T>(pool: seq<seq<T>>, dist: (T, T) -> real): (fittest: seq<T>) {
    if pool == [] then [] else pool[FirstShortest(pool, dist)]
  }

  /** The scan's index is the first minimum of the path lengths. */
  lemma {:induction false} FirstShortestIsFirstMinimum<T>(pool: seq<seq<T>>, dist: (T, T) -> real)
    requires pool != []
    ensures IsFirstShortest(pool, FirstShortest(pool, dist), dist)
  {
    if |pool| > 1 {
      var init := pool[..|pool| - 1];
      FirstShortestIsFirstMinimum(init, dist);
      assert forall j :: 0 <= j < |init| ==> init[j] == pool[j];
    }
  }

  /** The selected path is one of the candidates whenever there is one. */
  lemma FittestInPool<T>(pool: seq<seq<T>>, dist: (T, T) -> real)
    requires pool != []
    ensures Fittest(pool, dist) in pool
    ensures forall j :: 0 <= j < |pool| ==> Length(Fittest(pool, dist), dist) <= Length(pool[j], dist)
  {
    FirstShortestIsFirstMinimum(pool, dist);
  }

  /** shortest_path (drill.py:49-63). */
  method ShortestPath<T>(pool: seq<seq<T>>, dist: (T, T) -> real) returns (shortest: seq<T>)
    ensures shortest == Fittest(pool, dist)
    ensures pool == [] ==> shortest == []
    ensures pool != [] ==> exists k :: IsFirstShortest(pool, k, dist) && shortest == pool[k]
  {
    var shortestLength := Infinite;
    shortest := [];
    ghost var k := 0;
    for i := 0 to |pool|
      invariant i == 0 ==> shortestLength == Infinite && shortest == []
      invariant i > 0 ==> k == FirstShortest(pool[..i], dist)
      invariant i > 0 ==> shortest == pool[k] && shortestLength == Finite(Length(pool[k], dist))
    {
      assert i > 0 ==> pool[..i + 1][..i] == pool[..i];
      var path := pool[i];
      var length := PathLength(path, dist);
      if Below(length, shortestLength) {
        shortestLength := Finite(length);
        shortest := path;
        k := i;
      }
    }
    if pool != [] {
      assert pool[..|pool|] == pool;
      FirstShortestIsFirstMinimum(pool, dist);
    }
  }

  /** Of the two orders of the unit square, the one along the edges is selected. */
  lemma SquareSelection(dist: (Point, Point) -> real)
    requires IsEuclidean(dist)
    ensures Fittest([AlongEdges(), AcrossDiagonals()], dist) == AlongEdges()
  {
    SquareLengths(dist);
  }
}
