/**
 * The fitness evaluator `path_length` of drill.py: the open-path length of a
 * visiting order, the sum of the distances between consecutive points.
 *
 * The distance is a parameter. drill.py computes the Euclidean distance with
 * a square root over floats; the model characterises it exactly, without a
 * square root, by `IsEuclidean`.
 */
module Fitness {

  /** A drill hole: the two columns of one row of the input array. */
  datatype Point = Point(x: real, y: real)

  ghost predicate NonNegative<T(!new)>(dist: (T, T) -> real) {
    forall a, b :: dist(a, b) >= 0.0
  }

  ghost predicate Symmetric<T(!new)>(dist: (T, T) -> real) {
    forall a, b :: dist(a, b) == dist(b, a)
  }

  /** `dist(a, b)` is the non-negative number whose square is dx^2 + dy^2 (drill.py:45-46). */
  ghost predicate IsEuclidean(dist: (Point, Point) -> real) {
    forall a: Point, b: Point ::
      dist(a, b) >= 0.0 &&
      dist(a, b) * dist(a, b) == (a.x - b.x) * (a.x - b.x) + (a.y - b.y) * (a.y - b.y)
  }

  /** Sum of `dist(path[i], path[i+1])` for i in [0, |path|-2]; 0 below two points; no closing edge. */
  function Length<T>(path: seq<T>, dist: (T, T) -> real): (total: real) {
    if |path| < 2 then 0.0
    else Length(path[..|path| - 1], dist) + dist(path[|path| - 2], path[|path| - 1])
  }

  /** path_length (drill.py:38-47): the running sum over consecutive pairs. */
  method PathLength<T>(path: seq<T>, dist: (T, T) -> real) returns (length: real)
    ensures length == Length(path, dist)
    ensures |path| < 2 ==> length == 0.0
  {
    length := 0.0;
    if |path| < 2 {
      return;
    }
    for i := 0 to |path| - 1
      invariant length == Length(path[..i + 1], dist)
    {
      assert path[..i + 2][..i + 1] == path[..i + 1];
      length := length + dist(path[i], path[i + 1]);
    }
    assert path[..|path|] == path;
  }

  /** With a non-negative distance the length is non-negative. */
  lemma {:induction false} LengthNonNegative<T(!new)>(path: seq<T>, dist: (T, T) -> real)
    requires NonNegative(dist)
    ensures Length(path, dist) >= 0.0
  {
    if |path| >= 2 {
      LengthNonNegative(path[..|path| - 1], dist);
    }
  }

  /** The length is the first edge plus the length of the rest of the path. */
  lemma {:induction false} LengthFirstEdge<T>(path: seq<T>, dist: (T, T) -> real)
    requires |path| >= 2
    ensures Length(path, dist) == dist(path[0], path[1]) + Length(path[1..], dist)
  {
    if |path| > 2 {
      var init := path[..|path| - 1];
      LengthFirstEdge(init, dist);
      assert init[1..] == path[1..][..|path| - 2];
    }
  }

  /** Appending a point adds exactly the edge from the last point to it. */
  lemma LengthAppend<T>(path: seq<T>, q: T, dist: (T, T) -> real)
    requires |path| >= 1
    ensures Length(path + [q], dist) == Length(path, dist) + dist(path[|path| - 1], q)
  {
    assert (path + [q])[..|path|] == path;
  }

  /**
   * The open path never pays for the way back: closing the tour adds the
   * edge from the last point to the first on top of the length (drill.py:41,44).
   */
  lemma OpenPathOmitsReturn<T>(path: seq<T>, dist: (T, T) -> real)
    requires |path| >= 2
    ensures Length(path + [path[0]], dist) == Length(path, dist) + dist(path[|path| - 1], path[0])
  {
    LengthAppend(path, path[0], dist);
  }

  function Reversed<T>(s: seq<T>): (r: seq<T>)
    ensures |r| == |s|
    ensures forall i :: 0 <= i < |s| ==> r[i] == s[|s| - 1 - i]
  {
    if s == [] then [] else [s[|s| - 1]] + Reversed(s[..|s| - 1])
  }

  /** With a symmetric distance, walking the path backwards costs the same. */
  lemma {:induction false} LengthReversed<T(!new)>(path: seq<T>, dist: (T, T) -> real)
    requires Symmetric(dist)
    ensures Length(Reversed(path), dist) == Length(path, dist)
  {
    if |path| >= 2 {
      var n := |path|;
      var init := path[..n - 1];
      var r := Reversed(path);
      LengthReversed(init, dist);
      LengthFirstEdge(r, dist);
      assert r[1..] == Reversed(init);
      assert dist(r[0], r[1]) == dist(path[n - 2], path[n - 1]);
    }
  }

  /** Squaring is strictly increasing on the non-negative reals. */
  lemma SquareIncreasing(u: real, v: real)
    requires 0.0 <= u < v
    ensures u * u < v * v
  {
    var w := v - u;
    assert v * v == u * u + (u + v) * w;
    assert (u + v) * w > 0.0;
  }

  /** A Euclidean distance is non-negative and symmetric. */
  lemma EuclideanIsSymmetric(dist: (Point, Point) -> real)
    requires IsEuclidean(dist)
    ensures NonNegative(dist) && Symmetric(dist)
  {
    forall a: Point, b: Point ensures dist(a, b) == dist(b, a) {
      var u, v := dist(a, b), dist(b, a);
      assert (a.x - b.x) * (a.x - b.x) == (b.x - a.x) * (b.x - a.x);
      assert (a.y - b.y) * (a.y - b.y) == (b.y - a.y) * (b.y - a.y);
      assert u * u == v * v;
      if u < v {
        SquareIncreasing(u, v);
      } else if v < u {
        SquareIncreasing(v, u);
      }
    }
  }

  /** A non-negative number whose square is 1 is 1; one whose square is 2 is above 1. */
  lemma RootFacts(d: real, s2: real)
    requires d >= 0.0 && d * d == s2
    ensures s2 == 1.0 ==> d == 1.0
    ensures s2 == 2.0 ==> d > 1.0
  {
    if d < 1.0 {
      SquareIncreasing(d, 1.0);
    } else if d > 1.0 {
      SquareIncreasing(1.0, d);
    }
  }

  /** Three sides of the unit square, walked along its edges (tests.py:34). */
  function AlongEdges(): (path: seq<Point>) {
    [Point(1.0, 1.0), Point(1.0, 2.0), Point(2.0, 2.0), Point(2.0, 1.0)]
  }

  /** The same four corners, visited across both diagonals. */
  function AcrossDiagonals(): (path: seq<Point>) {
    [Point(1.0, 1.0), Point(2.0, 2.0), Point(1.0, 2.0), Point(2.0, 1.0)]
  }

  /**
   * The unit-square path along three sides has length 3 (tests.py:32-36);
   * the order that crosses the diagonals is longer.
   */
  lemma SquareLengths(dist: (Point, Point) -> real)
    requires IsEuclidean(dist)
    ensures Length(AlongEdges(), dist) == 3.0
    ensures Length(AcrossDiagonals(), dist) > 3.0
  {
    var p, q := AlongEdges(), AcrossDiagonals();
    RootFacts(dist(p[0], p[1]), 1.0);
    RootFacts(dist(p[1], p[2]), 1.0);
    RootFacts(dist(p[2], p[3]), 1.0);
    RootFacts(dist(q[0], q[1]), 2.0);
    RootFacts(dist(q[1], q[2]), 1.0);
    RootFacts(dist(q[2], q[3]), 2.0);
    assert p[..3][..2] == p[..2];
    assert q[..3][..2] == q[..2];
    assert Length(p[..2], dist) == dist(p[0], p[1]);
    assert Length(p[..3], dist) == Length(p[..2], dist) + dist(p[1], p[2]);
    assert Length(q[..2], dist) == dist(q[0], q[1]);
    assert Length(q[..3], dist) == Length(q[..2], dist) + dist(q[1], q[2]);
  }
}
