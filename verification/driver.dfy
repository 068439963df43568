/**
 * The class `DrillPattern` of drill.py: the input check of its constructor and
 * the generational loop of `calculate_path`, which breeds mutated copies of
 * the current best order and keeps the shortest of them.
 */
module Driver {
  import opened Results
  import opened Mutation
  import opened Fitness
  import opened Selection

  /** The module defaults used as default arguments of calculate_path (drill.py:5-7). */
  const GENERATIONS: int := 10
  const POPULATION: int := 10
  const MUTATIONS: nat := 100

  /** The argument handed to the constructor: a number or a Python list of such values. */
  datatype Value = Num(n: real) | List(items: seq<Value>)

  /** The ValueError the constructor raises for any input that is not N rows of 2 numbers. */
  datatype InitError = ValueError

  /** `np.array(v).shape`, or None when the nesting is ragged and no rectangular array exists. */
  function Shape(v: Value): (shape: Option<seq<nat>>)
    decreases v, 1
  {
    match v
    case Num(_) => Some([])
    case List(items) =>
      if items == [] then Some([0])
      else
        match CommonShape(v, 0)
        case None => None
        case Some(s) => Some([|items|] + s)
  }

  /** The shape shared by all of `v.items[from..]`, or None when two of them differ. */
  function CommonShape(v: Value, from: nat): (shape: Option<seq<nat>>)
    requires v.List? && from < |v.items|
    decreases v, 0, |v.items| - from
  {
    assert v.items[from] in v.items;
    var head := Shape(v.items[from]);
    if from == |v.items| - 1 then head
    else if head.None? then None
    else if CommonShape(v, from + 1) == head then head
    else None
  }

  /** One row of the input: a list of exactly two numbers. */
  predicate IsPointRow(r: Value) {
    r.List? && |r.items| == 2 && r.items[0].Num? && r.items[1].Num?
  }

  /** A non-empty list of rows of two numbers: the inputs that make an N-by-2 array. */
  predicate IsPointRows(v: Value) {
    v.List? && |v.items| >= 1 && forall i :: 0 <= i < |v.items| ==> IsPointRow(v.items[i])
  }

  lemma {:induction false} CommonShapeAll(v: Value, from: nat, s: seq<nat>)
    requires v.List? && from < |v.items|
    ensures CommonShape(v, from) == Some(s) <==>
            forall i :: from <= i < |v.items| ==> Shape(v.items[i]) == Some(s)
    decreases |v.items| - from
  {
    if from < |v.items| - 1 {
      CommonShapeAll(v, from + 1, s);
    }
  }

  /** Only a number has the empty shape. */
  lemma ScalarShape(v: Value)
    ensures Shape(v) == Some([]) <==> v.Num?
  {
    if v.List? && v.items != [] {
      ListShape(v);
    }
  }

  /** A non-empty list has the shape of its items with its own length in front. */
  lemma ListShape(v: Value)
    requires v.List? && v.items != []
    ensures Shape(v).Some? <==> CommonShape(v, 0).Some?
    ensures Shape(v).Some? ==> Shape(v).value == [|v.items|] + CommonShape(v, 0).value
  {
  }

  /** A value has shape (2,) exactly when it is a row of two numbers. */
  lemma RowShape(r: Value)
    ensures Shape(r) == Some([2]) <==> IsPointRow(r)
  {
    if r.List? && r.items != [] {
      ListShape(r);
      CommonShapeAll(r, 0, []);
      forall i | 0 <= i < |r.items| {
        ScalarShape(r.items[i]);
      }
      if Shape(r) == Some([2]) {
        var s := CommonShape(r, 0).value;
        assert [|r.items|] + s == [2];
        assert |[|r.items|] + s| == 1 + |s|;
        assert ([|r.items|] + s)[0] == |r.items|;
        assert |r.items| == 2 && s == [];
      }
      if IsPointRow(r) {
        assert CommonShape(r, 0) == Some([]);
        assert [2] + [] == [2];
      }
    }
  }

  /** A value makes an array of shape (N, 2) exactly when it is a non-empty list of two-number rows. */
  lemma MatrixShape(v: Value)
    ensures (Shape(v).Some? && |Shape(v).value| == 2 && Shape(v).value[1] == 2) <==> IsPointRows(v)
  {
    if v.List? && v.items != [] {
      ListShape(v);
      CommonShapeAll(v, 0, [2]);
      forall i | 0 <= i < |v.items| {
        RowShape(v.items[i]);
      }
      var shape := Shape(v);
      if shape.Some? && |shape.value| == 2 && shape.value[1] == 2 {
        var s := CommonShape(v, 0).value;
        assert shape.value == [|v.items|] + s;
        assert s == [2];
      }
      if IsPointRows(v) {
        assert CommonShape(v, 0) == Some([2]);
      }
    }
  }

  function RowsToPoints(rows: seq<Value>): (points: seq<Point>)
    requires forall i :: 0 <= i < |rows| ==> IsPointRow(rows[i])
  {
    seq(|rows|, i requires 0 <= i < |rows| && IsPointRow(rows[i]) => Point(rows[i].items[0].n, rows[i].items[1].n))
  }

  /**
   * The validation of `__init__` (drill.py:77-92): the input must form a
   * two-dimensional array with two columns; otherwise a ValueError.
   */
  function Validate(v: Value): (r: Result<seq<Point>, InitError>)
    ensures r.Success? <==> IsPointRows(v)
    ensures r.Success? ==>
      |r.value| == |v.items| &&
      forall i :: 0 <= i < |v.items| ==>
        r.value[i] == Point(v.items[i].items[0].n, v.items[i].items[1].n)
  {
    MatrixShape(v);
    var shape := Shape(v);
    if shape.Some? && |shape.value| == 2 && shape.value[1] == 2 then
      Success(RowsToPoints(v.items))
    else
      Failure(ValueError)
  }

  /** `range(population - 1)`: the number of mutated copies one generation makes. */
  function MutantCount(population: int): (count: nat) {
    if population > 1 then population - 1 else 0
  }

  /**
   * The random draws of a run: for generation g and copy j, `draws[g][j]` is
   * what np.random.choice picks inside shuffle_p for a path of `n` rows.
   */
  predicate WellDrawn(draws: seq<seq<seq<IndexPair>>>, n: nat, population: int, mutations: nat) {
    forall g :: 0 <= g < |draws| ==>
      |draws[g]| >= MutantCount(population) &&
      forall j :: 0 <= j < MutantCount(population) ==>
        ValidPairs(draws[g][j], n, PairCount(n, mutations))
  }

  /** The mutated copies of one generation, in the order drill.py:114-116 appends them. */
  function Mutants(best: seq<Point>, mutations: nat, draws: seq<seq<IndexPair>>, count: nat): (pool: seq<seq<Point>>)
    requires count <= |draws|
    requires forall j :: 0 <= j < count ==> ValidPairs(draws[j], |best|, PairCount(|best|, mutations))
    ensures |pool| == count
  {
    if count == 0 then []
    else
      assert ValidPairs(draws[count - 1], |best|, PairCount(|best|, mutations));
      Mutants(best, mutations, draws, count - 1) + [Shuffled(best, mutations, draws[count - 1])]
  }

  /** Every mutated copy is a rearrangement of the path it was copied from. */
  lemma {:induction false} MutantsPermute(best: seq<Point>, mutations: nat, draws: seq<seq<IndexPair>>, count: nat)
    requires count <= |draws|
    requires forall j :: 0 <= j < count ==> ValidPairs(draws[j], |best|, PairCount(|best|, mutations))
    ensures forall m :: m in Mutants(best, mutations, draws, count) ==> multiset(m) == multiset(best)
  {
    if count > 0 {
      MutantsPermute(best, mutations, draws, count - 1);
      ShuffledPermutes(best, mutations, draws[count - 1]);
    }
  }

  /**
   * One generation as drill.py:106-123 runs it: the shortest of the mutated
   * copies, without the unmutated survivor.
   */
  function NextBest(best: seq<Point>, population: int, mutations: nat,
                    draws: seq<seq<IndexPair>>, dist: (Point, Point) -> real): (next: seq<Point>)
    requires |draws| >= MutantCount(population)
    requires forall j :: 0 <= j < MutantCount(population) ==>
               ValidPairs(draws[j], |best|, PairCount(|best|, mutations))
    ensures population > 1 ==> multiset(next) == multiset(best)
    ensures population <= 1 ==> next == []
  {
    var pool := Mutants(best, mutations, draws, MutantCount(population));
    MutantsPermute(best, mutations, draws, MutantCount(population));
    if pool != [] then FittestInPool(pool, dist); Fittest(pool, dist)
    else Fittest(pool, dist)
  }

  /** The draws left after the first generation serve the next one. */
  lemma WellDrawnRest(draws: seq<seq<seq<IndexPair>>>, n: nat, n': nat, population: int, mutations: nat)
    requires draws != []
    requires WellDrawn(draws, n, population, mutations)
    requires population > 1 ==> n' == n
    ensures WellDrawn(draws[1..], n', population, mutations)
  {
    assert forall g :: 0 <= g < |draws| - 1 ==> draws[1..][g] == draws[g + 1];
  }

  /** The best order after `generations` generations (drill.py:104-125). */
  function Evolve(best: seq<Point>, generations: int, population: int, mutations: nat,
                  draws: seq<seq<seq<IndexPair>>>, dist: (Point, Point) -> real): (evolved: seq<Point>)
    requires generations <= |draws|
    requires WellDrawn(draws, |best|, population, mutations)
    decreases generations
  {
    if generations <= 0 then best
    else
      var next := NextBest(best, population, mutations, draws[0], dist);
      assert population > 1 ==> |next| == |multiset(next)| == |best|;
      WellDrawnRest(draws, |best|, |next|, population, mutations);
      Evolve(next, generations - 1, population, mutations, draws[1..], dist)
  }

  /** One turn of the loop: a positive generation count runs one generation on the first draws. */
  lemma EvolveStep(best: seq<Point>, generations: int, population: int, mutations: nat,
                   draws: seq<seq<seq<IndexPair>>>, dist: (Point, Point) -> real)
    requires 0 < generations <= |draws|
    requires WellDrawn(draws, |best|, population, mutations)
    ensures var next := NextBest(best, population, mutations, draws[0], dist);
            WellDrawn(draws[1..], |next|, population, mutations) &&
            Evolve(best, generations, population, mutations, draws, dist)
            == Evolve(next, generations - 1, population, mutations, draws[1..], dist)
  {
    var next := NextBest(best, population, mutations, draws[0], dist);
    assert population > 1 ==> |next| == |multiset(next)| == |best|;
    WellDrawnRest(draws, |best|, |next|, population, mutations);
  }

  /** With at least two candidates per generation the result is a rearrangement of the input. */
  lemma {:induction false} EvolvePermutes(best: seq<Point>, generations: int, population: int, mutations: nat,
                                          draws: seq<seq<seq<IndexPair>>>, dist: (Point, Point) -> real)
    requires generations <= |draws|
    requires WellDrawn(draws, |best|, population, mutations)
    requires population > 1
    ensures multiset(Evolve(best, generations, population, mutations, draws, dist)) == multiset(best)
    decreases generations
  {
    if generations > 0 {
      EvolveStep(best, generations, population, mutations, draws, dist);
      var next := NextBest(best, population, mutations, draws[0], dist);
      EvolvePermutes(next, generations - 1, population, mutations, draws[1..], dist);
    }
  }

  /**
   * With a population of one (or less) the pool of mutated copies is empty,
   * shortest_path returns the empty array, and so does every later generation.
   */
  lemma {:induction false} EvolveEmptiesSmallPopulation(best: seq<Point>, generations: int, population: int,
                                                        mutations: nat, draws: seq<seq<seq<IndexPair>>>,
                                                        dist: (Point, Point) -> real)
    requires generations <= |draws|
    requires WellDrawn(draws, |best|, population, mutations)
    requires population <= 1 && generations > 0
    ensures Evolve(best, generations, population, mutations, draws, dist) == []
    decreases generations
  {
    EvolveStep(best, generations, population, mutations, draws, dist);
    if generations > 1 {
      var next := NextBest(best, population, mutations, draws[0], dist);
      EvolveEmptiesSmallPopulation(next, generations - 1, population, mutations, draws[1..], dist);
    }
  }

  /**
   * The generation step the comment at drill.py:118 describes: the unmutated
   * survivor is appended to the pool before selection.
   */
  function NextBestKeepingSurvivor(best: seq<Point>, population: int, mutations: nat,
                                   draws: seq<seq<IndexPair>>, dist: (Point, Point) -> real): (next: seq<Point>)
    requires |draws| >= MutantCount(population)
    requires forall j :: 0 <= j < MutantCount(population) ==>
               ValidPairs(draws[j], |best|, PairCount(|best|, mutations))
    ensures Length(next, dist) <= Length(best, dist)
    ensures multiset(next) == multiset(best)
    ensures population <= 1 ==> next == best
  {
    var pool := Mutants(best, mutations, draws, MutantCount(population)) + [best];
    MutantsPermute(best, mutations, draws, MutantCount(population));
    FittestInPool(pool, dist);
    Fittest(pool, dist)
  }

  /** The generational loop with the survivor kept in every pool. */
  function EvolveKeepingSurvivor(best: seq<Point>, generations: int, population: int, mutations: nat,
                                 draws: seq<seq<seq<IndexPair>>>, dist: (Point, Point) -> real): (evolved: seq<Point>)
    requires generations <= |draws|
    requires WellDrawn(draws, |best|, population, mutations)
    decreases generations
  {
    if generations <= 0 then best
    else
      var next := NextBestKeepingSurvivor(best, population, mutations, draws[0], dist);
      assert |next| == |multiset(next)| == |best|;
      WellDrawnRest(draws, |best|, |next|, population, mutations);
      EvolveKeepingSurvivor(next, generations - 1, population, mutations, draws[1..], dist)
  }

  /** One generation of the loop that keeps the survivor. */
  lemma KeepingSurvivorStep(best: seq<Point>, generations: int, population: int, mutations: nat,
                            draws: seq<seq<seq<IndexPair>>>, dist: (Point, Point) -> real)
    requires 0 < generations <= |draws|
    requires WellDrawn(draws, |best|, population, mutations)
    ensures var next := NextBestKeepingSurvivor(best, population, mutations, draws[0], dist);
            WellDrawn(draws[1..], |next|, population, mutations) &&
            EvolveKeepingSurvivor(best, generations, population, mutations, draws, dist)
            == EvolveKeepingSurvivor(next, generations - 1, population, mutations, draws[1..], dist)
  {
    var next := NextBestKeepingSurvivor(best, population, mutations, draws[0], dist);
    assert |next| == |multiset(next)| == |best|;
    WellDrawnRest(draws, |best|, |next|, population, mutations);
  }

  /** Keeping the survivor, no generation lengthens the path and no point is lost or duplicated. */
  lemma {:induction false} SurvivorNeverWorsens(best: seq<Point>, generations: int, population: int, mutations: nat,
                                                draws: seq<seq<seq<IndexPair>>>, dist: (Point, Point) -> real)
    requires generations <= |draws|
    requires WellDrawn(draws, |best|, population, mutations)
    ensures Length(EvolveKeepingSurvivor(best, generations, population, mutations, draws, dist), dist)
            <= Length(best, dist)
    ensures multiset(EvolveKeepingSurvivor(best, generations, population, mutations, draws, dist))
            == multiset(best)
    decreases generations
  {
    if generations > 0 {
      KeepingSurvivorStep(best, generations, population, mutations, draws, dist);
      var next := NextBestKeepingSurvivor(best, population, mutations, draws[0], dist);
      SurvivorNeverWorsens(next, generations - 1, population, mutations, draws[1..], dist);
    }
  }

  /** A population of one returns the input unchanged once the survivor is kept. */
  lemma {:induction false} SurvivorAloneIsKept(best: seq<Point>, generations: int, population: int, mutations: nat,
                                               draws: seq<seq<seq<IndexPair>>>, dist: (Point, Point) -> real)
    requires generations <= |draws|
    requires WellDrawn(draws, |best|, population, mutations)
    requires population <= 1
    ensures EvolveKeepingSurvivor(best, generations, population, mutations, draws, dist) == best
    decreases generations
  {
    if generations > 0 {
      KeepingSurvivorStep(best, generations, population, mutations, draws, dist);
      SurvivorAloneIsKept(best, generations - 1, population, mutations, draws[1..], dist);
    }
  }

  /** The draw that swaps rows 1 and 2 of the unit-square path turns it into the diagonal-crossing order. */
  lemma SwappedCornersCrossDiagonals()
    ensures ValidPairs([(1, 2)], 4, PairCount(4, 50))
    ensures Shuffled(AlongEdges(), 50, [(1, 2)]) == AcrossDiagonals()
  {
    assert Drawn([(1, 2)]) == [1, 2];
  }

  /**
   * As written, one generation can make the path longer: from the unit-square
   * path along the edges, the single mutated copy that swaps rows 1 and 2
   * crosses the diagonals and is selected although it is longer.
   */
  lemma SurvivorDroppedCanWorsen(dist: (Point, Point) -> real)
    requires IsEuclidean(dist)
    ensures WellDrawn([[[(1, 2)]]], 4, 2, 50)
    ensures Length(Evolve(AlongEdges(), 1, 2, 50, [[[(1, 2)]]], dist), dist) > Length(AlongEdges(), dist)
  {
    var draws: seq<seq<seq<IndexPair>>> := [[[(1, 2)]]];
    SwappedCornersCrossDiagonals();
    assert WellDrawn(draws, 4, 2, 50);
    assert Mutants(AlongEdges(), 50, draws[0], 1) == [AcrossDiagonals()];
    EvolveStep(AlongEdges(), 1, 2, 50, draws, dist);
    SquareLengths(dist);
  }

  class DrillPattern {
    /** The validated points, in the order they were given. */
    var path: seq<Point>

    constructor FromPoints(points: seq<Point>)
      ensures path == points
    {
      path := points;
    }

    /** `DrillPattern(input)` (drill.py:73-92): a new object holding the points, or the ValueError. */
    static method Create(input: Value) returns (r: Result<DrillPattern, InitError>)
      ensures r.Success? <==> IsPointRows(input)
      ensures r.Success? ==> fresh(r.value) && r.value.path == Validate(input).value
    {
      var checked := Validate(input);
      if checked.Failure? {
        return Failure(ValueError);
      }
      var pattern := new DrillPattern.FromPoints(checked.value);
      return Success(pattern);
    }

    /**
     * The body of the generation loop (drill.py:106-123): `population` copies of
     * the current best, a mutated copy of each of the first `population - 1`,
     * and the shortest of the mutated copies.
     */
    static method NextGeneration(optimalPath: seq<Point>, population: int, mutations: nat,
                                 draws: seq<seq<IndexPair>>, dist: (Point, Point) -> real)
      returns (next: seq<Point>)
      requires |draws| >= MutantCount(population)
      requires forall j :: 0 <= j < MutantCount(population) ==>
                 ValidPairs(draws[j], |optimalPath|, PairCount(|optimalPath|, mutations))
      ensures next == NextBest(optimalPath, population, mutations, draws, dist)
    {
      var pathSet: seq<seq<Point>> := [];
      var i := 0;
      while i < population
        invariant 0 <= i && |pathSet| == i
        invariant population >= 0 ==> i <= population
        invariant forall t :: 0 <= t < i ==> pathSet[t] == optimalPath
      {
        pathSet := pathSet + [optimalPath];
        i := i + 1;
      }
      var mutated: seq<seq<Point>> := [];
      var j := 0;
      while j < population - 1
        invariant 0 <= j <= MutantCount(population)
        invariant mutated == Mutants(optimalPath, mutations, draws, j)
      {
        var mutant := ShuffleP(pathSet[j], mutations, draws[j]);
        mutated := mutated + [mutant];
        j := j + 1;
      }
      // drill.py:119 appends the survivor to a new array and discards it: the pool is unchanged.
      next := ShortestPath(mutated, dist);
    }

    /** calculate_path (drill.py:94-125), with the random draws of every generation as an argument. */
    method CalculatePath(generations: int, population: int, mutations: nat,
                         draws: seq<seq<seq<IndexPair>>>, dist: (Point, Point) -> real)
      returns (optimalPath: seq<Point>)
      requires generations <= |draws|
      requires WellDrawn(draws, |path|, population, mutations)
      ensures optimalPath == Evolve(path, generations, population, mutations, draws, dist)
      ensures generations <= 0 ==> optimalPath == path
      ensures population > 1 ==> multiset(optimalPath) == multiset(path)
      ensures population <= 1 && generations > 0 ==> optimalPath == []
    {
      optimalPath := path;
      var remaining := generations;
      var unused := draws;
      while remaining > 0
        invariant remaining <= |unused|
        invariant population > 1 ==> multiset(optimalPath) == multiset(path)
        invariant population <= 1 && remaining < generations ==> optimalPath == []
        invariant WellDrawn(unused, |optimalPath|, population, mutations)
        invariant Evolve(optimalPath, remaining, population, mutations, unused, dist)
               == Evolve(path, generations, population, mutations, draws, dist)
      {
        var next := NextGeneration(optimalPath, population, mutations, unused[0], dist);
        EvolveStep(optimalPath, remaining, population, mutations, unused, dist);
        optimalPath := next;
        remaining := remaining - 1;
        unused := unused[1..];
      }
    }

    /** `calculate_path()` with every argument left at its module default (drill.py:94-95). */
    method CalculatePathWithDefaults(draws: seq<seq<seq<IndexPair>>>, dist: (Point, Point) -> real)
      returns (optimalPath: seq<Point>)
      requires GENERATIONS <= |draws|
      requires WellDrawn(draws, |path|, POPULATION, MUTATIONS)
      ensures optimalPath == Evolve(path, GENERATIONS, POPULATION, MUTATIONS, draws, dist)
      ensures multiset(optimalPath) == multiset(path)
    {
      optimalPath := CalculatePath(GENERATIONS, POPULATION, MUTATIONS, draws, dist);
    }
  }
}
