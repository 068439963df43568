# Drill-pattern optimiser, modelled in Dafny

This project models `drill.py`, a small evolutionary optimiser for the order in which to visit
(drill) a set of 2D points. The tour is an open path, so the way back to the start is not counted.
The four parts of the program each map to a module:

- **Mutation** (`mutation.dfy`). `shuffle_p` computes `num = N*p/100` and draws `int(num/2)`
  pairs of distinct row indices. It then swaps the rows of each pair, one pair after another, in a
  copy of the array. The early return when `num == 0` is its own branch.
- **Fitness** (`fitness.dfy`). `path_length` sums the distances between consecutive points and
  never adds the closing edge.
- **Selection** (`selection.dfy`). `shortest_path` scans the candidates with a running minimum that
  starts at `np.inf` and updates only on a strict `<`. So the first of several equally short
  paths wins. An empty list gives the empty array.
- **Driver** (`driver.dfy`). The class `DrillPattern` checks in its constructor that the input
  forms an N×2 array, and it keeps the points in its field `path`. `calculate_path` runs
  `generations` rounds. Each round makes `population - 1` mutated copies of the current best
  order and keeps the shortest of those copies.
- `results.dfy` holds the Option and Result types.

Randomness is an explicit input. `ShuffleP` receives the index pairs that `np.random.choice`
would return. The precondition `ValidPairs` says what such a draw always is: `floor(N*p/200)`
pairs, every index a row, all of them distinct. `CalculatePath` receives one such draw for every
mutated copy of every generation (`WellDrawn`). Every property below holds for every draw.

The distance is a parameter `dist`. Lemmas that need the Euclidean distance require
`IsEuclidean(dist)`. This predicate says that `dist(a, b)` is the non-negative number whose square
is `dx² + dy²`, which pins down the square root without computing it.

Every loop in the source is a `method` with a `while` or `for` loop. Each method is proved against
a specification function: `Shuffled`, `Length`, `Fittest`/`FirstShortest`, `NextBest` and
`Evolve`. The program's guarantees are then proved as lemmas about those functions.

## Model

| member | source | states |
|---|---|---|
| Mutation.Swap | drill.py:32-34 | the transposition matrix product exchanges rows `a` and `b` and leaves every other row in place |
| Mutation.ShuffleP | drill.py:11-36 | the loop's result is `Shuffled(ar, p, pairs)`; with `p == 0` it is `ar` itself; it has the same multiset of rows as `ar`; rows at positions no pair names are unchanged; at most `floor(N*p/100)` positions change |
| Mutation.ShuffledPermutes | drill.py:20-34 | on either branch the result has the same length and the same multiset of rows as the input |
| Mutation.SwapsPermute | drill.py:27-34 | applying any in-range transpositions in order keeps the multiset of rows |
| Mutation.SwapsTouchOnlyDrawn | drill.py:25-34 | a position named by no drawn pair keeps its row |
| Mutation.DrawnSetIsDrawn | drill.py:25 | the set of drawn positions is exactly the indices in the drawn sequence, so the distinctness `ValidPairs` demands and the untouched-position guarantee speak of the same indices |
| Mutation.DrawnSetSize | drill.py:25 | `k` pairs name at most `2k` positions |
| Mutation.TwicePairCount | drill.py:18-25 | `2*floor(x/200) <= floor(x/100)`: the drawn positions never exceed `num` |
| Mutation.ChangedAtMostRate | drill.py:17-34 | the changed positions are a subset of the drawn ones, and there are at most `2*floor(N*p/200) <= floor(N*p/100)` of them |
| Mutation.HalfRate | drill.py:18-25 | at a rate of at most 50 percent, `2*floor(N*p/200) <= floor(N/2)` |
| Mutation.HalfKept | tests.py:16-30 | at a rate of at most 50 percent, at least `floor(N/2)` rows keep their position, for every draw |
| Fitness.PathLength | drill.py:38-47 | the accumulated sum equals `Length(path, dist)`, the sum of `dist(path[i], path[i+1])` over `i` in `[0, N-2]`; it is 0 for fewer than two points |
| Fitness.LengthNonNegative | drill.py:43-47 | with a non-negative distance the path length is non-negative |
| Fitness.LengthFirstEdge | drill.py:44-46 | the length is the first edge plus the length of the rest of the path |
| Fitness.OpenPathOmitsReturn | drill.py:39-44 | closing the tour costs exactly the last-to-first edge on top of the length, so that edge is not counted |
| Fitness.LengthReversed | drill.py:44-46 | with a symmetric distance, the reversed path has the same length |
| Fitness.EuclideanIsSymmetric | drill.py:45-46 | the Euclidean distance is non-negative and symmetric |
| Fitness.SquareLengths | tests.py:32-36 | the unit-square path `[[1,1],[1,2],[2,2],[2,1]]` has length 3, and the order `[[1,1],[2,2],[1,2],[2,1]]` is longer |
| Selection.FirstShortest | drill.py:54-63 | the index the scan settles on is a valid index into the non-empty pool |
| Selection.FirstShortestIsFirstMinimum | drill.py:57-62 | that index names a path no longer than any other and strictly shorter than every path before it (first wins on ties) |
| Selection.FittestInPool | drill.py:57-63 | on a non-empty list the selected path is one of the candidates and no candidate is shorter |
| Selection.ShortestPath | drill.py:49-63 | the scan returns `Fittest(pool)`: `[]` for an empty list, otherwise `pool[k]` for the first `k` of least length |
| Selection.SquareSelection | drill.py:57-62 | of the two orders of the unit square, the one along the edges is selected |
| Driver.CommonShapeAll | drill.py:78-85 | a non-ragged list has a shape exactly when all its items have that same shape |
| Driver.MatrixShape | drill.py:84-86 | the array shape is `(N, 2)` exactly when the input is a non-empty list of rows of two numbers |
| Driver.Validate | drill.py:77-92 | validation succeeds if and only if the input is N ≥ 1 rows of two numbers, and then yields those points in order; otherwise a ValueError |
| Driver.DrillPattern.FromPoints | drill.py:87 | the object stores the validated points as its path |
| Driver.DrillPattern.Create | drill.py:73-92 | construction succeeds exactly on N×2 input and stores the points; otherwise it returns the ValueError and creates no object |
| Driver.Mutants | drill.py:114-116 | one generation makes exactly `population - 1` mutated copies (none when `population <= 1`) |
| Driver.MutantsPermute | drill.py:114-116 | every mutated copy is a rearrangement of the current best path |
| Driver.NextBest | drill.py:106-123 | one generation: with `population > 1` the new best is a rearrangement of the old one; with `population <= 1` it is the empty array |
| Driver.EvolvePermutes | drill.py:104-125 | with `population > 1`, the result after any number of generations is a permutation of the input |
| Driver.EvolveEmptiesSmallPopulation | drill.py:114-123 | with `population <= 1` and at least one generation, the result is the empty array |
| Driver.DrillPattern.NextGeneration | drill.py:106-123 | building `population` copies, mutating the first `population - 1` and selecting among the mutants yields `NextBest` |
| Driver.DrillPattern.CalculatePath | drill.py:94-125 | the loop returns `Evolve(path, ...)`; with `generations <= 0` the stored path itself; with `population > 1` a permutation of it; with `population <= 1` and `generations > 0` the empty array |
| Driver.DrillPattern.CalculatePathWithDefaults | drill.py:94-95 | with the module defaults (10 generations, population 10, rate 100) the result is a permutation of the stored path |
| Driver.SwappedCornersCrossDiagonals | drill.py:25-34 | the draw `[(1, 2)]` is valid for 4 rows at 50 percent and turns the edge-order square path into the diagonal-crossing order |
| Driver.SurvivorDroppedCanWorsen | drill.py:118-123 | as written, one generation from the unit-square path (population 2, rate 50, draw `[(1, 2)]`) returns a strictly longer path |
| Driver.NextBestKeepingSurvivor | drill.py:118-119 | with the survivor kept in the pool, one generation never lengthens the path, preserves the multiset of points, and is the identity when `population <= 1` |
| Driver.SurvivorNeverWorsens | drill.py:118-123 | with the survivor kept, after any number of generations the length is at most the input's and the points are a permutation of the input |
| Driver.SurvivorAloneIsKept | drill.py:115-123 | with the survivor kept and `population <= 1`, the result is the input unchanged |

## Findings

| source | as written | input that shows it | evidently intended | confidence | as-written member | corrected member |
|---|---|---|---|---|---|---|
| drill.py:118-119 | `np.append(mutated_path_set, optimal_path)` returns a new array that is thrown away, so only the mutated copies are selected from | path `[[1,1],[1,2],[2,2],[2,1]]`, 1 generation, population 2, rate 50, draw `[(1, 2)]`: the result `[[1,1],[2,2],[1,2],[2,1]]` has length 1+2√2 > 3 | the comment at drill.py:118 says the survivor is kept "to prevent devolution": the best length never grows | high; not executed | Driver.SurvivorDroppedCanWorsen | Driver.SurvivorNeverWorsens |
| drill.py:115-123 | with `population == 1` the list of mutated copies is empty and `shortest_path` returns `np.array([])` | any path, 1 generation, population 1 | the only candidate, the survivor, is returned unchanged | high; not executed | Driver.EvolveEmptiesSmallPopulation | Driver.SurvivorAloneIsKept |

`Driver.DrillPattern.CalculatePath` models the code as written. The corrected step is
`Driver.NextBestKeepingSurvivor`, which appends the survivor to the pool as line 119 intended. Its
loop is `Driver.EvolveKeepingSurvivor`. Note also that `np.append` without an axis would flatten
the arrays, so assigning its result would not have produced a list of paths either.

## Left out

- Randomness: `np.random.choice` (drill.py:25) is replaced by draws the caller supplies and that
  satisfy `ValidPairs`. Probabilities and uniformity are not modelled.
- Floating point: `np.sqrt` and float arithmetic in `path_length` (drill.py:45-46) are replaced by
  the `dist` parameter. So is the conversion to float that `np.identity`/`np.dot` cause
  (drill.py:32-34). Rows are treated as opaque values and compared exactly. A `Point` has real
  coordinates, so non-finite ones are excluded: with an `inf` or `nan` coordinate, `np.dot` would
  compute `0*inf = nan` and turn that whole column into NaN rather than swap rows.
- Mutation.ShuffleP: `num` and `int(num/2)` are exact rationals (`N*p == 0`, `floor(N*p/200)`).
  Float rounding of `N*p/100` is not modelled. Under Python 2 integer division `num` would be 0
  for `0 < N*p < 100` as well. The returned rows are the same either way, because no pair is
  drawn then.
- Mutation.ShuffleP: the rate `p` is a natural number. Negative rates are not modelled (the
  source either draws no pairs or raises from `np.random.choice` for them). A rate too high to
  draw distinct pairs leaves `ValidPairs` unsatisfiable, just as the source raises.
- Aliasing: NumPy arrays are modelled as values. The source never updates an array of points in
  place (`np.copy` and `np.dot` build new arrays). Its one in-place write, at drill.py:33, goes
  into a fresh identity matrix, which `Swap` renders as a value update. So only object identity
  is lost. For example, the `num == 0`
  branch returns the argument object itself. That `shuffle_p` leaves its argument unchanged
  holds by construction.
- Driver.Validate: the input is numbers and nested lists only. Strings and other non-numeric
  leaves, which the shape check alone would accept, are not modelled. `Shape` follows NumPy 1.24
  and later, where `np.array(path)` (drill.py:78) raises ValueError for input that is ragged at
  any depth; the handler re-raises it (drill.py:79-81). The model merges that error with the one
  the shape check raises (drill.py:92). Older NumPy builds an object array from ragged input
  instead. For a list that is ragged only below its second level, such as
  `[[[1],[2]],[[3],[4,5]]]`, that object array has shape (2, 2) and passes drill.py:85-86,
  whereas `Validate` rejects it. The `print` of the error message (drill.py:80,91) is left out.
- The default argument `p=100` of `shuffle_p` is not a separate member, because the core always
  passes the rate. The defaults of `calculate_path` are the constants `GENERATIONS`, `POPULATION`
  and `MUTATIONS`, used by `CalculatePathWithDefaults`.
- tests.py calls `shuffle_p` and `path_length` as attributes of `DrillPattern`, which they are
  not. Only its assertions are modelled, as `HalfKept`, `ShuffleP`'s `p == 0` clause and
  `SquareLengths`.
