# Logical clocks in Dafny

This project models the two logical clocks of `clock.py` and proves what
they promise. Both clocks follow the same contract. `get_time` ticks and
returns a timestamp that is strictly greater than every timestamp the clock
returned or observed before. `seen_time` merges a received timestamp into
the local state. `export` ticks once and bundles the process id with that
fresh timestamp. `create_from_export` rebuilds a clock whose first tick
exceeds the exported timestamp.

- `ClockBase` (`clock_base.dfy`): the process id (a UUID in clock.py, an
  `int` here, since only equality and the tie-break order are used) and the
  integer `max`.
- `Lamport` (`lamport.dfy`): the scalar clock. A timestamp is
  `(counter, pid)` and is ordered lexicographically, as the ordered
  dataclass derives it. The class `LamportClock` has the two Python
  fields. It also has two ghost sets, `issued` and `observed`, which record
  the timestamps returned and seen. `Valid()` says the counter has caught
  up with all of them.
- `Vector` (`vector.dfy`): the vector clock. A timestamp wraps a finite
  map from pid to count. An absent key is not the same as a 0 entry. `<`
  means: key subset, pointwise at most, and not equal. The class
  `VectorClock` holds the `defaultdict` as a `map<PID, nat>`; reads of
  absent keys go through `Get`, which yields 0. `SeenTime` is clock.py's
  entry-by-entry loop, proved equal to the function `Merge`. `CompareLess`
  is clock.py's `__lt__` loop with its early return, proved equal to the
  predicate `Less`. Both loops pick the next key with the helper lemma
  `NonEmptyHasMember`.
- `ClockScenarios` (`scenarios.dfy`): each test case of `test_clock.py`
  replayed on fresh clocks, with the test's assertion as the postcondition.
  The process ids are parameters.

Timestamps carry `int` counts, because a caller can hand `seen_time` any
integer. Clock state is `nat`: the counter and every frontier entry start
at 0 and only move through `max` and `+ 1`.

The vector `<` does not read an absent key as 0: clock.py:111 first
requires the key set of the smaller timestamp to be a subset of the larger
one's, so `{p: 0} < {}` is false in the model. `create_from_export`
(clock.py:97-100) does not validate the bundle it receives; the model's
bundle is a datatype with both fields, and the untyped inputs Python would
also accept fall under "Dynamic typing" below.

## Model

| member | source | states |
|---|---|---|
| `ClockBase.Max` | clock.py:91 | the result is at least each argument and equals one of them |
| `Lamport.Less` | clock.py:65-70 | the `<` of the ordered dataclass: tuple order, counter first, then pid as tie-break |
| `Lamport.LessIsStrictTotalOrder` | clock.py:65-70 | the lexicographic order on (counter, pid) is irreflexive, asymmetric and transitive; two timestamps are comparable exactly when they differ, so timestamps with different pids are never equal and always ordered one way |
| `Lamport.LessFollowsCounters` | clock.py:65-70 | a larger counter always means a larger timestamp, and a smaller timestamp never has a larger counter |
| `Lamport.ObserveIdempotentCommutes` | clock.py:90-91 | observing the same timestamp twice leaves the counter where observing it once did, and observing two timestamps in either order gives the same counter |
| `Lamport.LamportClock.constructor` | clock.py:80-84 | the clock takes the given pid with counter 0 and no history |
| `Lamport.LamportClock.GetTime` | clock.py:86-88 | the counter grows by exactly 1; the result is (new counter, pid) and is strictly greater than every timestamp returned or observed before |
| `Lamport.LamportClock.SeenTime` | clock.py:90-91 | the counter becomes max(counter, ts.counter) and nothing else changes; `ts` joins the observed set, so the next tick exceeds it |
| `Lamport.LamportClock.Export` | clock.py:93-94 | ticks exactly once; the bundle holds the pid and that fresh timestamp, which exceeds every earlier one |
| `Lamport.LamportClock.CreateFromExport` | clock.py:96-100 | a fresh valid clock with the bundle's pid, counter max(0, ts.counter), and the exported timestamp observed, so its first tick exceeds it |
| `Vector.Less` | clock.py:110-116 | `__lt__` stated declaratively: key subset, no entry larger, and not equal |
| `Vector.DominatedAntisymmetric` | clock.py:110-116 | two frontiers that each dominate the other (key subset and pointwise at most) are equal |
| `Vector.DominatedTransitive` | clock.py:110-116 | domination is transitive |
| `Vector.LessIrreflexiveAsymmetric` | clock.py:110-116 | no timestamp is below itself, and `a < b` rules out `b < a` |
| `Vector.LessTransitive` | clock.py:110-116 | `a < b` and `b < c` give `a < c`, so `<` is a strict partial order |
| `Vector.CompareLess` | clock.py:110-116 | clock.py's loop with early return yields true exactly when the keys of `a` are a subset of `b`'s, no entry of `a` exceeds `b`'s, and `a != b` |
| `Vector.Get` | clock.py:130-138 | a `defaultdict(int)` read: the stored count, or 0 for an absent key |
| `Vector.Merge` | clock.py:136-138 | the merged key set is the union of both key sets, and the merge dominates both the local frontier and the observed one |
| `Vector.MergeLeavesOtherEntries` | clock.py:136-138 | an entry the observed timestamp does not carry, such as the clock's own, keeps its presence and its value |
| `Vector.MergeIsLeastUpperBound` | clock.py:136-138 | every frontier that dominates both inputs dominates the merge |
| `Vector.MergeIdempotent` | clock.py:136-138 | observing a timestamp twice leaves the same frontier as observing it once |
| `Vector.MergeCommutes` | clock.py:136-138 | observing two timestamps in either order leaves the same frontier |
| `Vector.MergeStep` | clock.py:137-138 | one iteration of the merge loop updates exactly the current key to the max of the old entry (0 when absent) and the observed one |
| `Vector.TickIsStrictlyGreater` | clock.py:132-134 | bumping the own entry (from 0 when absent) gives a timestamp strictly greater than every timestamp the old frontier dominated |
| `Vector.VectorClock.constructor` | clock.py:126-130 | the clock takes the given pid with an empty frontier and no history |
| `Vector.VectorClock.GetTime` | clock.py:132-134 | only the own entry changes, going up by 1 or being inserted as 1; the result is a snapshot of the new frontier and is strictly greater than every timestamp returned or observed before |
| `Vector.VectorClock.SeenTime` | clock.py:136-138 | the frontier becomes the merge of the old one with `ts` (key union, pointwise max), with no tick; `ts` joins the observed set |
| `Vector.VectorClock.Export` | clock.py:140-141 | ticks exactly once; the bundle holds the pid and that fresh snapshot, which exceeds every earlier timestamp |
| `Vector.VectorClock.CreateFromExport` | clock.py:143-147 | a fresh valid clock with the bundle's pid whose frontier is the exported timestamp merged into an empty one, with that timestamp observed, so its first tick exceeds it |
| `ClockScenarios.LamportTicksIncrease` | test_clock.py:6-11 | two successive Lamport ticks are ordered |
| `ClockScenarios.VectorTicksIncrease` | test_clock.py:6-11 | two successive vector ticks are ordered |
| `ClockScenarios.LamportCommunication` | test_clock.py:14-29 | after two Lamport clocks exchange first timestamps, each next tick exceeds both |
| `ClockScenarios.VectorCommunication` | test_clock.py:14-29 | after two vector clocks exchange first timestamps, each next tick exceeds both |
| `ClockScenarios.LamportFreshClocksOrdered` | test_clock.py:32-35 | first ticks of two fresh Lamport clocks with distinct pids are unequal and ordered one way |
| `ClockScenarios.VectorFreshClocksConcurrent` | test_clock.py:38-44 | first ticks of two fresh vector clocks with distinct pids are unequal and neither is below the other |
| `ClockScenarios.LamportRestore` | test_clock.py:47-64 | a Lamport clock restored from an export keeps the pid, and its first tick exceeds the timestamp read before the export |
| `ClockScenarios.VectorRestore` | test_clock.py:47-64 | a vector clock restored from an export keeps the pid, and its first tick exceeds the timestamp read before the export |
| `ClockScenarios.VectorSubsetScenario` | clock.py:110-138 | a ticks twice, b once, a observes b and ticks: a's timestamp is {a: 3, b: 1}, b's {b: 1} is below it, and not the reverse |

## Left out

- Random pids: `uuid.uuid4()` (clock.py:81-82, 127-128) is random and a foreign call. The pid is a constructor argument. Where the tests rely on fresh clocks having different ids, the scenarios require distinct pids.
- The abstract base class and its generic type parameters (clock.py:13-59) are not modelled as code. The shared contract appears as the same-shaped contracts of the two classes, built on `issued`, `observed` and `Valid()`.
- Derived comparisons other than `<` and `==` (`<=`, `>`, `>=` of the ordered dataclass) are not modelled: neither the code nor its tests use them.
- Copying and aliasing: `dict(self.clocks)` (clock.py:134) makes the snapshot independent of the live frontier. Dafny maps are values, so this independence holds automatically and is not stated separately.
- Iteration order: `seen_time` walks the dict in insertion order. The model picks keys in an unspecified order. The result is the same for every order because each key is written once.
- Dynamic typing: passing a value of the wrong type (a vector timestamp to a Lamport clock, say, or a bundle whose pid is `None`, for which clock.py:81-82 would draw a random pid) is ruled out by Dafny's types.
- Counter overflow: Python integers are unbounded, and so are Dafny's.
- Concurrency: the code has none. Each clock is used by one thread of control.
- The pytest harness itself: `test_clock.py` is replayed as scenario methods, not modelled as code.
