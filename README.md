# Tuple space: a Dafny model of the sequential engine

This project models the engine of a Linda-style tuple space. Producers `put`
tuples of `int`, `double` and `std::string` values into a shared multiset.
Consumers retrieve a tuple by giving a pattern. Each position of a pattern is
either a literal value or a typed pointer (a wildcard). The wildcard's pointer
receives the stored value when the tuple matches. Retrieval can copy
(`try_copy`, `copy`) or take (`try_take`, `take`).

The repository holds the engine twice: class `tuplespace` in `tuplespace.hpp`
and class `simpletuplespace` in `tuplespace.cpp:18-139`. Apart from
synchronisation, the two run the same algorithm on the store. Their `put`
differs in how it uses the locks. `tuplespace.cpp:111-118` takes `mutex`
before `cv_mutex` and calls `notify_all` while still holding `mutex`.
`tuplespace.hpp:115-122` takes `cv_mutex` first and notifies after releasing
both. Locks and notification are not modelled, so one Dafny class,
`TupleSpaces.TupleSpace`, models both. Rows below cite whichever copy states
the property. The corresponding lines in `tuplespace.cpp` sit a few lines
earlier, and the offset varies. For example, `tuplespace.hpp:51-61` is
`tuplespace.cpp:49-59`, `tuplespace.hpp:71-75` is `tuplespace.cpp:69-72`, and
`tuplespace.hpp:94-106` is `tuplespace.cpp:91-102`.

Files:

- `tuples.dfy`, module `Tuples`: values, kinds, tuples, pattern elements, the
  per-position `match` rule as the source computes it (`index() / 2` on the
  variant), the whole-tuple match, and the writes made to the caller's
  variables. A wildcard is `Wild(kind, slot)`, where `slot` names the caller
  variable its pointer refers to. The caller's variables are a
  `map<Slot, Value>`, and writes happen position by position from the left.
- `tuplespace.dfy`, module `TupleSpaces`: the class with the store
  (`multiset<Tuple>`, the `std::multiset` field). It has the scan loop, the
  per-tuple matching loop and the write-back loop as methods with loop
  invariants, and `put`, `try_copytake`, `try_copy`, `try_take`, `copytake`,
  `copy` and `take`.
- `scenarios.dfy`, module `Scenarios`: the sequential checks of the two
  `main` functions (`test.cpp:44-127`, `tuplespace.cpp:182-218`). The blocking
  `take` runs after the `put` that satisfies it. The stress test then runs on
  the same store: its producers first, then a single taker. The drained total
  is proved equal to the expected figure, and the three tuples left over from
  the earlier checks are proved to remain.

`try_copytake` with `remove` unset modifies nothing
(`modifies if remove then {this} else {}`). So `TryCopy` and `Copy` carry no
`modifies` clause. The verifier's frame check on `modifies` then guarantees
that they leave the store alone.

## Model

| member | source | states |
|---|---|---|
| `Tuples.PElemIndex` | tuplespace.hpp:28 | the pattern element's alternative in `variant<int, int*, double, double*, string, string*>` is below 6, and it is odd exactly when the element is a pointer (wildcard) |
| `Tuples.ElemMatches` | tuplespace.hpp:51-61 | the index-arithmetic test (`index()/2` equal, odd index accepts, else variant equality) holds exactly when a wildcard's kind is the stored value's kind, or a literal equals the stored value |
| `Tuples.ArityMismatchNeverMatches` | tuplespace.cpp:44-46 | a pattern never matches a stored tuple of a different arity |
| `Tuples.MatchesByKind` | tuplespace.cpp:48-63 | a pattern matches a tuple iff the arities agree, every position has the kind the pattern asks for, and every literal equals the stored value (both directions) |
| `Tuples.OneMismatchFailsAll` | tuplespace.cpp:61-62 | one position with the wrong kind, or one literal with a different value, makes the whole tuple fail |
| `Tuples.BindLeavesOtherSlots` | tuplespace.hpp:68-76 | a variable no wildcard points to keeps its value, or stays unset; literal positions write nothing |
| `Tuples.BindBindsWildcards` | tuplespace.hpp:71-75 | after the write-back every wildcard's variable holds a value, and the set of set variables grows by exactly the wildcard variables |
| `Tuples.BindWritesWildcards` | tuplespace.cpp:66-73 | when no two wildcards share a variable, each wildcard's variable holds the stored value at the wildcard's position |
| `Tuples.RebuildFromMemory` | tuplespace.hpp:94-106 | as written: the result of `copytake` is read back from the literals and the wildcard variables, and has the pattern's arity |
| `Tuples.RebuildMatched` | tuplespace.cpp:91-102 | rebuilding in pattern order from the literals and the matched values gives exactly the matched tuple |
| `Tuples.RebuildFromMemoryDistinct` | tuplespace.hpp:95-105 | when no two wildcards share a variable, reading the result back from the variables after the write-back gives the matched tuple |
| `Tuples.AliasedWildcardsReadBackWrongTuple` | tuplespace.hpp:100 | two wildcards pointing to one `int` variable: `{1, 2}` matches, but the read-back result is `{2, 2}`, while the corrected rebuild gives `{1, 2}` |
| `TupleSpaces.MatchTuple` | tuplespace.hpp:46-65 | the per-tuple test (arity first, then each position, leaving at the first mismatch) returns true exactly when the pattern matches the tuple |
| `TupleSpaces.WriteBindings` | tuplespace.hpp:68-76 | the write-back loop leaves the caller's variables exactly as the left-to-right writes of the wildcards define |
| `TupleSpaces.TupleSpace.constructor` | tuplespace.hpp:31 | a new tuple space stores nothing |
| `TupleSpaces.TupleSpace.Put` | tuplespace.hpp:114-122 | the store gains exactly one occurrence of the tuple; duplicates are not merged, so the tuple's count and the size both rise by one |
| `TupleSpaces.TupleSpace.Find` | tuplespace.hpp:40-85 | the scan reports a hit exactly when some stored tuple matches, and on a hit returns a stored tuple that matches |
| `TupleSpaces.TupleSpace.TryCopyTake` | tuplespace.hpp:33-86 | returns true iff some stored tuple matches; on a hit the variables receive that tuple's values and, if `remove` is set, exactly that one occurrence is erased; on a miss neither the store nor any variable changes |
| `TupleSpaces.TupleSpace.TryTake` | tuplespace.hpp:124-127 | on success exactly one occurrence of one matching tuple is removed (its count drops by one, the size by one, all else stays); on failure nothing changes |
| `TupleSpaces.TupleSpace.TryCopy` | tuplespace.hpp:129-132 | returns true iff some stored tuple matches, binds the variables to one matching tuple's values, and never changes the store |
| `TupleSpaces.TupleSpace.CopyTake` | tuplespace.hpp:88-111 | one successful attempt, given that some stored tuple matches: the result is a matching stored tuple, the variables hold its values, and with `remove` one occurrence of it is erased |
| `TupleSpaces.TupleSpace.Take` | tuplespace.hpp:134-137 | returns a matching stored tuple and removes one occurrence of it |
| `TupleSpaces.TupleSpace.Copy` | tuplespace.hpp:139-142 | returns a matching stored tuple, with the pattern's arity and every literal given back as written; the store is only read |
| `Scenarios.ExactCopy` | test.cpp:50 | `try_copy(3, 1.2, "meow", 4)` succeeds on the filled store |
| `Scenarios.LiteralMismatchCopy` | tuplespace.cpp:189 | `try_copy(3, 1.2, "thiswillfail", 4)` fails |
| `Scenarios.WildcardCopy` | tuplespace.cpp:191-193 | `try_copy(&p, 1.2, "meow", 4)` succeeds and binds `p` to 3 |
| `Scenarios.RepeatedCopy` | test.cpp:57-60 | `try_copy(44, "meow")` succeeds three times running and `copy(44, "meow")` returns `{44, "meow"}` |
| `Scenarios.TakeChecks` | tuplespace.cpp:199-200 | with one `{44, "meow"}` stored, `try_take(44, "meow")` succeeds once, then fails; both copies of `{3, 1.2, "meow", 4}` remain |
| `Scenarios.SequentialChecks` | tuplespace.cpp:183-200 | the whole fixed sequence of puts and retrievals gives `true, false, true, true, true, true, true, false`, `p == 3` and the copy `{44, "meow"}` |
| `Scenarios.BlockingTakeInt` | test.cpp:64-79 | after the fixed sequence, `put("aqq", "zzz")` and `put("qqq", 777)`, `take("qqq", &v)` returns `{"qqq", 777}`, binds `v` to 777, and leaves exactly two `{3, 1.2, "meow", 4}` and one `{"aqq", "zzz"}` |
| `Scenarios.BlockingTakeString` | tuplespace.cpp:202-215 | after `put("aqq", "zzz")` and `put("qqq", "zzz")`, `take("qqq", &s)` returns `{"qqq", "zzz"}` and binds `s` to "zzz" |
| `Scenarios.SumSecondsPermutation` | test.cpp:116-118 | the total of the drained values does not depend on the order in which tuples are taken |
| `Scenarios.BatchMatches` | test.cpp:89 | every tuple `("threadtest", j)` a producer puts matches the takers' pattern `("threadtest", &val)` of test.cpp:105 |
| `Scenarios.BatchSum` | test.cpp:88-90 | the numbers one producer puts add up to `0 + 1 + ... + (limit - 1)` |
| `Scenarios.BatchesLength` | test.cpp:85-92 | `nthreads` producers put `nthreads * limit` tuples in all |
| `Scenarios.ProduceOne` | test.cpp:86-91 | one producer adds exactly the batch `("threadtest", 0), ..., ("threadtest", limit - 1)` to the store, in that order, keeping every tuple already stored; all of them match the takers' pattern and their values sum to `0 + ... + (limit - 1)` |
| `Scenarios.Produce` | test.cpp:82-95 | starting from any store, the producers add exactly `nthreads` such batches, one after the other, and keep every tuple already stored; all added tuples match the takers' pattern and their values sum to `nthreads * (0 + ... + (limit - 1))` |
| `Scenarios.Drain` | test.cpp:103-108 | `try_take("threadtest", &val)` until failure: afterwards no stored tuple matches, the taken tuples are exactly the matching ones removed from the store, and the sum is the sum of their second components |
| `Scenarios.ThreadTest` | test.cpp:81-127 | on any store where no tuple matches `("threadtest", &val)`, with producers and taker run one after the other: every tuple put is taken back, the store ends exactly as it began, and the total is `nthreads * (limit - 1) * limit / 2` |
| `Scenarios.TestMain` | test.cpp:44-127 | the whole test program on one store: the blocking take returns `{"qqq", 777}` with `v == 777`, the stress test's total is `nthreads * (limit - 1) * limit / 2`, and the store ends holding two `{3, 1.2, "meow", 4}` and one `{"aqq", "zzz"}` |

## Left out

- The two mutexes, the condition variable, `notify_all` and `wait` (`tuplespace.hpp:22-26`, `91`, `109`, `117-121`) are left out. The model is sequential, so every operation is atomic by construction. The two classes take the locks in different orders, and that difference is not modelled.
- The retry loop of `copytake` (`tuplespace.hpp:90-110`) is left out. `CopyTake`, `Copy` and `Take` model the one successful attempt, under the precondition that some stored tuple matches. On a pattern that nothing matches, the source blocks until another thread puts a match, or forever.
- Which matching tuple is chosen is left open. The source takes the first one in `std::multiset` order (lexicographic over the variant). The model picks any unvisited stored tuple at each step of the scan, so its contracts say only "some matching tuple".
- `double` is modelled as the real number it denotes. NaN, signed zero and the rounding of literals such as `1.2` are not modelled; the source only compares doubles for equality.
- `put` with pointer arguments (which would store a pointer alternative in the store) is left out. Stored tuples hold values only.
- Tuple printing (`operator<<`, `tuplespace.hpp:145-153`), the ANSI `escapes` class, `isatty` and the `test` reporting helper are console output and are not modelled.
- Threads, sleeps and joins in the drivers are left out. The stress test runs its producers one after the other, then one taker, instead of `hardware_concurrency()` concurrent takers. The per-thread `sums` are therefore one sum.
- Scenarios.ThreadTest: the total is an unbounded integer. The C++ `int` total and the test's `nthreads * (limit - 1) * limit / 2` would overflow for large thread counts, and that overflow is not modelled.
- Scenarios.TestMain: the same unbounded total as `Scenarios.ThreadTest`; the C++ `int` overflow is not modelled.
- Scenarios.Drain: `sum` is an unbounded integer, whereas the taker's `sums[i]` (test.cpp:99, 107) is a C++ `int` that would overflow for large totals; that overflow is not modelled.
- TupleSpaces.TupleSpace.CopyTake: the result is rebuilt from the matched tuple rather than read back through the wildcard pointers (see Findings). The two agree whenever no two wildcards point to the same variable (`Tuples.RebuildFromMemoryDistinct`).
- TupleSpaces.TupleSpace.Take: returns the result of `CopyTake`, so it too gives back the matched tuple rather than the values read back through the wildcard pointers (see Findings).
- TupleSpaces.TupleSpace.Copy: the same as `Take`; with two wildcards on one variable, the source's `copy` can return a tuple that was never stored, and the model's does not.
- `StringVal(s: string)` holds a Dafny `string`, a sequence of Unicode characters, whereas `std::string` is a sequence of bytes. Encodings are not modelled, because the source only compares strings for equality.

## Findings

| source | as written | input that shows it | evidently intended | confidence | as-written member | corrected member |
|---|---|---|---|---|---|---|
| tuplespace.hpp:94-106 (same in tuplespace.cpp:91-102) | `copytake` rebuilds its result by reading each wildcard's variable through its pointer after the scan has written them all | `take(&v, &v)` with `{1, 2}` stored: the scan writes `v = 1` then `v = 2`, `{1, 2}` is erased, and the returned tuple is `{2, 2}`, which was never stored | `copy`/`take` return the matched tuple | medium; not executed | `Tuples.AliasedWildcardsReadBackWrongTuple` | `Tuples.RebuildMatched` |
