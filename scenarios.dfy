/** The sequential parts of the two driver programs, restated as calls on
    the model:
    the fixed sequence of puts and retrievals, the blocking take once its
    tuple has been put, and the put-everything-then-drain stress test with
    a single taker. */
module Scenarios {
  import opened Tuples
  import opened TupleSpaces

  /** The second component of a `("threadtest", j)` tuple, as an `int`. */
  function Second(t: Tuple): int
  {
    if |t| >= 2 && t[1].IntVal? then t[1].i as int else 0
  }

  /** The sum of the second components of a sequence of tuples. */
  function SumSeconds(ts: seq<Tuple>): int
  {
    if ts == [] then 0 else SumSeconds(ts[..|ts| - 1]) + Second(ts[|ts| - 1])
  }

  lemma {:induction false} SumSecondsAppend(a: seq<Tuple>, b: seq<Tuple>)
    ensures SumSeconds(a + b) == SumSeconds(a) + SumSeconds(b)
    decreases |b|
  {
    if b == [] {
      assert a + b == a;
    } else {
      var b' := b[..|b| - 1];
      assert (a + b)[..|a + b| - 1] == a + b';
      SumSecondsAppend(a, b');
    }
  }

  lemma SumSecondsSingle(x: Tuple)
    ensures SumSeconds([x]) == Second(x)
  {
  }

  lemma SumSecondsRemoveAt(b: seq<Tuple>, k: nat)
    requires k < |b|
    ensures SumSeconds(b) == SumSeconds(b[..k] + b[k + 1..]) + Second(b[k])
  {
    var u, x, v := b[..k], b[k], b[k + 1..];
    var w := b[..k + 1];
    assert w == u + [x];
    assert b == w + v;
    SumSecondsAppend(w, v);
    SumSecondsAppend(u, [x]);
    SumSecondsSingle(x);
    SumSecondsAppend(u, v);
  }

  lemma MultisetRemoveAt(b: seq<Tuple>, k: nat)
    requires k < |b|
    ensures multiset(b[..k] + b[k + 1..]) == multiset(b) - multiset{b[k]}
  {
    assert b == b[..k] + [b[k]] + b[k + 1..];
  }

  /** The sum does not depend on the order of the tuples: two sequences
      holding the same multiset of tuples have the same sum. */
  lemma {:induction false} SumSecondsPermutation(a: seq<Tuple>, b: seq<Tuple>)
    requires multiset(a) == multiset(b)
    ensures SumSeconds(a) == SumSeconds(b)
    decreases |a|
  {
    if a == [] {
      assert |b| == |multiset(b)| == 0;
    } else {
      var x := a[|a| - 1];
      var a' := a[..|a| - 1];
      assert a == a' + [x];
      assert x in multiset(b);
      var k :| 0 <= k < |b| && b[k] == x;
      MultisetRemoveAt(b, k);
      SumSecondsPermutation(a', b[..k] + b[k + 1..]);
      SumSecondsRemoveAt(b, k);
    }
  }

  /** The pattern `("threadtest", &val)`; `val` is variable 0. */
  function ThreadTestPattern(): Pattern
  {
    [Lit(StringVal("threadtest")), Wild(IntKind, 0)]
  }

  /** One round of the taker's loop: `val` receives the taken tuple's
      number, which the sum then accounts for, and the tuple moves from the
      store to the taken ones. */
  lemma DrainStep(taken: seq<Tuple>, store: multiset<Tuple>, t: Tuple)
    requires Matches(ThreadTestPattern(), t) && t in store
    ensures 0 in Bind(map[], ThreadTestPattern(), t)
    ensures Bind(map[], ThreadTestPattern(), t)[0] == t[1] && t[1].IntVal?
    ensures SumSeconds(taken + [t]) == SumSeconds(taken) + t[1].i as int
    ensures multiset(taken + [t]) + (store - multiset{t}) == multiset(taken) + store
  {
    BindWritesWildcards(map[], ThreadTestPattern(), t, 1);
    assert (taken + [t])[..|taken|] == taken;
    assert multiset(taken + [t]) == multiset(taken) + multiset{t};
  }

  /** One taker's loop: `try_take` until it fails, adding up the values
      bound to `val`. Afterwards no tuple of the store matches; the taken
      tuples are exactly the matching ones that were stored, and the sum is
      the sum of their second components. */
  method Drain(s: TupleSpace) returns (sum: int, ghost taken: seq<Tuple>)
    modifies s
    ensures multiset(taken) + s.tuples == old(s.tuples)
    ensures forall t :: t in taken ==> Matches(ThreadTestPattern(), t)
    ensures forall t :: t in s.tuples ==> !Matches(ThreadTestPattern(), t)
    ensures sum == SumSeconds(taken)
  {
    var goal := ThreadTestPattern();
    sum, taken := 0, [];
    while true
      invariant multiset(taken) + s.tuples == old(s.tuples)
      invariant forall t :: t in taken ==> Matches(goal, t)
      invariant sum == SumSeconds(taken)
      decreases |s.tuples|
    {
      // `int val;` is declared afresh in every round
      var found, val;
      ghost var before := s.tuples;
      found, val := s.TryTake(goal, map[]);
      if !found {
        break;
      }
      ghost var t :| t in before && Matches(goal, t) && val == Bind(map[], goal, t)
                     && s.tuples == before - multiset{t};
      DrainStep(taken, before, t);
      sum := sum + val[0].i as int;
      taken := taken + [t];
    }
  }

  /** `0 + 1 + ... + (n - 1)`. */
  function Triangle(n: nat): int
  {
    if n == 0 then 0 else Triangle(n - 1) + (n - 1)
  }

  lemma {:induction false} TriangleClosedForm(n: nat)
    ensures 2 * Triangle(n) == n * (n - 1)
  {
    if n > 0 {
      TriangleClosedForm(n - 1);
    }
  }

  /** The figure the stress test compares with: `nthreads * (limit - 1) * limit / 2`. */
  lemma ExpectedTotal(nthreads: nat, limit: nat)
    ensures nthreads * (limit - 1) * limit / 2 == nthreads * Triangle(limit)
  {
    TriangleClosedForm(limit);
  }

  /** The tuples one producer puts, in order: `("threadtest", j)` for
      `j = 0, ..., limit - 1`. */
  function Batch(limit: nat): seq<Tuple>
    requires limit <= 0x8000_0000
  {
    seq(limit, j requires 0 <= j < limit => [StringVal("threadtest"), IntVal(j as Int32)])
  }

  /** Every tuple of a batch matches `("threadtest", &val)`. */
  lemma BatchMatches(limit: nat)
    requires limit <= 0x8000_0000
    ensures forall t :: t in Batch(limit) ==> Matches(ThreadTestPattern(), t)
  {
  }

  /** The numbers of a batch add up to `0 + 1 + ... + (limit - 1)`. */
  lemma {:induction false} BatchSum(limit: nat)
    requires limit <= 0x8000_0000
    ensures SumSeconds(Batch(limit)) == Triangle(limit)
  {
    if limit > 0 {
      assert Batch(limit)[..limit - 1] == Batch(limit - 1);
      BatchSum(limit - 1);
    }
  }

  /** The tuples `n` producers put when they run one after the other. */
  function Batches(n: nat, limit: nat): seq<Tuple>
    requires limit <= 0x8000_0000
  {
    if n == 0 then [] else Batches(n - 1, limit) + Batch(limit)
  }

  /** `n` producers put `n * limit` tuples in all. */
  lemma {:induction false} BatchesLength(n: nat, limit: nat)
    requires limit <= 0x8000_0000
    ensures |Batches(n, limit)| == n * limit
  {
    if n > 0 {
      BatchesLength(n - 1, limit);
    }
  }

  /** One producer thread's loop: `put("threadtest", j)` for every `j < limit`. */
  method ProduceOne(s: TupleSpace, limit: nat) returns (ghost batch: seq<Tuple>)
    requires limit <= 0x8000_0000
    modifies s
    ensures batch == Batch(limit)
    ensures s.tuples == old(s.tuples) + multiset(batch)
    ensures forall t :: t in batch ==> Matches(ThreadTestPattern(), t)
    ensures SumSeconds(batch) == Triangle(limit)
  {
    batch := [];
    for j := 0 to limit
      invariant batch == Batch(limit)[..j]
      invariant s.tuples == old(s.tuples) + multiset(batch)
    {
      var t := [StringVal("threadtest"), IntVal(j as Int32)];
      s.Put(t);
      assert Batch(limit)[..j + 1] == batch + [t];
      batch := batch + [t];
    }
    assert Batch(limit)[..limit] == Batch(limit);
    BatchMatches(limit);
    BatchSum(limit);
  }

  /** The producers, one after the other; the store keeps whatever it held
      before and gains every tuple they put. */
  method Produce(s: TupleSpace, nthreads: nat, limit: nat) returns (ghost puts: seq<Tuple>)
    requires limit <= 0x8000_0000
    modifies s
    ensures puts == Batches(nthreads, limit)
    ensures s.tuples == old(s.tuples) + multiset(puts)
    ensures forall t :: t in puts ==> Matches(ThreadTestPattern(), t)
    ensures SumSeconds(puts) == nthreads * Triangle(limit)
  {
    puts := [];
    for i := 0 to nthreads
      invariant puts == Batches(i, limit)
      invariant s.tuples == old(s.tuples) + multiset(puts)
      invariant forall t :: t in puts ==> Matches(ThreadTestPattern(), t)
      invariant SumSeconds(puts) == i * Triangle(limit)
    {
      var batch := ProduceOne(s, limit);
      SumSecondsAppend(puts, batch);
      assert (i + 1) * Triangle(limit) == i * Triangle(limit) + Triangle(limit);
      puts := puts + batch;
    }
  }

  /** The stress test with its threads run one after the other, on a store
      none of whose tuples matches `("threadtest", &val)`: the producers add
      their tuples, then one taker drains them. Every tuple put is taken back
      exactly once and no other tuple is touched, so the store ends as it
      began and the drained total is the figure the test expects. */
  method ThreadTest(s: TupleSpace, nthreads: nat, limit: nat) returns (total: int)
    requires limit <= 0x8000_0000
    requires forall u :: u in s.tuples ==> !Matches(ThreadTestPattern(), u)
    modifies s
    ensures s.tuples == old(s.tuples)
    ensures total == nthreads * (limit - 1) * limit / 2
  {
    ghost var before := s.tuples;
    ghost var puts := Produce(s, nthreads, limit);
    ghost var taken;
    total, taken := Drain(s);
    assert multiset(taken) + s.tuples == before + multiset(puts);
    // Count by count: a matching tuple was not there before and is not
    // left, so it was taken as often as it was put; any other tuple was
    // neither put nor taken, so it is left as often as it was there.
    forall u
      ensures multiset(taken)[u] == multiset(puts)[u]
      ensures s.tuples[u] == before[u]
    {
      assert (multiset(taken) + s.tuples)[u] == (before + multiset(puts))[u];
      if Matches(ThreadTestPattern(), u) {
        assert u !in before && u !in s.tuples;
      } else {
        assert u !in multiset(taken) && u !in multiset(puts);
      }
    }
    assert multiset(taken) == multiset(puts);
    SumSecondsPermutation(taken, puts);
    ExpectedTotal(nthreads, limit);
  }

  // ---------------------------------------------------------------------
  // The fixed sequence at the start of both driver programs

  /** `{3, 1.2, "meow", 4}` */
  function Meow4(): Tuple
  {
    [IntVal(3), DoubleVal(1.2), StringVal("meow"), IntVal(4)]
  }

  /** `{44, "meow"}` */
  function Meow2(): Tuple
  {
    [IntVal(44), StringVal("meow")]
  }

  /** The store holds `{3, 1.2, "meow", 4}` twice and `{44, "meow"}` once. */
  predicate FilledStore(store: multiset<Tuple>)
  {
    store == multiset{Meow4(), Meow4(), Meow2()}
  }

  lemma FilledStoreHolds(store: multiset<Tuple>, u: Tuple)
    requires FilledStore(store) && u in store
    ensures u == Meow4() || u == Meow2()
  {
  }

  /** `try_copy(3, 1.2, "meow", 4)` finds the stored tuple. */
  method ExactCopy(t: TupleSpace) returns (r: bool)
    requires FilledStore(t.tuples)
    ensures r
  {
    var exact := [Lit(IntVal(3)), Lit(DoubleVal(1.2)), Lit(StringVal("meow")), Lit(IntVal(4))];
    assert Matches(exact, Meow4());
    var out;
    r, out := t.TryCopy(exact, map[]);
  }

  /** `try_copy(3, 1.2, "thiswillfail", 4)`: one literal off, no match. */
  method LiteralMismatchCopy(t: TupleSpace) returns (r: bool)
    requires FilledStore(t.tuples)
    ensures !r
  {
    var wrong := [Lit(IntVal(3)), Lit(DoubleVal(1.2)), Lit(StringVal("thiswillfail")), Lit(IntVal(4))];
    assert !Matches(wrong, Meow4()) by {
      OneMismatchFailsAll(wrong, Meow4(), 2);
    }
    assert !Matches(wrong, Meow2());
    var out;
    r, out := t.TryCopy(wrong, map[]);
  }

  /** `try_copy(&p, 1.2, "meow", 4)` succeeds and binds `p` to 3. */
  method WildcardCopy(t: TupleSpace) returns (r: bool, p: Value)
    requires FilledStore(t.tuples)
    ensures r && p == IntVal(3)
  {
    // `int p;` is variable 0
    var withP := [Wild(IntKind, 0), Lit(DoubleVal(1.2)), Lit(StringVal("meow")), Lit(IntVal(4))];
    assert Matches(withP, Meow4());
    var mem;
    r, mem := t.TryCopy(withP, map[]);
    ghost var u :| u in t.tuples && Matches(withP, u) && mem == Bind(map[], withP, u);
    FilledStoreHolds(t.tuples, u);
    assert |Meow2()| != |withP|;
    BindWritesWildcards(map[], withP, u, 0);
    p := mem[0];
  }

  /** `try_copy(44, "meow")` three times running, then `copy(44, "meow")`:
      every one succeeds, and the copy is `{44, "meow"}`. */
  method RepeatedCopy(t: TupleSpace) returns (checks: seq<bool>, copied: Tuple)
    requires FilledStore(t.tuples)
    ensures checks == [true, true, true]
    ensures copied == Meow2()
  {
    var pair := [Lit(IntVal(44)), Lit(StringVal("meow"))];
    assert Matches(pair, Meow2());
    var r1, r2, r3, out;
    r1, out := t.TryCopy(pair, map[]);
    r2, out := t.TryCopy(pair, map[]);
    r3, out := t.TryCopy(pair, map[]);
    copied, out := t.Copy(pair, map[]);
    FilledStoreHolds(t.tuples, copied);
    checks := [r1, r2, r3];
  }

  /** On the filled store, `try_take(44, "meow")` succeeds once and then
      fails, leaving the two copies of the first tuple. */
  method TakeChecks(t: TupleSpace) returns (first: bool, second: bool)
    requires FilledStore(t.tuples)
    modifies t
    ensures first && !second
    ensures t.tuples == multiset{Meow4(), Meow4()}
  {
    var pair := [Lit(IntVal(44)), Lit(StringVal("meow"))];
    assert Matches(pair, Meow2());
    var out;
    first, out := t.TryTake(pair, map[]);
    assert t.tuples == multiset{Meow4(), Meow4()};
    second, out := t.TryTake(pair, map[]);
  }

  /** The fixed sequence shared by both driver programs. */
  method SequentialChecks() returns (t: TupleSpace, checks: seq<bool>, p: Value, copied: Tuple)
    ensures fresh(t)
    ensures t.tuples == multiset{Meow4(), Meow4()}
    ensures checks == [true, false, true, true, true, true, true, false]
    ensures p == IntVal(3)
    ensures copied == Meow2()
  {
    t := new TupleSpace();
    t.Put(Meow4());
    t.Put(Meow4());
    t.Put(Meow2());
    assert FilledStore(t.tuples);
    var r1 := ExactCopy(t);
    var r2 := LiteralMismatchCopy(t);
    var r3;
    r3, p := WildcardCopy(t);
    var repeated;
    repeated, copied := RepeatedCopy(t);
    var r7, r8 := TakeChecks(t);
    checks := [r1, r2, r3] + repeated + [r7, r8];
  }

  // ---------------------------------------------------------------------
  // The blocking take and the stress test, on the store the checks leave

  /** Of the store after the two puts, a pattern starting with the literal
      "qqq" can match only the tuple put last. */
  lemma OnlyNewTupleMatches(goal: Pattern, s0: multiset<Tuple>, q: Tuple, u: Tuple)
    requires |goal| == 2 && goal[0] == Lit(StringVal("qqq"))
    requires s0 == multiset{Meow4(), Meow4()}
    requires u in s0 + multiset{[StringVal("aqq"), StringVal("zzz")]} + multiset{q}
    requires Matches(goal, u)
    ensures u == q
  {
    assert |Meow4()| != |goal|;
    OneMismatchFailsAll(goal, [StringVal("aqq"), StringVal("zzz")], 0);
  }

  /** Taking back the tuple put last leaves the store as after the first put. */
  lemma PutPutTake(s0: multiset<Tuple>, a: Tuple, q: Tuple)
    ensures s0 + multiset{a} + multiset{q} - multiset{q} == s0 + multiset{a}
  {
  }

  /** After the fixed sequence, `put("aqq", "zzz")` and `put("qqq", 777)`;
      then `take("qqq", &v)` returns `{"qqq", 777}` and binds `v` to 777,
      and only the tuples it did not take remain. */
  method BlockingTakeInt() returns (t: TupleSpace, ret: Tuple, v: Value)
    ensures fresh(t)
    ensures ret == [StringVal("qqq"), IntVal(777)]
    ensures v == IntVal(777)
    ensures t.tuples == multiset{Meow4(), Meow4(), [StringVal("aqq"), StringVal("zzz")]}
  {
    var checks, p, copied;
    t, checks, p, copied := SequentialChecks();
    var aqq := [StringVal("aqq"), StringVal("zzz")];
    var qqq := [StringVal("qqq"), IntVal(777)];
    ghost var before := t.tuples;
    t.Put(aqq);
    t.Put(qqq);
    // `int v;` is variable 0
    var goal := [Lit(StringVal("qqq")), Wild(IntKind, 0)];
    assert Matches(goal, qqq);
    var mem;
    ret, mem := t.Take(goal, map[]);
    OnlyNewTupleMatches(goal, before, qqq, ret);
    PutPutTake(before, aqq, qqq);
    BindWritesWildcards(map[], goal, ret, 1);
    v := mem[0];
  }

  /** The whole `main` of the test program on one tuple space: the fixed
      sequence and the blocking take, then the stress test on what is left.
      None of the three remaining tuples matches `("threadtest", &val)`, so
      the stress test drains exactly what its producers put, the total is
      `nthreads * (limit - 1) * limit / 2`, and the store ends holding those
      three tuples. */
  method TestMain(nthreads: nat, limit: nat)
    returns (ret: Tuple, v: Value, total: int, rest: multiset<Tuple>)
    requires limit <= 0x8000_0000
    ensures ret == [StringVal("qqq"), IntVal(777)] && v == IntVal(777)
    ensures total == nthreads * (limit - 1) * limit / 2
    ensures rest == multiset{Meow4(), Meow4(), [StringVal("aqq"), StringVal("zzz")]}
  {
    var t;
    t, ret, v := BlockingTakeInt();
    var aqq := [StringVal("aqq"), StringVal("zzz")];
    assert forall u :: u in t.tuples ==> !Matches(ThreadTestPattern(), u) by {
      assert |Meow4()| != |ThreadTestPattern()|;
      OneMismatchFailsAll(ThreadTestPattern(), aqq, 0);
    }
    total := ThreadTest(t, nthreads, limit);
    rest := t.tuples;
  }

  /** The same with a string: after `put("aqq", "zzz")` and `put("qqq",
      "zzz")`, `take("qqq", &s)` returns `{"qqq", "zzz"}` and binds `s` to
      "zzz". */
  method BlockingTakeString() returns (ret: Tuple, str: Value, rest: multiset<Tuple>)
    ensures ret == [StringVal("qqq"), StringVal("zzz")]
    ensures str == StringVal("zzz")
    ensures rest == multiset{Meow4(), Meow4(), [StringVal("aqq"), StringVal("zzz")]}
  {
    var t, checks, p, copied := SequentialChecks();
    var aqq := [StringVal("aqq"), StringVal("zzz")];
    var qqq := [StringVal("qqq"), StringVal("zzz")];
    ghost var before := t.tuples;
    t.Put(aqq);
    t.Put(qqq);
    // `std::string s;` is variable 0
    var goal := [Lit(StringVal("qqq")), Wild(StringKind, 0)];
    assert Matches(goal, qqq);
    var mem;
    ret, mem := t.Take(goal, map[]);
    OnlyNewTupleMatches(goal, before, qqq, ret);
    PutPutTake(before, aqq, qqq);
    BindWritesWildcards(map[], goal, ret, 1);
    str := mem[0];
    rest := t.tuples;
  }
}
