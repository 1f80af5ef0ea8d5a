/** Values, tuples and patterns of the tuple space, the per-position matching
    rule, and the writes a successful match makes to the caller's wildcard
    variables. */
module Tuples {

  /** A C++ `int`. */
  newtype Int32 = x: int | -0x8000_0000 <= x < 0x8000_0000

  /** The closed set of kinds a stored value can have. */
  datatype Kind = IntKind | DoubleKind | StringKind

  /** One position of a stored tuple: `std::variant<int, double, std::string>`.
      A `double` is modelled by the real it denotes (see README, Left out). */
  datatype Value = IntVal(i: Int32) | DoubleVal(d: real) | StringVal(s: string)

  /** A stored tuple: `std::vector` of values; its arity is its length. */
  type Tuple = seq<Value>

  /** Names one caller-owned output variable: the address a wildcard points to. */
  type Slot = nat

  /** The caller's output variables, as far as they hold a value. */
  type Memory = map<Slot, Value>

  /** One position of a pattern: a literal value, or a typed pointer to an
      output variable (a wildcard). */
  datatype PElem = Lit(value: Value) | Wild(kind: Kind, slot: Slot)

  type Pattern = seq<PElem>

  function KindOf(v: Value): Kind
  {
    match v
    case IntVal(_) => IntKind
    case DoubleVal(_) => DoubleKind
    case StringVal(_) => StringKind
  }

  /** The kind a pattern element asks for. */
  function ElemKind(p: PElem): Kind
  {
    match p
    case Lit(v) => KindOf(v)
    case Wild(k, _) => k
  }

  /** The alternative a pattern element occupies in
      `std::variant<int, int*, double, double*, std::string, std::string*>`:
      values at even indices, the pointer to the same kind right after. */
  function PElemIndex(p: PElem): (r: nat)
    ensures r < 6
    ensures r % 2 == 1 <==> p.Wild?
  {
    match p
    case Lit(IntVal(_)) => 0
    case Wild(IntKind, _) => 1
    case Lit(DoubleVal(_)) => 2
    case Wild(DoubleKind, _) => 3
    case Lit(StringVal(_)) => 4
    case Wild(StringKind, _) => 5
  }

  /** A stored value sits in the same variant, always at a value alternative. */
  function StoredIndex(v: Value): nat
  {
    PElemIndex(Lit(v))
  }

  /** The `match` test of one position: kinds must agree (`index() / 2`); a
      pointer then accepts any value, a literal only an equal one. */
  predicate ElemMatches(lhs: PElem, rhs: Value)
    ensures ElemMatches(lhs, rhs) <==>
              match lhs
              case Wild(k, _) => k == KindOf(rhs)
              case Lit(v) => v == rhs
  {
    if PElemIndex(lhs) / 2 != StoredIndex(rhs) / 2 then false
    else if PElemIndex(lhs) % 2 == 1 then true
    else lhs == Lit(rhs)
  }

  /** A stored tuple satisfies a pattern: same arity, every position matches. */
  predicate Matches(goal: Pattern, current: Tuple)
  {
    |goal| == |current| &&
    forall i :: 0 <= i < |current| ==> ElemMatches(goal[i], current[i])
  }

  /** Some tuple of the store satisfies the pattern. */
  predicate AnyMatch(store: multiset<Tuple>, goal: Pattern)
  {
    exists t :: t in store && Matches(goal, t)
  }

  /** Different arities never match. */
  lemma ArityMismatchNeverMatches(goal: Pattern, current: Tuple)
    requires |goal| != |current|
    ensures !Matches(goal, current)
  {
  }

  /** The matching rule in terms of kinds: a pattern matches a tuple exactly
      when the arities agree, every position has the kind the pattern asks
      for, and every literal equals the stored value. */
  lemma MatchesByKind(goal: Pattern, current: Tuple)
    ensures Matches(goal, current) <==>
              |goal| == |current| &&
              forall i :: 0 <= i < |goal| ==>
                ElemKind(goal[i]) == KindOf(current[i]) &&
                (goal[i].Lit? ==> goal[i].value == current[i])
  {
  }

  /** One position that differs in kind, or one literal that differs in
      value, makes the whole pattern fail. */
  lemma OneMismatchFailsAll(goal: Pattern, current: Tuple, i: nat)
    requires i < |goal| == |current|
    requires ElemKind(goal[i]) != KindOf(current[i]) ||
             (goal[i].Lit? && goal[i].value != current[i])
    ensures !Matches(goal, current)
  {
  }

  // ---------------------------------------------------------------------
  // Writes to the caller's variables

  /** The write one position makes: through the pointer of a wildcard; a
      literal writes nothing. */
  function Write(mem: Memory, p: PElem, v: Value): Memory
  {
    if p.Wild? then mem[p.slot := v] else mem
  }

  /** The writes of a successful match, position by position from the left. */
  function Bind(mem: Memory, goal: Pattern, current: Tuple): Memory
    requires |goal| == |current|
    decreases |goal|
  {
    if goal == [] then mem
    else Bind(Write(mem, goal[0], current[0]), goal[1..], current[1..])
  }

  /** The variables the wildcards of a pattern point to. */
  function WildSlots(goal: Pattern): set<Slot>
  {
    set i | 0 <= i < |goal| && goal[i].Wild? :: goal[i].slot
  }

  /** No two wildcards of the pattern point to the same variable. */
  predicate DistinctSlots(goal: Pattern)
  {
    forall i, j :: 0 <= i < j < |goal| && goal[i].Wild? && goal[j].Wild? ==>
      goal[i].slot != goal[j].slot
  }

  /** Every wildcard of the pattern points to a variable that holds a value. */
  predicate BoundIn(goal: Pattern, mem: Memory)
  {
    forall i :: 0 <= i < |goal| && goal[i].Wild? ==> goal[i].slot in mem
  }

  lemma WildSlotsOfTail(goal: Pattern)
    requires goal != []
    ensures WildSlots(goal[1..]) <= WildSlots(goal)
    ensures WildSlots(goal) == WildSlots(goal[1..]) + (if goal[0].Wild? then {goal[0].slot} else {})
  {
  }

  /** A variable no wildcard points to keeps its value (or its absence); in
      particular literal positions write nothing. */
  lemma {:induction false} BindLeavesOtherSlots(mem: Memory, goal: Pattern, current: Tuple, s: Slot)
    requires |goal| == |current|
    requires s !in WildSlots(goal)
    ensures s in Bind(mem, goal, current) <==> s in mem
    ensures s in mem ==> Bind(mem, goal, current)[s] == mem[s]
    decreases |goal|
  {
    if goal != [] {
      WildSlotsOfTail(goal);
      BindLeavesOtherSlots(Write(mem, goal[0], current[0]), goal[1..], current[1..], s);
    }
  }

  /** Every variable a wildcard points to ends up holding a value. */
  lemma {:induction false} BindBindsWildcards(mem: Memory, goal: Pattern, current: Tuple)
    requires |goal| == |current|
    ensures BoundIn(goal, Bind(mem, goal, current))
    ensures Bind(mem, goal, current).Keys == mem.Keys + WildSlots(goal)
    decreases |goal|
  {
    if goal != [] {
      var mem' := Write(mem, goal[0], current[0]);
      BindBindsWildcards(mem', goal[1..], current[1..]);
      WildSlotsOfTail(goal);
      var r := Bind(mem, goal, current);
      forall i | 0 <= i < |goal| && goal[i].Wild? ensures goal[i].slot in r {
        if i > 0 {
          assert goal[1..][i - 1] == goal[i];
        }
      }
    }
  }

  /** With distinct wildcard variables, each wildcard's variable holds the
      stored value at the wildcard's position. */
  lemma {:induction false} BindWritesWildcards(mem: Memory, goal: Pattern, current: Tuple, i: nat)
    requires |goal| == |current| && DistinctSlots(goal)
    requires i < |goal| && goal[i].Wild?
    ensures goal[i].slot in Bind(mem, goal, current)
    ensures Bind(mem, goal, current)[goal[i].slot] == current[i]
    decreases |goal|
  {
    var mem' := Write(mem, goal[0], current[0]);
    var tail := goal[1..];
    if i == 0 {
      assert goal[0].slot !in WildSlots(tail);
      BindLeavesOtherSlots(mem', tail, current[1..], goal[0].slot);
    } else {
      assert tail[i - 1] == goal[i];
      assert DistinctSlots(tail) by {
        forall a, b | 0 <= a < b < |tail| && tail[a].Wild? && tail[b].Wild?
          ensures tail[a].slot != tail[b].slot
        {
          assert tail[a] == goal[a + 1] && tail[b] == goal[b + 1];
        }
      }
      BindWritesWildcards(mem', tail, current[1..], i - 1);
    }
  }

  // ---------------------------------------------------------------------
  // The tuple handed back by the blocking retrievals

  /** As written: the result is read back, in pattern order, from the
      literals and from the variables the wildcards point to. */
  function RebuildFromMemory(goal: Pattern, mem: Memory): (r: Tuple)
    requires BoundIn(goal, mem)
    ensures |r| == |goal|
  {
    seq(|goal|, i requires 0 <= i < |goal| =>
      if goal[i].Lit? then goal[i].value else mem[goal[i].slot])
  }

  /** Corrected: the result is rebuilt, in pattern order, from the literals
      and from the matched tuple's values at the wildcard positions. */
  function Rebuild(goal: Pattern, current: Tuple): (r: Tuple)
    requires |goal| == |current|
    ensures |r| == |goal|
  {
    seq(|goal|, i requires 0 <= i < |goal| =>
      if goal[i].Lit? then goal[i].value else current[i])
  }

  /** The corrected result is exactly the matched tuple. */
  lemma RebuildMatched(goal: Pattern, current: Tuple)
    requires Matches(goal, current)
    ensures Rebuild(goal, current) == current
  {
  }

  /** When no two wildcards share a variable, reading the result back from
      the variables gives the matched tuple, as intended. */
  lemma RebuildFromMemoryDistinct(mem: Memory, goal: Pattern, current: Tuple)
    requires Matches(goal, current) && DistinctSlots(goal)
    ensures BoundIn(goal, Bind(mem, goal, current))
    ensures RebuildFromMemory(goal, Bind(mem, goal, current)) == current
  {
    BindBindsWildcards(mem, goal, current);
    var r := RebuildFromMemory(goal, Bind(mem, goal, current));
    forall i | 0 <= i < |goal| ensures r[i] == current[i] {
      if goal[i].Wild? {
        BindWritesWildcards(mem, goal, current, i);
      } else {
        MatchesByKind(goal, current);
      }
    }
  }

  /** Two wildcards pointing to the same `int` variable: the stored tuple
      `{1, 2}` matches, the variable ends up holding 2, and reading the
      result back gives `{2, 2}`, a tuple that was never stored. */
  lemma AliasedWildcardsReadBackWrongTuple()
    ensures var goal := [Wild(IntKind, 0), Wild(IntKind, 0)];
            var stored := [IntVal(1), IntVal(2)];
            Matches(goal, stored) &&
            BoundIn(goal, Bind(map[], goal, stored)) &&
            RebuildFromMemory(goal, Bind(map[], goal, stored)) == [IntVal(2), IntVal(2)] &&
            RebuildFromMemory(goal, Bind(map[], goal, stored)) != stored &&
            Rebuild(goal, stored) == stored
  {
  }
}
