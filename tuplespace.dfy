/** The tuple-space engine: the store, the matching scan with its writes and
    its removal, and the public insertion and retrieval operations. */
module TupleSpaces {
  import opened Tuples

  /** The per-tuple test of the scan: the arity first, then every position
      in turn, leaving at the first one that does not match. */
  method MatchTuple(goal: Pattern, current: Tuple) returns (ok: bool)
    ensures ok == Matches(goal, current)
  {
    if |goal| != |current| {
      return false;
    }
    var i := 0;
    while i < |current|
      invariant 0 <= i <= |current|
      invariant forall j :: 0 <= j < i ==> ElemMatches(goal[j], current[j])
    {
      if !ElemMatches(goal[i], current[i]) {
        return false;
      }
      i := i + 1;
    }
    return true;
  }

  /** The write-back after a hit: every wildcard's variable receives the
      stored value at its position, from the left. */
  method WriteBindings(goal: Pattern, current: Tuple, mem: Memory) returns (out: Memory)
    requires |goal| == |current|
    ensures out == Bind(mem, goal, current)
  {
    out := mem;
    for i := 0 to |current|
      invariant Bind(out, goal[i..], current[i..]) == Bind(mem, goal, current)
    {
      assert goal[i..][1..] == goal[i + 1..] && current[i..][1..] == current[i + 1..];
      out := Write(out, goal[i], current[i]);
    }
    assert goal[|current|..] == [];
  }

  /** A tuple space: a multiset of tuples shared by producers and consumers. */
  class TupleSpace {
    /** The stored tuples; equal tuples are kept as separate entries. */
    var tuples: multiset<Tuple>

    constructor ()
      ensures tuples == multiset{}
    {
      tuples := multiset{};
    }

    /** `put`: one more occurrence of `t`; nothing is deduplicated. */
    method Put(t: Tuple)
      modifies this
      ensures tuples == old(tuples) + multiset{t}
      ensures tuples[t] == old(tuples)[t] + 1
      ensures |tuples| == |old(tuples)| + 1
    {
      tuples := tuples + multiset{t};
    }

    /** The scan of `try_copytake`: visits the stored tuples one by one and
        stops at the first that satisfies the pattern. */
    method Find(goal: Pattern) returns (found: bool, current: Tuple)
      ensures found <==> AnyMatch(tuples, goal)
      ensures found ==> current in tuples && Matches(goal, current)
    {
      var visited, rest := multiset{}, tuples;
      while rest != multiset{}
        invariant visited + rest == tuples
        invariant forall t :: t in visited ==> !Matches(goal, t)
        decreases |rest|
      {
        var t :| t in rest;
        var ok := MatchTuple(goal, t);
        if ok {
          return true, t;
        }
        visited, rest := visited + multiset{t}, rest - multiset{t};
      }
      return false, [];
    }

    /** `try_copytake`: on a hit, writes every wildcard's variable and, when
        `remove` is set, erases that one occurrence; on a miss, changes
        nothing. `current` is the matched tuple. */
    method TryCopyTake(remove: bool, goal: Pattern, mem: Memory)
      returns (found: bool, current: Tuple, out: Memory)
      modifies if remove then {this} else {}
      ensures found <==> AnyMatch(old(tuples), goal)
      ensures found ==> current in old(tuples) && Matches(goal, current)
      ensures found ==> out == Bind(mem, goal, current)
      ensures tuples == if found && remove then old(tuples) - multiset{current} else old(tuples)
      ensures !found ==> out == mem
    {
      found, current := Find(goal);
      out := mem;
      if found {
        out := WriteBindings(goal, current, mem);
        if remove {
          tuples := tuples - multiset{current};
        }
      }
    }

    /** `try_take`: removes exactly one occurrence of a matching tuple. */
    method TryTake(goal: Pattern, mem: Memory) returns (found: bool, out: Memory)
      modifies this
      ensures found <==> AnyMatch(old(tuples), goal)
      ensures found ==> exists t :: t in old(tuples) && Matches(goal, t) &&
                                    out == Bind(mem, goal, t) &&
                                    tuples == old(tuples) - multiset{t} &&
                                    tuples[t] == old(tuples)[t] - 1
      ensures found ==> |tuples| == |old(tuples)| - 1
      ensures !found ==> tuples == old(tuples) && out == mem
    {
      var current;
      found, current, out := TryCopyTake(true, goal, mem);
    }

    /** `try_copy`: the store is only read (no `modifies` clause). */
    method TryCopy(goal: Pattern, mem: Memory) returns (found: bool, out: Memory)
      ensures found <==> AnyMatch(tuples, goal)
      ensures found ==> exists t :: t in tuples && Matches(goal, t) && out == Bind(mem, goal, t)
      ensures !found ==> out == mem
    {
      var current;
      found, current, out := TryCopyTake(false, goal, mem);
    }

    /** `copytake`, one successful attempt: the result is rebuilt in pattern
        order from the literals and the matched values, so it is the matched
        tuple itself. */
    method CopyTake(remove: bool, goal: Pattern, mem: Memory) returns (ret: Tuple, out: Memory)
      requires AnyMatch(tuples, goal)
      modifies if remove then {this} else {}
      ensures ret in old(tuples) && Matches(goal, ret)
      ensures out == Bind(mem, goal, ret)
      ensures tuples == if remove then old(tuples) - multiset{ret} else old(tuples)
    {
      var found, current;
      found, current, out := TryCopyTake(remove, goal, mem);
      assert found && Matches(goal, current);
      ret := [];
      for i := 0 to |goal|
        invariant ret == Rebuild(goal, current)[..i]
        modifies {}
      {
        var e := if goal[i].Lit? then goal[i].value else current[i];
        ret := ret + [e];
      }
      RebuildMatched(goal, current);
      assert ret == current;
    }

    /** `take`: the matched tuple, with one occurrence of it removed. */
    method Take(goal: Pattern, mem: Memory) returns (ret: Tuple, out: Memory)
      requires AnyMatch(tuples, goal)
      modifies this
      ensures ret in old(tuples) && Matches(goal, ret)
      ensures out == Bind(mem, goal, ret)
      ensures tuples == old(tuples) - multiset{ret}
    {
      ret, out := CopyTake(true, goal, mem);
    }

    /** `copy`: the matched tuple; the store is only read. */
    method Copy(goal: Pattern, mem: Memory) returns (ret: Tuple, out: Memory)
      requires AnyMatch(tuples, goal)
      ensures ret in tuples && Matches(goal, ret)
      ensures |ret| == |goal|
      ensures forall i :: 0 <= i < |goal| && goal[i].Lit? ==> ret[i] == goal[i].value
      ensures out == Bind(mem, goal, ret)
    {
      ret, out := CopyTake(false, goal, mem);
      MatchesByKind(goal, ret);
    }
  }
}
