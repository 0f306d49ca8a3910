/** Which call a ChatGPT tool message answers: the nearest one above it, with a
    bounded walk over a parent map that need not be a tree. */
module CallSearches {
  import opened Base

  datatype NodeKind = Call | ToolResult | Empty | Other

  datatype Entry = Entry(kind: NodeKind, parent: Option<Key>)

  predicate PassedThrough(kinds: map<Key, Entry>, id: Key) {
    id in kinds && (kinds[id].kind == ToolResult || kinds[id].kind == Empty)
  }

  /** The call lies n steps above `from`, past tool results and empty nodes only. */
  ghost predicate CallAbove(kinds: map<Key, Entry>, n: nat, from: Option<Key>, call: Key) {
    if n == 0 then from == Some(call) && call in kinds && kinds[call].kind == Call
    else from.Some? && PassedThrough(kinds, from.value) && CallAbove(kinds, n - 1, kinds[from.value].parent, call)
  }

  /** There is at most one such call, at one distance. */
  lemma {:induction false} OneCallAbove(kinds: map<Key, Entry>, m: nat, n: nat, from: Option<Key>, a: Key, b: Key)
    requires CallAbove(kinds, m, from, a) && CallAbove(kinds, n, from, b)
    ensures m == n && a == b
  {
    if m > 0 && n > 0 {
      OneCallAbove(kinds, m - 1, n - 1, kinds[from.value].parent, a, b);
    }
  }

  /** Every node passed, with the call at the end. */
  ghost function Path(kinds: map<Key, Entry>, n: nat, from: Option<Key>, call: Key): (path: seq<Key>)
    requires CallAbove(kinds, n, from, call)
    ensures |path| == n + 1
  {
    if n == 0 then [call] else [from.value] + Path(kinds, n - 1, kinds[from.value].parent, call)
  }

  lemma {:induction false} PathAt(kinds: map<Key, Entry>, n: nat, from: Option<Key>, call: Key, i: nat)
    requires CallAbove(kinds, n, from, call) && i <= n
    ensures Path(kinds, n, from, call)[i] in kinds
    ensures CallAbove(kinds, n - i, Some(Path(kinds, n, from, call)[i]), call)
  {
    if i > 0 {
      PathAt(kinds, n - 1, kinds[from.value].parent, call, i - 1);
    }
  }

  /** A walk that returned to a node would never reach the call: it passes fewer
      nodes than there are. */
  lemma FewSteps(kinds: map<Key, Entry>, n: nat, from: Option<Key>, call: Key)
    requires CallAbove(kinds, n, from, call)
    ensures n < |kinds|
  {
    var path := Path(kinds, n, from, call);
    forall i, j | 0 <= i < j < |path| ensures path[i] != path[j] {
      PathAt(kinds, n, from, call, i);
      PathAt(kinds, n, from, call, j);
      if path[i] == path[j] {
        OneCallAbove(kinds, n - i, n - j, Some(path[i]), call, call);
      }
    }
    forall k | k in path ensures k in kinds.Keys {
      var i :| 0 <= i < |path| && path[i] == k;
      PathAt(kinds, n, from, call, i);
    }
    DistinctFits(path, kinds.Keys);
    KeysSize(kinds);
  }

  lemma KeysSize(kinds: map<Key, Entry>)
    ensures |kinds.Keys| == |kinds|
  {
  }

  /** The call is found within |kinds| steps whenever any number of steps reaches
      one; on any parent map, with or without cycles. */
  method AnsweredCall(kinds: map<Key, Entry>, parent: Option<Key>) returns (answered: Option<Key>)
    ensures answered.Some? ==> exists n: nat :: CallAbove(kinds, n, parent, answered.value)
    ensures answered.None? ==> forall n: nat, call :: !CallAbove(kinds, n, parent, call)
  {
    var current := parent;
    for step := 0 to |kinds|
      invariant forall n: nat, call :: CallAbove(kinds, n, current, call) <==> CallAbove(kinds, n + step, parent, call)
      invariant forall n: nat, call | CallAbove(kinds, n, parent, call) :: n >= step
    {
      ghost var before := current;
      if current.None? || current.value !in kinds {
        assert forall n: nat, call :: !CallAbove(kinds, n, current, call);
        NoneAbove(kinds, current, step, parent);
        return None;
      }
      var id := current.value;
      match kinds[id].kind {
        case Call =>
          assert CallAbove(kinds, 0, current, id);
          assert CallAbove(kinds, 0 + step, parent, id);
          return Some(id);
        case Other =>
          assert forall n: nat, call :: !CallAbove(kinds, n, current, call);
          NoneAbove(kinds, current, step, parent);
          return None;
        case _ =>
          current := kinds[id].parent;
          StepUp(kinds, before, step, parent);
      }
    }
    forall n: nat, call ensures !CallAbove(kinds, n, parent, call) {
      if CallAbove(kinds, n, parent, call) {
        FewSteps(kinds, n, parent, call);
      }
    }
    answered := None;
  }

  lemma NoneAbove(kinds: map<Key, Entry>, current: Option<Key>, step: nat, parent: Option<Key>)
    requires forall n: nat, call :: CallAbove(kinds, n, current, call) <==> CallAbove(kinds, n + step, parent, call)
    requires forall n: nat, call | CallAbove(kinds, n, parent, call) :: n >= step
    requires forall n: nat, call :: !CallAbove(kinds, n, current, call)
    ensures forall n: nat, call :: !CallAbove(kinds, n, parent, call)
  {
    forall n: nat, call ensures !CallAbove(kinds, n, parent, call) {
      if n >= step {
        assert !CallAbove(kinds, n - step, current, call);
      }
    }
  }

  lemma StepUp(kinds: map<Key, Entry>, current: Option<Key>, step: nat, parent: Option<Key>)
    requires forall n: nat, call :: CallAbove(kinds, n, current, call) <==> CallAbove(kinds, n + step, parent, call)
    requires forall n: nat, call | CallAbove(kinds, n, parent, call) :: n >= step
    requires current.Some? && PassedThrough(kinds, current.value)
    ensures var next := kinds[current.value].parent;
            forall n: nat, call :: CallAbove(kinds, n, next, call) <==> CallAbove(kinds, n + (step + 1), parent, call)
    ensures forall n: nat, call | CallAbove(kinds, n, parent, call) :: n >= step + 1
  {
    var next := kinds[current.value].parent;
    forall n: nat, call ensures CallAbove(kinds, n, next, call) <==> CallAbove(kinds, n + (step + 1), parent, call) {
      assert CallAbove(kinds, n + 1, current, call) <==> CallAbove(kinds, n, next, call);
      assert CallAbove(kinds, n + 1, current, call) <==> CallAbove(kinds, n + 1 + step, parent, call);
    }
    forall n: nat, call | CallAbove(kinds, n, parent, call) ensures n >= step + 1 {
      if n == step {
        assert CallAbove(kinds, 0, current, call) <==> CallAbove(kinds, 0 + step, parent, call);
      }
    }
  }
}
