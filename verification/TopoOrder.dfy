/** The deterministic topological order of the classes. */
module TopoOrders {
  import opened Base
  import opened Graphs

  /** The keys whose parents are all done. */
  function Ready(g: Graph, done: set<Key>): set<Key> {
    set k | k in g && k !in done && Up(g, k) <= done
  }

  /** Take the least ready key, again and again. */
  function LeastOrder(g: Graph, done: set<Key>): (order: seq<Key>)
    decreases |g.Keys - done|
  {
    var ready := Ready(g, done);
    if ready == {} then []
    else
      var k := Least(ready);
      assert g.Keys - (done + {k}) == g.Keys - done - {k};
      [k] + LeastOrder(g, done + {k})
  }

  lemma {:induction false} LeastOrderAt(g: Graph, done: set<Key>, i: nat)
    requires i < |LeastOrder(g, done)|
    ensures var order := LeastOrder(g, done);
            var before := done + Elements(order[..i]);
            Ready(g, before) != {} && order[i] == Least(Ready(g, before))
    decreases i
  {
    var order := LeastOrder(g, done);
    if i == 0 {
      assert Elements(order[..0]) == {};
      assert done + {} == done;
    } else {
      var k := order[0];
      LeastOrderAt(g, done + {k}, i - 1);
      assert order[1..] == LeastOrder(g, done + {k});
      assert order[..i][1..] == order[1..][..i - 1];
      ElementsCons(order[..i]);
      assert done + {k} + Elements(order[1..][..i - 1]) == done + Elements(order[..i]);
    }
  }

  lemma UnionCons(done: set<Key>, order: seq<Key>)
    requires order != []
    ensures done + {order[0]} + Elements(order[1..]) == done + Elements(order)
  {
    ElementsCons(order);
  }

  lemma {:induction false} LeastOrderStops(g: Graph, done: set<Key>)
    ensures Ready(g, done + Elements(LeastOrder(g, done))) == {}
    decreases |g.Keys - done|
  {
    hide Ready;
    var order := LeastOrder(g, done);
    if Ready(g, done) == {} {
      assert Elements(order) == {};
      assert done + {} == done;
    } else {
      var k := order[0];
      assert g.Keys - (done + {k}) == g.Keys - done - {k} by { LeastReady(g, done); }
      LeastReady(g, done);
      LeastOrderStops(g, done + {k});
      UnionCons(done, order);
    }
  }

  lemma LeastReady(g: Graph, done: set<Key>)
    requires Ready(g, done) != {}
    ensures Least(Ready(g, done)) in g.Keys - done
  {
  }

  /** Where nothing is ready, every key left has a parent left. */
  lemma NoneReady(g: Graph, done: set<Key>)
    requires Ready(g, done) == {}
    ensures forall k | k in g.Keys - done :: Up(g, k) * (g.Keys - done) != {}
  {
    forall k | k in g.Keys - done ensures Up(g, k) * (g.Keys - done) != {} {
      assert k !in Ready(g, done);
      var p :| p in Up(g, k) && p !in done;
      assert p in Up(g, k) * (g.Keys - done);
    }
  }

  lemma LeastOrderParentsFirst(g: Graph)
    ensures var order := LeastOrder(g, {});
            Distinct(order) && ParentsFirst(g, order) && Elements(order) <= g.Keys
  {
    var order := LeastOrder(g, {});
    forall i | 0 <= i < |order|
      ensures order[i] in g && order[i] !in order[..i] && Up(g, order[i]) <= Elements(order[..i])
    {
      LeastOrderAt(g, {}, i);
      assert {} + Elements(order[..i]) == Elements(order[..i]);
    }
    forall i, j | 0 <= i < j < |order| ensures order[i] != order[j] {
      assert order[..j][i] == order[i];
    }
  }

  /** The order is complete exactly on acyclic classes. */
  lemma LeastOrderComplete(g: Graph)
    ensures Topological(g, LeastOrder(g, {})) <==> Acyclic(g)
    ensures |LeastOrder(g, {})| == |g| <==> Acyclic(g)
  {
    var order := LeastOrder(g, {});
    LeastOrderParentsFirst(g);
    DistinctSize(order);
    if Topological(g, order) {
      TopologicalAcyclic(g, order);
    }
    if Acyclic(g) {
      LeastOrderStops(g, {});
      assert {} + Elements(order) == Elements(order);
      NoneReady(g, Elements(order));
      if g.Keys - Elements(order) != {} {
        AcyclicHasSource(g, g.Keys - Elements(order));
      }
      assert Elements(order) == g.Keys;
    }
    if |order| == |g| {
      SubsetFull(Elements(order), g.Keys);
      TopologicalAcyclic(g, order);
    }
  }

  lemma SubsetFull(a: set<Key>, b: set<Key>)
    requires a <= b && |a| == |b|
    ensures a == b
  {
    assert b == a + (b - a);
    assert |b - a| == 0;
  }

  /** Of all topological orders it is the lexicographically least: wherever
      another one first differs from it, the other has the greater key. */
  lemma LeastOrderLeast(g: Graph, other: seq<Key>, i: nat)
    requires Topological(g, other) && i < |other|
    ensures var order := LeastOrder(g, {});
            |order| == |other| && (order[..i] == other[..i] ==> Le(order[i], other[i]))
  {
    var order := LeastOrder(g, {});
    TopologicalAcyclic(g, other);
    LeastOrderComplete(g);
    DistinctSize(other);
    DistinctSize(order);
    if order[..i] == other[..i] {
      LeastOrderAt(g, {}, i);
      assert {} + Elements(order[..i]) == Elements(order[..i]);
      var k := other[i];
      assert k in Elements(other);
      assert k !in other[..i];
      assert Up(g, k) <= Elements(other[..i]);
      assert k in Ready(g, Elements(order[..i]));
    }
  }

  // ---------------------------------------------------------------- the loop

  /** How many parents of k are not done. */
  ghost function Missing(g: Graph, done: set<Key>, k: Key): nat {
    |Up(g, k) - done|
  }

  /** The loop's bookkeeping says for every key how many parents are missing. */
  ghost predicate Counts(g: Graph, done: set<Key>, dependencies: map<Key, nat>, ready: set<Key>) {
    && Closed(g, done) && dependencies.Keys == g.Keys
    && (forall k | k in g :: dependencies[k] == Missing(g, done, k))
    && (forall k :: k in ready <==> k in Ready(g, done))
  }

  function Kids(children: map<Key, set<Key>>, p: Key): set<Key> {
    if p in children then children[p] else {}
  }

  /** key is a child of each of `known`. */
  method AddChild(key: Key, known: seq<Key>, before: map<Key, set<Key>>) returns (children: map<Key, set<Key>>)
    requires Distinct(known)
    ensures forall p, k :: k in Kids(children, p) <==> k in Kids(before, p) || (k == key && p in known)
  {
    children := before;
    for j := 0 to |known|
      invariant forall p, k :: k in Kids(children, p) <==> k in Kids(before, p) || (k == key && p in known[..j])
    {
      TakeNext(known, j);
      children := children[known[j] := Kids(children, known[j]) + {key}];
    }
    TakeAll(known);
  }

  method CountParents(g: Graph) returns (dependencies: map<Key, nat>, children: map<Key, set<Key>>, ready: set<Key>)
    ensures Counts(g, {}, dependencies, ready)
    ensures forall p, k :: k in Kids(children, p) <==> k in Children(g, p)
  {
    hide Up, Kids, Children, Counts, Increasing, Tallied, ChildrenOf;
    dependencies, children, ready := map[], map[], {};
    var keys := Sorted(g.Keys);
    NoKids(g, keys[..0]);
    for i := 0 to |keys|
      invariant Tallied(g, keys[..i], dependencies, ready)
      invariant ChildrenOf(g, keys[..i], children)
    {
      var key := keys[i];
      TakeNext(keys, i);
      var known := Sorted(Up(g, key));
      TalliedMore(g, keys[..i], key, dependencies, ready);
      dependencies := dependencies[key := |known|];
      if |known| == 0 {
        ready := ready + {key};
      }
      ghost var before := children;
      children := AddChild(key, known, children);
      ChildrenOfMore(g, keys[..i], key, known, before, children);
    }
    TakeAll(keys);
    NothingDone(g, keys, dependencies, ready);
    AllChildren(g, keys, children);
  }

  ghost predicate ChildrenOf(g: Graph, keys: seq<Key>, children: map<Key, set<Key>>) {
    forall p, k :: k in Kids(children, p) <==> k in keys && p in Up(g, k)
  }

  lemma ChildrenOfMore(g: Graph, keys: seq<Key>, key: Key, known: seq<Key>, before: map<Key, set<Key>>,
                       children: map<Key, set<Key>>)
    requires ChildrenOf(g, keys, before) && known == Sorted(Up(g, key))
    requires forall p, k :: k in Kids(children, p) <==> k in Kids(before, p) || (k == key && p in known)
    ensures ChildrenOf(g, keys + [key], children)
  {
    hide Kids, Up;
  }

  lemma AllChildren(g: Graph, keys: seq<Key>, children: map<Key, set<Key>>)
    requires forall k :: k in keys <==> k in g.Keys
    requires ChildrenOf(g, keys, children)
    ensures forall p, k :: k in Kids(children, p) <==> k in Children(g, p)
  {
    hide Kids, Up, Children;
    forall p, k ensures k in Kids(children, p) <==> k in Children(g, p) {
      ChildIff(g, p, k);
    }
  }

  lemma ChildIff(g: Graph, p: Key, k: Key)
    ensures k in Children(g, p) <==> k in g && p in Up(g, k)
  {
  }

  lemma NoKids(g: Graph, none: seq<Key>)
    requires none == []
    ensures ChildrenOf(g, none, map[]) && Tallied(g, none, map[], {})
  {
  }

  /** The parents of `keys` are counted, and those with none are ready. */
  ghost predicate Tallied(g: Graph, keys: seq<Key>, dependencies: map<Key, nat>, ready: set<Key>) {
    && (forall k :: k in dependencies <==> k in keys)
    && (forall k | k in keys :: dependencies[k] == |Up(g, k)|)
    && (forall k :: k in ready <==> k in keys && Up(g, k) == {})
  }

  lemma TalliedMore(g: Graph, keys: seq<Key>, key: Key, dependencies: map<Key, nat>, ready: set<Key>)
    requires Tallied(g, keys, dependencies, ready)
    ensures var n := |Up(g, key)|;
            Tallied(g, keys + [key], dependencies[key := n], if n == 0 then ready + {key} else ready)
  {
    hide Up;
  }

  lemma NothingMissing(g: Graph, k: Key)
    ensures Missing(g, {}, k) == |Up(g, k)|
    ensures k in Ready(g, {}) <==> k in g && Up(g, k) == {}
  {
    assert Up(g, k) - {} == Up(g, k);
  }

  lemma SameKeys(g: Graph, keys: seq<Key>, dependencies: map<Key, nat>)
    requires forall k :: k in dependencies <==> k in keys
    requires forall k :: k in keys <==> k in g.Keys
    ensures dependencies.Keys == g.Keys
  {
  }

  lemma NothingClosed(g: Graph)
    ensures Closed(g, {})
  {
  }

  lemma NothingDone(g: Graph, keys: seq<Key>, dependencies: map<Key, nat>, ready: set<Key>)
    requires Tallied(g, keys, dependencies, ready) && forall k :: k in keys <==> k in g.Keys
    ensures Counts(g, {}, dependencies, ready)
  {
    hide Up, Ready, Closed, Missing;
    SameKeys(g, keys, dependencies);
    forall k | k in g ensures dependencies[k] == Missing(g, {}, k) {
      NothingMissing(g, k);
    }
    forall k ensures k in ready <==> k in Ready(g, {}) {
      NothingMissing(g, k);
    }
    NothingClosed(g);
  }

  /** Finishing `key` takes one missing parent from each of its children. */
  method Release(g: Graph, ghost done: set<Key>, key: Key, kids: set<Key>, before: map<Key, nat>, readyBefore: set<Key>)
      returns (dependencies: map<Key, nat>, ready: set<Key>)
    requires Counts(g, done, before, readyBefore + {key}) && key !in readyBefore
    requires forall k :: k in kids <==> k in Children(g, key)
    ensures Counts(g, done + {key}, dependencies, ready)
  {
    hide Up, Children, Ready, Closed, Increasing, Counts;
    dependencies, ready := before, readyBefore;
    var children := Sorted(kids);
    KidsMissing(g, done, key, before, readyBefore, kids);
    for j := 0 to |children|
      invariant dependencies.Keys == g.Keys
      invariant forall k | k in g :: dependencies[k] + (if k in children[..j] then 1 else 0) == before[k]
      invariant forall k :: k in ready <==> k in readyBefore || (k in children[..j] && before[k] == 1)
    {
      var child := children[j];
      assert child in children;
      TakeNext(children, j);
      assert child !in children[..j];
      dependencies := dependencies[child := dependencies[child] - 1];
      if dependencies[child] == 0 {
        ready := ready + {child};
      }
    }
    TakeAll(children);
    ReadyNext(g, done, key, kids, before, readyBefore, dependencies, ready);
  }

  lemma MissingLess(g: Graph, done: set<Key>, key: Key, k: Key)
    requires key !in done
    ensures Missing(g, done + {key}, k) + (if key in Up(g, k) then 1 else 0) == Missing(g, done, k)
  {
    assert Up(g, k) - (done + {key}) == Up(g, k) - done - {key};
  }

  lemma KidsMissing(g: Graph, done: set<Key>, key: Key, before: map<Key, nat>, readyBefore: set<Key>, kids: set<Key>)
    requires Counts(g, done, before, readyBefore + {key})
    requires forall k :: k in kids <==> k in Children(g, key)
    ensures key in Ready(g, done) && key !in done && before.Keys == g.Keys
    ensures forall k | k in kids :: k in g && before[k] > 0
  {
    assert key in readyBefore + {key};
    forall k | k in kids ensures k in g && before[k] > 0 {
      ChildIff(g, key, k);
      MissingLess(g, done, key, k);
    }
  }

  lemma MissingNext(g: Graph, done: set<Key>, key: Key, kids: set<Key>, before: map<Key, nat>, k: Key, dependency: nat)
    requires key !in done && k in g && (k in kids <==> k in Children(g, key))
    requires before.Keys == g.Keys && before[k] == Missing(g, done, k)
    requires dependency + (if k in kids then 1 else 0) == before[k]
    ensures dependency == Missing(g, done + {key}, k)
  {
    hide Missing, Up, Children;
    ChildIff(g, key, k);
    MissingLess(g, done, key, k);
  }

  lemma ReadyNext(g: Graph, done: set<Key>, key: Key, kids: set<Key>, before: map<Key, nat>, readyBefore: set<Key>,
                  dependencies: map<Key, nat>, ready: set<Key>)
    requires Counts(g, done, before, readyBefore + {key}) && key !in readyBefore
    requires forall k :: k in kids <==> k in Children(g, key)
    requires dependencies.Keys == g.Keys
    requires forall k | k in g :: dependencies[k] + (if k in kids then 1 else 0) == before[k]
    requires forall k :: k in ready <==> k in readyBefore || (k in kids && k in g && before[k] == 1)
    ensures Counts(g, done + {key}, dependencies, ready)
  {
    hide Up, Children, Ready, Closed, Missing;
    KidsMissing(g, done, key, before, readyBefore, kids);
    forall k | k in g ensures dependencies[k] == Missing(g, done + {key}, k) {
      MissingNext(g, done, key, kids, before, k, dependencies[k]);
    }
    forall k ensures k in ready <==> k in Ready(g, done + {key}) {
      ReadyOne(g, done, key, kids, before, readyBefore, k);
    }
    ReadyCloses(g, done, key);
  }

  lemma ReadyOne(g: Graph, done: set<Key>, key: Key, kids: set<Key>, before: map<Key, nat>, readyBefore: set<Key>,
                 k: Key)
    requires Counts(g, done, before, readyBefore + {key}) && key !in readyBefore
    requires forall k :: k in kids <==> k in Children(g, key)
    ensures k in Ready(g, done + {key}) <==> k in readyBefore || (k in kids && k in g && before[k] == 1)
  {
    hide Up, Children, Ready, Missing, Closed;
    KidsMissing(g, done, key, before, readyBefore, kids);
    ReadyKnown(g, done, k);
    ReadyKnown(g, done + {key}, k);
    ChildIff(g, key, k);
    assert k in readyBefore + {key} <==> k in Ready(g, done);
    if k in g {
      ReadyAfter(g, done, key, k);
    }
  }

  lemma ReadyKnown(g: Graph, done: set<Key>, k: Key)
    ensures k in Ready(g, done) ==> k in g
  {
  }

  lemma ReadyCloses(g: Graph, done: set<Key>, key: Key)
    requires Closed(g, done) && key in Ready(g, done)
    ensures Closed(g, done + {key})
  {
  }

  lemma ReadyAfter(g: Graph, done: set<Key>, key: Key, k: Key)
    requires Closed(g, done) && key in Ready(g, done) && k in g
    ensures k in Ready(g, done + {key}) <==>
            (k in Ready(g, done) && k != key) || (key in Up(g, k) && Missing(g, done, k) == 1)
  {
    MissingLess(g, done, key, k);
    assert |Up(g, k) - (done + {key})| == 0 <==> Up(g, k) - (done + {key}) == {};
    assert Up(g, k) <= done + {key} <==> Up(g, k) - (done + {key}) == {};
    assert key in Up(g, k) ==> !(Up(g, k) <= done);
  }

  /** Classes in a deterministic topological order; fails exactly on a cycle. */
  method TopologicalOrder(parents: Graph) returns (result: Result<seq<Key>, ()>)
    ensures result.Ok? <==> Acyclic(parents)
    ensures result.Ok? ==> result.value == LeastOrder(parents, {}) && Topological(parents, result.value)
  {
    hide Counts, LeastOrder, Up, Children, Kids;
    var dependencies, children, ready := CountParents(parents);
    var order: seq<Key> := [];
    ghost var done: set<Key> := {};
    while ready != {}
      invariant Counts(parents, done, dependencies, ready)
      invariant order + LeastOrder(parents, done) == LeastOrder(parents, {})
      decreases |parents.Keys - done|
    {
      CountsReady(parents, done, dependencies, ready);
      var key := Least(ready);
      LeastOrderNext(parents, done);
      ready := ready - {key};
      assert ready + {key} == Ready(parents, done);
      dependencies, ready := Release(parents, done, key, Kids(children, key), dependencies, ready);
      assert order + ([key] + LeastOrder(parents, done + {key})) == order + [key] + LeastOrder(parents, done + {key});
      order := order + [key];
      done := done + {key};
    }
    CountsReady(parents, done, dependencies, ready);
    LeastOrderNext(parents, done);
    assert order + [] == order;
    LeastOrderComplete(parents);
    if |order| != |parents| {
      return Err(());
    }
    result := Ok(order);
  }

  lemma CountsReady(g: Graph, done: set<Key>, dependencies: map<Key, nat>, ready: set<Key>)
    requires Counts(g, done, dependencies, ready)
    ensures ready == Ready(g, done)
  {
  }

  lemma LeastOrderNext(g: Graph, done: set<Key>)
    ensures var ready := Ready(g, done);
            if ready == {} then LeastOrder(g, done) == []
            else LeastOrder(g, done) == [Least(ready)] + LeastOrder(g, done + {Least(ready)})
                 && |g.Keys - (done + {Least(ready)})| < |g.Keys - done|
  {
    var ready := Ready(g, done);
    if ready != {} {
      assert g.Keys - (done + {Least(ready)}) == g.Keys - done - {Least(ready)};
    }
  }
}
