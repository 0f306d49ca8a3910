/** Finite graphs given by parent sets: ancestry, cycles and topological order. */
module Graphs {
  import opened Base

  /** g[k] holds the parents of k; a parent outside g.Keys is unknown and no edge. */
  type Graph = map<Key, set<Key>>

  function Up(g: Graph, k: Key): (r: set<Key>)
  {
    if k in g then set p | p in g[k] && p in g else {}
  }

  function Children(g: Graph, p: Key): set<Key>
  {
    set k | k in g && p in Up(g, k)
  }

  /** k lies n edges below a. */
  ghost predicate Reach(g: Graph, n: nat, a: Key, k: Key)
  {
    if n == 0 then a == k else exists p | p in Up(g, k) :: Reach(g, n - 1, a, p)
  }

  ghost predicate Ancestor(g: Graph, a: Key, k: Key)
  {
    exists n: nat :: n > 0 && Reach(g, n, a, k)
  }

  ghost predicate AncestorOrSelf(g: Graph, a: Key, k: Key)
  {
    a == k || Ancestor(g, a, k)
  }

  ghost predicate Acyclic(g: Graph)
  {
    forall k | k in g :: !Ancestor(g, k, k)
  }

  lemma {:induction false} ReachTransitive(g: Graph, m: nat, n: nat, a: Key, b: Key, c: Key)
    requires Reach(g, m, a, b) && Reach(g, n, b, c)
    ensures Reach(g, m + n, a, c)
    decreases n
  {
    if n > 0 {
      var p :| p in Up(g, c) && Reach(g, n - 1, b, p);
      ReachTransitive(g, m, n - 1, a, b, p);
    }
  }

  lemma AncestorTransitive(g: Graph, a: Key, b: Key, c: Key)
    requires AncestorOrSelf(g, a, b) && AncestorOrSelf(g, b, c)
    ensures AncestorOrSelf(g, a, c)
    ensures Ancestor(g, a, b) || Ancestor(g, b, c) ==> Ancestor(g, a, c)
  {
    if Ancestor(g, a, b) && Ancestor(g, b, c) {
      var m: nat :| m > 0 && Reach(g, m, a, b);
      var n: nat :| n > 0 && Reach(g, n, b, c);
      ReachTransitive(g, m, n, a, b, c);
    }
  }

  /** Ancestry seen from below: through one parent. */
  lemma AncestorViaParent(g: Graph, a: Key, k: Key)
    ensures Ancestor(g, a, k) <==> exists p | p in Up(g, k) :: AncestorOrSelf(g, a, p)
  {
    if Ancestor(g, a, k) {
      var n: nat :| n > 0 && Reach(g, n, a, k);
      var p :| p in Up(g, k) && Reach(g, n - 1, a, p);
      assert AncestorOrSelf(g, a, p);
    }
    if p :| p in Up(g, k) && AncestorOrSelf(g, a, p) {
      assert Reach(g, 1, p, k) by { assert Reach(g, 0, p, p); }
      AncestorTransitive(g, a, p, k);
    }
  }

  lemma ParentIsAncestor(g: Graph, p: Key, k: Key)
    requires p in Up(g, k)
    ensures Ancestor(g, p, k)
  {
    assert Reach(g, 0, p, p);
    assert Reach(g, 1, p, k);
  }

  /** Ancestry seen from above: through one child. */
  lemma {:induction false} ReachViaChild(g: Graph, n: nat, a: Key, k: Key)
    requires n > 0 && Reach(g, n, a, k)
    ensures exists c | c in Children(g, a) :: Reach(g, n - 1, c, k)
  {
    var p :| p in Up(g, k) && Reach(g, n - 1, a, p);
    if n == 1 {
      assert k in Children(g, a) && Reach(g, 0, k, k);
    } else {
      ReachViaChild(g, n - 1, a, p);
      var c :| c in Children(g, a) && Reach(g, n - 2, c, p);
      assert Reach(g, n - 1, c, k);
    }
  }

  lemma AncestorViaChild(g: Graph, a: Key, k: Key)
    requires Ancestor(g, a, k)
    ensures exists c | c in Children(g, a) :: AncestorOrSelf(g, c, k)
  {
    var n: nat :| n > 0 && Reach(g, n, a, k);
    ReachViaChild(g, n, a, k);
    var c :| c in Children(g, a) && Reach(g, n - 1, c, k);
    assert AncestorOrSelf(g, c, k);
  }

  lemma AncestorKnown(g: Graph, a: Key, k: Key)
    requires Ancestor(g, a, k)
    ensures a in g && k in g
  {
    AncestorViaChild(g, a, k);
    AncestorViaParent(g, a, k);
  }

  /** With each member, s holds its parents. */
  ghost predicate Closed(g: Graph, s: set<Key>)
  {
    s <= g.Keys && forall k | k in s :: Up(g, k) <= s
  }

  lemma {:induction false} ClosedReach(g: Graph, s: set<Key>, n: nat, a: Key, k: Key)
    requires Closed(g, s) && k in s && Reach(g, n, a, k)
    ensures a in s
  {
    if n > 0 {
      var p :| p in Up(g, k) && Reach(g, n - 1, a, p);
      ClosedReach(g, s, n - 1, a, p);
    }
  }

  lemma ClosedAncestor(g: Graph, s: set<Key>, a: Key, k: Key)
    requires Closed(g, s) && k in s && AncestorOrSelf(g, a, k)
    ensures a in s
  {
    if a != k {
      var n: nat :| n > 0 && Reach(g, n, a, k);
      ClosedReach(g, s, n, a, k);
    }
  }

  /** Every key once, parents first. */
  ghost predicate Topological(g: Graph, order: seq<Key>)
  {
    && Distinct(order)
    && Elements(order) == g.Keys
    && ParentsFirst(g, order)
  }

  ghost predicate ParentsFirst(g: Graph, order: seq<Key>)
  {
    forall i | 0 <= i < |order| :: Up(g, order[i]) <= Elements(order[..i])
  }

  lemma PrefixClosed(g: Graph, order: seq<Key>, i: nat)
    requires ParentsFirst(g, order) && Elements(order) <= g.Keys && i <= |order|
    ensures Closed(g, Elements(order[..i]))
  {
    var s := Elements(order[..i]);
    forall k | k in s ensures k in g && Up(g, k) <= s {
      var j :| 0 <= j < i && order[..i][j] == k;
      assert order[j] == k && k in Elements(order);
      assert Up(g, order[j]) <= Elements(order[..j]);
      assert forall x | x in order[..j] :: x in order[..i];
    }
  }

  lemma {:induction false} NotBelowItself(g: Graph, order: seq<Key>, i: nat)
    requires ParentsFirst(g, order) && Elements(order) <= g.Keys && Distinct(order) && i < |order|
    ensures !Ancestor(g, order[i], order[i])
  {
    var k := order[i];
    if Ancestor(g, k, k) {
      AncestorViaParent(g, k, k);
      var p :| p in Up(g, k) && AncestorOrSelf(g, k, p);
      PrefixClosed(g, order, i);
      assert p in Elements(order[..i]);
      ClosedAncestor(g, Elements(order[..i]), k, p);
    }
  }

  /** Whatever can be put parents-first has no cycle. */
  lemma TopologicalAcyclic(g: Graph, order: seq<Key>)
    requires Topological(g, order)
    ensures Acyclic(g)
  {
    forall k | k in g ensures !Ancestor(g, k, k) {
      assert k in Elements(order);
      var i :| 0 <= i < |order| && order[i] == k;
      NotBelowItself(g, order, i);
    }
  }

  /** A nonempty set in which every key has a parent holds a cycle: walking up
      must return to a key already passed. `walk` is the walk so far, newest first. */
  lemma {:induction false} WalkFindsCycle(g: Graph, s: set<Key>, walk: seq<Key>)
    requires |walk| > 0 && Distinct(walk)
    requires forall k | k in walk :: k in s
    requires forall k | k in s :: Up(g, k) * s != {}
    requires forall i | 0 <= i < |walk| :: AncestorOrSelf(g, walk[0], walk[i])
    ensures exists k | k in s && k in g :: Ancestor(g, k, k)
    decreases |s| - |walk|
  {
    DistinctFits(walk, s);
    var top := walk[0];
    assert top in walk;
    assert top in s;
    var p := Member(Up(g, top) * s);
    ParentIsAncestor(g, p, top);
    forall i | 0 <= i < |walk| ensures Ancestor(g, p, walk[i]) {
      AncestorTransitive(g, p, top, walk[i]);
    }
    if p !in walk {
      DistinctFits([p] + walk, s);
      WalkFindsCycle(g, s, [p] + walk);
    }
  }

  /** An acyclic graph always has a key whose parents are all outside s. */
  lemma AcyclicHasSource(g: Graph, s: set<Key>)
    requires Acyclic(g) && s != {}
    ensures exists k | k in s :: Up(g, k) * s == {}
  {
    if forall k | k in s :: Up(g, k) * s != {} {
      var k := Member(s);
      WalkFindsCycle(g, s, [k]);
    }
  }
}
