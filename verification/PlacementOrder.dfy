/** What placing keeps: node order follows record order, and nothing else does. */
module PlacementOrder {
  import opened Base
  import opened Nodes
  import opened Graphs
  import opened Placements
  import opened MessageRuns

  ghost predicate Shaped(c: Corpus, w: Placed) {
    && c.Valid()
    && w.nodes.Keys == w.firsts.Keys <= c.parents.Keys
    && (forall k | k in w.nodes :: w.nodes[k] == Chain(w.firsts[k], c.facts[k]))
    && Distinct(w.log)
    && Elements(w.log) == w.nodes.Keys
  }

  ghost function FirstOf(c: Corpus, w: Placed, k: Key): Node
    requires Shaped(c, w) && k in w.nodes
  {
    w.nodes[k][0]
  }

  ghost function LastOf(c: Corpus, w: Placed, k: Key): Node
    requires Shaped(c, w) && k in w.nodes
  {
    Last(w.nodes[k])
  }

  /** Record ancestors come first, except that a later act of the open message
      precedes what was logged inside it. */
  ghost predicate Ordered(c: Corpus, w: Placed)
    requires Shaped(c, w)
  {
    forall a, k | a in w.nodes && k in w.nodes && Ancestor(c.parents, a, k) ::
      if Late(c, a, k) then Before(LastOf(c, w, k), FirstOf(c, w, a))
      else Before(LastOf(c, w, a), FirstOf(c, w, k))
  }

  /** Record a may end right before record k: the converse of the order. */
  ghost predicate MayPrecede(c: Corpus, a: Key, k: Key) {
    (Ancestor(c.parents, a, k) && !Late(c, a, k)) || Late(c, k, a)
  }

  /** A class's first node follows only last nodes of classes that precede it. */
  ghost predicate Grounded(c: Corpus, w: Placed)
    requires Shaped(c, w)
  {
    forall k, t | k in w.firsts && t in w.firsts[k] ::
      exists a | a in w.nodes :: LastOf(c, w, a) == t && MayPrecede(c, a, k)
  }

  ghost predicate Good(c: Corpus, w: Placed) {
    Shaped(c, w) && Ordered(c, w) && Grounded(c, w)
  }

  ghost predicate Extends(w: Placed, w': Placed) {
    forall k | k in w.nodes ::
      k in w'.nodes && w'.nodes[k] == w.nodes[k] && k in w.firsts && k in w'.firsts && w'.firsts[k] == w.firsts[k]
  }

  /** x may be put after `previous`. */
  ghost predicate Fits(c: Corpus, w: Placed, x: Key, previous: set<Node>)
    requires Shaped(c, w)
  {
    && x in c.parents && x !in w.nodes
    && (forall a | a in w.nodes && Ancestor(c.parents, a, x) :: !Late(c, a, x) && Covered(LastOf(c, w, a), previous))
    && (forall k | k in w.nodes && Ancestor(c.parents, x, k) :: Late(c, x, k) && Covered(LastOf(c, w, k), previous))
    && (forall t | t in previous :: exists a | a in w.nodes :: LastOf(c, w, a) == t && MayPrecede(c, a, x))
  }

  lemma PutShaped(c: Corpus, w: Placed, x: Key, previous: set<Node>)
    requires Shaped(c, w) && x in c.parents && x !in w.nodes
    ensures var put := Put(c, w, x, previous);
            && Shaped(c, put.placed) && Extends(w, put.placed)
            && put.placed.nodes.Keys == w.nodes.Keys + {x}
            && put.placed.firsts[x] == previous
            && put.tail == {LastOf(c, put.placed, x)}
            && forall k | k in w.nodes ::
                 FirstOf(c, put.placed, k) == FirstOf(c, w, k) && LastOf(c, put.placed, k) == LastOf(c, w, k)
  {
    ElementsAppend(w.log, x);
  }

  lemma PutAbove(c: Corpus, w: Placed, x: Key, previous: set<Node>, n: Node)
    requires Shaped(c, w) && x in c.parents && x !in w.nodes
    requires Shaped(c, Put(c, w, x, previous).placed) && Covered(n, previous)
    ensures var w' := Put(c, w, x, previous).placed;
            Before(n, FirstOf(c, w', x)) && Before(n, LastOf(c, w', x))
  {
    CoveredBelowChain(n, previous, c.facts[x]);
  }

  lemma PutOrdered(c: Corpus, w: Placed, x: Key, previous: set<Node>)
    requires Shaped(c, w) && Ordered(c, w) && Acyclic(c.parents) && Fits(c, w, x, previous)
    ensures var w' := Put(c, w, x, previous).placed; Shaped(c, w') && Ordered(c, w')
  {
    PutShaped(c, w, x, previous);
    var w' := Put(c, w, x, previous).placed;
    forall a, k | a in w'.nodes && k in w'.nodes && Ancestor(c.parents, a, k)
      ensures if Late(c, a, k) then Before(LastOf(c, w', k), FirstOf(c, w', a))
              else Before(LastOf(c, w', a), FirstOf(c, w', k))
    {
      if a == x {
        assert k != x;
        PutAbove(c, w, x, previous, LastOf(c, w, k));
      } else if k == x {
        PutAbove(c, w, x, previous, LastOf(c, w, a));
      }
    }
  }

  lemma PutGrounded(c: Corpus, w: Placed, x: Key, previous: set<Node>)
    requires Shaped(c, w) && Grounded(c, w) && Fits(c, w, x, previous)
    ensures var w' := Put(c, w, x, previous).placed; Shaped(c, w') && Grounded(c, w')
  {
    PutShaped(c, w, x, previous);
    var w' := Put(c, w, x, previous).placed;
    forall k, t | k in w'.firsts && t in w'.firsts[k]
      ensures exists a | a in w'.nodes :: LastOf(c, w', a) == t && MayPrecede(c, a, k)
    {
      var a :| a in w.nodes && LastOf(c, w, a) == t && MayPrecede(c, a, k);
      assert LastOf(c, w', a) == t;
    }
  }

  lemma PutGood(c: Corpus, w: Placed, x: Key, previous: set<Node>)
    requires Good(c, w) && Acyclic(c.parents) && Fits(c, w, x, previous)
    ensures var put := Put(c, w, x, previous);
            && Good(c, put.placed) && Extends(w, put.placed)
            && put.placed.nodes.Keys == w.nodes.Keys + {x}
            && put.tail == {LastOf(c, put.placed, x)}
            && forall k | k in w.nodes :: LastOf(c, put.placed, k) == LastOf(c, w, k)
  {
    PutShaped(c, w, x, previous);
    PutOrdered(c, w, x, previous);
    PutGrounded(c, w, x, previous);
  }

  /** Everything up to s is placed below the tail, or deferred. */
  ghost predicate Stands(c: Corpus, w: Placed, s: Key, tail: set<Node>, deferred: seq<Key>)
    requires Shaped(c, w)
  {
    forall a | AncestorOrSelf(c.parents, a, s) ::
      a in deferred || (a in w.nodes && Covered(LastOf(c, w, a), tail))
  }

  /** The tail holds last nodes of records up to s only. */
  ghost predicate Sourced(c: Corpus, w: Placed, s: Key, tail: set<Node>)
    requires Shaped(c, w)
  {
    forall t | t in tail ::
      exists a | a in w.nodes :: LastOf(c, w, a) == t && AncestorOrSelf(c.parents, a, s)
  }

  ghost predicate InOrder(g: Graph, deferred: seq<Key>) {
    forall i, j | 0 <= i < j < |deferred| :: Ancestor(g, deferred[i], deferred[j])
  }

  /** What is deferred waits at s, unplaced, in record order, after what waited
      before it and is placed. */
  ghost predicate Deferring(c: Corpus, w: Placed, s: Key, deferred: seq<Key>) {
    && (forall d | d in deferred :: d !in w.nodes && Waits(c, d, s))
    && InOrder(c.parents, deferred)
    && (forall k, d | k in w.nodes && d in deferred && Waits(c, k, s) :: Ancestor(c.parents, k, d))
  }

  /** The placement `pl` reached after record s stands for everything up to s. */
  ghost predicate StateOk(c: Corpus, w: Placed, s: Key, pl: Placement)
    requires Shaped(c, w)
  {
    && s in c.parents && Stands(c, w, s, pl.tail, pl.deferred)
    && Sourced(c, w, s, pl.tail) && Deferring(c, w, s, pl.deferred)
  }

  ghost predicate NothingBelow(c: Corpus, w: Placed, s: Key) {
    forall k | k in w.nodes :: !Ancestor(c.parents, s, k)
  }

  lemma StateKept(c: Corpus, w: Placed, w': Placed, s: Key, pl: Placement)
    requires Shaped(c, w) && Shaped(c, w') && Extends(w, w') && StateOk(c, w, s, pl)
    requires forall d | d in pl.deferred :: d !in w'.nodes
    ensures StateOk(c, w', s, pl)
  {
    forall a | AncestorOrSelf(c.parents, a, s)
      ensures a in pl.deferred || (a in w.nodes && a in w'.nodes && Covered(LastOf(c, w', a), pl.tail))
    {
      if a !in pl.deferred {
        assert LastOf(c, w', a) == LastOf(c, w, a);
      }
    }
    forall t | t in pl.tail
      ensures exists a | a in w'.nodes :: LastOf(c, w', a) == t && AncestorOrSelf(c.parents, a, s)
    {
      var a :| a in w.nodes && LastOf(c, w, a) == t && AncestorOrSelf(c.parents, a, s);
      assert LastOf(c, w', a) == t;
    }
    forall k, d | k in w'.nodes && d in pl.deferred && Waits(c, k, s)
      ensures Ancestor(c.parents, k, d)
    {
      WaitsBelow(c, k, s);
      assert k in w.nodes;
    }
  }

  /** The first deferred record fits after the message that deferred it. */
  lemma DeferredFits(c: Corpus, w: Placed, s: Key, pl: Placement)
    requires Good(c, w) && Acyclic(c.parents) && StateOk(c, w, s, pl) && NothingBelow(c, w, s)
    requires pl.deferred != []
    ensures Fits(c, w, pl.deferred[0], pl.tail)
  {
    var x := pl.deferred[0];
    assert x in pl.deferred;
    WaitsBelow(c, x, s);
    forall a | a in w.nodes && Ancestor(c.parents, a, x)
      ensures !Late(c, a, x) && Covered(LastOf(c, w, a), pl.tail)
    {
      AncestorTransitive(c.parents, a, x, s);
    }
    forall k | k in w.nodes && Ancestor(c.parents, x, k)
      ensures Late(c, x, k) && Covered(LastOf(c, w, k), pl.tail)
    {
      PlacedBelowDeferred(c, w, s, pl, x, k);
    }
    forall t | t in pl.tail
      ensures exists a | a in w.nodes :: LastOf(c, w, a) == t && MayPrecede(c, a, x)
    {
      var a :| a in w.nodes && LastOf(c, w, a) == t && AncestorOrSelf(c.parents, a, s);
      PlacedMayPrecede(c, w, s, pl, x, a);
    }
  }

  /** What is placed below a deferred record is a later act of its message. */
  lemma PlacedBelowDeferred(c: Corpus, w: Placed, s: Key, pl: Placement, x: Key, k: Key)
    requires Shaped(c, w) && Acyclic(c.parents) && StateOk(c, w, s, pl) && NothingBelow(c, w, s)
    requires x in pl.deferred && k in w.nodes && Ancestor(c.parents, x, k)
    ensures Late(c, x, k) && Covered(LastOf(c, w, k), pl.tail)
  {
    var m, n := WaitsNeedsOpen(c, x, s);
    var j: nat :| j > 0 && Reach(c.parents, j, x, k);
    var past, i, rest := RunIsOnlyWayDown(c, m, n, x, s, j, k);
    if past {
      assert k == s;
      i, rest := n, 0;
    }
    OnRun(c, w, s, pl, m, i, rest, x, k);
  }

  lemma PlacedMayPrecede(c: Corpus, w: Placed, s: Key, pl: Placement, x: Key, a: Key)
    requires Shaped(c, w) && Acyclic(c.parents) && StateOk(c, w, s, pl) && NothingBelow(c, w, s)
    requires x in pl.deferred && a in w.nodes && AncestorOrSelf(c.parents, a, s)
    ensures MayPrecede(c, a, x)
  {
    var m, n := WaitsNeedsOpen(c, x, s);
    var j: nat := AtDistance(c.parents, a, s);
    var above, i := RunIsOnlyWayUp(c, m, n, x, s, j, a);
    if !above && a != x {
      RunReaches(c, m, i, x, a);
      PlacedBelowDeferred(c, w, s, pl, x, a);
    } else {
      assert c.flow[x] == Inside;
    }
  }

  lemma AtDistance(g: Graph, a: Key, s: Key) returns (j: nat)
    requires AncestorOrSelf(g, a, s)
    ensures Reach(g, j, a, s)
  {
    if a == s {
      j := 0;
    } else {
      j :| j > 0 && Reach(g, j, a, s);
    }
  }

  /** A record on the run below a deferred one is an act of its message, or
      waits like it. */
  lemma OnRunIsAct(c: Corpus, m: Message, i: nat, i': nat, x: Key, k: Key, s: Key)
    requires c.flow.Keys == c.parents.Keys
    requires x in c.flow && c.flow[x] == Inside && Open(c, m, x) && x != k
    requires InRun(c, m, i, x, k) && InRun(c, m, i', k, s)
    ensures Late(c, x, k) || Waits(c, k, s)
    ensures Ancestor(c.parents, x, k) && AncestorOrSelf(c.parents, k, s)
  {
    RunReaches(c, m, i, x, k);
    RunReaches(c, m, i', k, s);
    RunKeepsOpen(c, m, i, x, k);
    assert Continues(c, m, k);
    assert Waits(c, x, k);
  }

  lemma OnRun(c: Corpus, w: Placed, s: Key, pl: Placement, m: Message, i: nat, i': nat, x: Key, k: Key)
    requires Shaped(c, w) && Acyclic(c.parents) && StateOk(c, w, s, pl)
    requires x in pl.deferred && Open(c, m, x) && k in w.nodes
    requires InRun(c, m, i, x, k) && InRun(c, m, i', k, s)
    ensures Late(c, x, k) && Covered(LastOf(c, w, k), pl.tail)
  {
    assert x in c.flow && c.flow[x] == Inside && x != k;
    OnRunIsAct(c, m, i, i', x, k, s);
    if Waits(c, k, s) {
      assert Ancestor(c.parents, k, x);
      AncestorTransitive(c.parents, x, k, x);
      AncestorKnown(c.parents, x, k);
      assert false;
    }
    assert k !in pl.deferred;
  }

  lemma InOrderTail(g: Graph, deferred: seq<Key>)
    requires Acyclic(g) && deferred != [] && InOrder(g, deferred)
    ensures var rest := deferred[1..];
            && InOrder(g, rest)
            && (forall d | d in rest :: Ancestor(g, deferred[0], d) && d != deferred[0])
            && (forall d | d in deferred :: d == deferred[0] || d in rest)
  {
    var rest := deferred[1..];
    assert deferred == [deferred[0]] + rest;
    forall i, j | 0 <= i < j < |rest| ensures Ancestor(g, rest[i], rest[j]) {
      assert Ancestor(g, deferred[i + 1], deferred[j + 1]);
    }
    forall d | d in rest ensures Ancestor(g, deferred[0], d) && d != deferred[0] {
      var i :| 0 <= i < |rest| && rest[i] == d;
      assert Ancestor(g, deferred[0], deferred[i + 1]);
      AncestorKnown(g, deferred[0], d);
    }
  }

  /** Once its first deferred record is placed, a state stands for the same records. */
  lemma FirstPlacedStands(c: Corpus, w: Placed, s: Key, pl: Placement)
    requires Shaped(c, w) && Stands(c, w, s, pl.tail, pl.deferred)
    requires pl.deferred != [] && pl.deferred[0] in c.parents && pl.deferred[0] !in w.nodes
    requires AncestorOrSelf(c.parents, pl.deferred[0], s)
    ensures var put := Put(c, w, pl.deferred[0], pl.tail);
            && Shaped(c, put.placed)
            && Stands(c, put.placed, s, put.tail, pl.deferred[1..])
            && Sourced(c, put.placed, s, put.tail)
  {
    hide Chain, Ancestor, Close;
    var x := pl.deferred[0];
    PutShaped(c, w, x, pl.tail);
    var put := Put(c, w, x, pl.tail);
    var w' := put.placed;
    var rest := pl.deferred[1..];
    forall a | AncestorOrSelf(c.parents, a, s)
      ensures a in rest || (a in w'.nodes && Covered(LastOf(c, w', a), put.tail))
    {
      assert LastOf(c, w', x) in put.tail;
      if a != x && a !in rest {
        assert a !in pl.deferred by { assert pl.deferred == [x] + rest; }
        assert a in w.nodes && Covered(LastOf(c, w, a), pl.tail);
        PutAbove(c, w, x, pl.tail, LastOf(c, w, a));
      }
    }
    forall t | t in put.tail
      ensures exists a | a in w'.nodes :: LastOf(c, w', a) == t && AncestorOrSelf(c.parents, a, s)
    {
      assert LastOf(c, w', x) == t;
    }
  }

  lemma FirstPlacedDefers(c: Corpus, w: Placed, s: Key, pl: Placement, w': Placed)
    requires Acyclic(c.parents) && Deferring(c, w, s, pl.deferred) && pl.deferred != []
    requires w'.nodes.Keys == w.nodes.Keys + {pl.deferred[0]}
    ensures Deferring(c, w', s, pl.deferred[1..])
  {
    InOrderTail(c.parents, pl.deferred);
    assert forall d | d in pl.deferred[1..] :: d in pl.deferred;
    forall k | k in w'.nodes ensures k in w.nodes || k == pl.deferred[0] {
    }
  }

  lemma {:induction false} CloseKeys(c: Corpus, w: Placed, tail: set<Node>, deferred: seq<Key>)
    requires c.Valid() && Known(c, deferred)
    ensures Close(c, w, tail, deferred).placed.nodes.Keys == w.nodes.Keys + Elements(deferred)
    decreases |deferred|
  {
    if deferred == [] {
      assert Elements(deferred) == {};
    } else {
      var first := Put(c, w, deferred[0], tail);
      CloseKeys(c, first.placed, first.tail, deferred[1..]);
      ElementsCons(deferred);
      assert first.placed.nodes.Keys == w.nodes.Keys + {deferred[0]};
    }
  }

  /** Record s's open message can be closed. */
  ghost predicate Closable(c: Corpus, w: Placed, s: Key, pl: Placement) {
    && Good(c, w) && Acyclic(c.parents)
    && StateOk(c, w, s, pl)
    && (pl.deferred != [] ==> NothingBelow(c, w, s))
    && Known(c, pl.deferred)
  }

  /** Record s's message is closed: nothing is deferred any more. */
  ghost predicate ClosedAt(c: Corpus, w: Placed, s: Key, closed: Closing) {
    && Good(c, closed.placed) && Extends(w, closed.placed)
    && StateOk(c, closed.placed, s, Placement(closed.tail, None, []))
  }

  lemma CloseFirst(c: Corpus, w: Placed, s: Key, pl: Placement)
    requires Closable(c, w, s, pl) && pl.deferred != []
    ensures var put := Put(c, w, pl.deferred[0], pl.tail);
            Extends(w, put.placed) && Closable(c, put.placed, s, Placement(put.tail, pl.message, pl.deferred[1..]))
  {
    var x := pl.deferred[0];
    DeferredFits(c, w, s, pl);
    PutGood(c, w, x, pl.tail);
    assert x in pl.deferred;
    WaitsBelow(c, x, s);
    FirstPlacedStands(c, w, s, pl);
    FirstPlacedDefers(c, w, s, pl, Put(c, w, x, pl.tail).placed);
    if Ancestor(c.parents, s, x) {
      AncestorTransitive(c.parents, s, x, s);
    }
  }

  lemma ClosedSooner(c: Corpus, w: Placed, w': Placed, s: Key, closed: Closing)
    requires Extends(w, w') && ClosedAt(c, w', s, closed)
    ensures ClosedAt(c, w, s, closed)
  {
  }

  lemma NothingToClose(c: Corpus, w: Placed, s: Key, pl: Placement)
    requires Closable(c, w, s, pl) && pl.deferred == []
    ensures ClosedAt(c, w, s, Closing(w, pl.tail))
  {
  }

  /** Closing a message places all it deferred, in order, and keeps the order. */
  lemma {:induction false} CloseGood(c: Corpus, w: Placed, s: Key, pl: Placement)
    requires Closable(c, w, s, pl)
    ensures ClosedAt(c, w, s, Close(c, w, pl.tail, pl.deferred))
    decreases |pl.deferred|
  {
    if pl.deferred == [] {
      NothingToClose(c, w, s, pl);
    } else {
      CloseFirst(c, w, s, pl);
      var put := Put(c, w, pl.deferred[0], pl.tail);
      var rest := Placement(put.tail, pl.message, pl.deferred[1..]);
      CloseGood(c, put.placed, s, rest);
      ClosedSooner(c, w, put.placed, s, Close(c, put.placed, rest.tail, rest.deferred));
    }
  }
}
