/** Entering a record: with no parent, below one, or below several whose branches
    are all closed first. */
module PlacementEnter {
  import opened Base
  import opened Nodes
  import opened Graphs
  import opened Placements
  import opened MessageRuns
  import opened PlacementOrder
  import opened PlacementSteps
  import opened PlacementBooks

  // ---------------------------------------------------------------- merge

  /** What the states `taken` after the records `ps` defer is disjoint and last. */
  ghost predicate Apart(c: Corpus, done: set<Key>, ps: seq<Key>, taken: seq<Placement>) {
    && |ps| == |taken|
    && (forall i | 0 <= i < |taken| :: Known(c, taken[i].deferred))
    && (forall i | 0 <= i < |ps| :: taken[i].deferred != [] ==> NothingDone(c, done, ps[i]))
    && (forall i, d | 0 <= i < |ps| && d in taken[i].deferred :: d in done)
    && (forall i, j, d | 0 <= i < j < |ps| && d in taken[i].deferred :: d !in taken[j].deferred)
  }

  /** The states `taken` after the records `ps` are ready to be closed one by one. */
  ghost predicate Mergeable(c: Corpus, done: set<Key>, w: Placed, ps: seq<Key>, taken: seq<Placement>) {
    && Apart(c, done, ps, taken) && Good(c, w) && Acyclic(c.parents) && w.nodes.Keys <= done
    && (forall i | 0 <= i < |ps| :: StateOk(c, w, ps[i], taken[i]))
  }

  lemma ApartRest(c: Corpus, done: set<Key>, ps: seq<Key>, taken: seq<Placement>)
    requires Apart(c, done, ps, taken) && ps != []
    ensures Apart(c, done, ps[1..], taken[1..])
  {
  }

  lemma MergeClosable(c: Corpus, done: set<Key>, w: Placed, ps: seq<Key>, taken: seq<Placement>)
    requires Mergeable(c, done, w, ps, taken) && ps != []
    ensures Closable(c, w, ps[0], taken[0])
  {
  }

  lemma MergeKept(c: Corpus, done: set<Key>, w: Placed, ps: seq<Key>, taken: seq<Placement>, first: Closing)
    requires Mergeable(c, done, w, ps, taken) && ps != []
    requires ClosedAt(c, w, ps[0], first)
    requires first.placed.nodes.Keys == w.nodes.Keys + Elements(taken[0].deferred)
    ensures forall i | 0 < i < |ps| :: StateOk(c, first.placed, ps[i], taken[i])
  {
    forall i | 0 < i < |ps| ensures StateOk(c, first.placed, ps[i], taken[i]) {
      forall d | d in taken[i].deferred ensures d !in first.placed.nodes {
        assert d !in taken[0].deferred;
        assert StateOk(c, w, ps[i], taken[i]);
      }
      StateKept(c, w, first.placed, ps[i], taken[i]);
    }
  }

  lemma MergeFirst(c: Corpus, done: set<Key>, w: Placed, ps: seq<Key>, taken: seq<Placement>)
    requires Mergeable(c, done, w, ps, taken) && ps != []
    ensures var first := Close(c, w, taken[0].tail, taken[0].deferred);
            ClosedAt(c, w, ps[0], first) && Mergeable(c, done, first.placed, ps[1..], taken[1..])
  {
    hide Ancestor, Covered, Ordered, Grounded, Stands, Sourced, Deferring;
    MergeClosable(c, done, w, ps, taken);
    CloseGood(c, w, ps[0], taken[0]);
    CloseKeys(c, w, taken[0].tail, taken[0].deferred);
    var first := Close(c, w, taken[0].tail, taken[0].deferred);
    MergeKept(c, done, w, ps, taken, first);
    ApartRest(c, done, ps, taken);
    assert forall d | d in taken[0].deferred :: d in done;
  }

  /** All of `ps` is closed below one tail. */
  ghost predicate MergedAt(c: Corpus, w: Placed, ps: seq<Key>, closed: Closing) {
    && Good(c, closed.placed) && Extends(w, closed.placed)
    && (forall i | 0 <= i < |ps| :: Stands(c, closed.placed, ps[i], closed.tail, []))
    && (forall t | t in closed.tail :: FromOneOf(c, closed.placed, ps, t))
  }

  ghost predicate FromOneOf(c: Corpus, w: Placed, ps: seq<Key>, t: Node)
    requires Shaped(c, w)
  {
    exists i | 0 <= i < |ps| :: Sourced(c, w, ps[i], {t})
  }

  lemma StandsMore(c: Corpus, w: Placed, s: Key, tail: set<Node>, tail': set<Node>)
    requires Shaped(c, w) && Stands(c, w, s, tail, []) && tail <= tail'
    ensures Stands(c, w, s, tail', [])
  {
    forall a | AncestorOrSelf(c.parents, a, s) ensures a in w.nodes && Covered(LastOf(c, w, a), tail') {
      assert Covered(LastOf(c, w, a), tail);
    }
  }

  lemma ClosedKept(c: Corpus, w: Placed, w': Placed, s: Key, closed: Closing)
    requires ClosedAt(c, w, s, closed) && Good(c, w') && Extends(closed.placed, w')
    ensures Stands(c, w', s, closed.tail, [])
    ensures forall t | t in closed.tail :: Sourced(c, w', s, {t})
  {
    hide Ancestor, Covered, Ordered, Grounded, Stands, Deferring;
    StateKept(c, closed.placed, w', s, Placement(closed.tail, None, []));
  }

  lemma MergeRest(c: Corpus, w: Placed, ps: seq<Key>, first: Closing, rest: Closing)
    requires ps != [] && ClosedAt(c, w, ps[0], first) && MergedAt(c, first.placed, ps[1..], rest)
    ensures MergedAt(c, w, ps, Closing(rest.placed, first.tail + rest.tail))
  {
    hide Ancestor, Covered, Ordered, Grounded, Stands, Sourced, Deferring;
    var tail := first.tail + rest.tail;
    ExtendsTwice(w, first.placed, rest.placed);
    ClosedKept(c, w, rest.placed, ps[0], first);
    StandsMore(c, rest.placed, ps[0], first.tail, tail);
    forall i | 0 < i < |ps| ensures Stands(c, rest.placed, ps[i], tail, []) {
      assert ps[1..][i - 1] == ps[i];
      StandsMore(c, rest.placed, ps[i], rest.tail, tail);
    }
    forall t | t in tail ensures FromOneOf(c, rest.placed, ps, t) {
      if t in first.tail {
        assert Sourced(c, rest.placed, ps[0], {t});
      } else {
        assert FromOneOf(c, rest.placed, ps[1..], t);
        var i :| 0 <= i < |ps[1..]| && Sourced(c, rest.placed, ps[1..][i], {t});
        assert ps[1..][i] == ps[i + 1];
      }
    }
  }

  lemma {:induction false} MergeGood(c: Corpus, done: set<Key>, w: Placed, ps: seq<Key>, taken: seq<Placement>)
    requires Mergeable(c, done, w, ps, taken)
    ensures forall s | s in taken :: Known(c, s.deferred)
    ensures MergedAt(c, w, ps, CloseAll(c, w, taken))
    decreases |ps|
  {
    if ps != [] {
      MergeFirst(c, done, w, ps, taken);
      var first := Close(c, w, taken[0].tail, taken[0].deferred);
      MergeGood(c, done, first.placed, ps[1..], taken[1..]);
      MergeRest(c, w, ps, first, CloseAll(c, first.placed, taken[1..]));
    }
  }

  lemma {:induction false} MergeKeys(c: Corpus, w: Placed, taken: seq<Placement>)
    requires c.Valid() && forall s | s in taken :: Known(c, s.deferred)
    ensures forall x :: x in CloseAll(c, w, taken).placed.nodes <==>
                        x in w.nodes || exists i | 0 <= i < |taken| :: x in taken[i].deferred
    decreases |taken|
  {
    if taken != [] {
      CloseKeys(c, w, taken[0].tail, taken[0].deferred);
      var first := Close(c, w, taken[0].tail, taken[0].deferred);
      MergeKeys(c, first.placed, taken[1..]);
      forall x
        ensures (exists i | 0 <= i < |taken| :: x in taken[i].deferred) <==>
                x in taken[0].deferred || exists i | 0 <= i < |taken[1..]| :: x in taken[1..][i].deferred
      {
        if i :| 0 < i < |taken| && x in taken[i].deferred {
          assert x in taken[1..][i - 1].deferred;
        }
        if i :| 0 <= i < |taken[1..]| && x in taken[1..][i].deferred {
          assert x in taken[i + 1].deferred;
        }
      }
    }
  }

  // ----------------------------------------------------------- enter, done

  /** Entering k gives a state to perceive k from, and accounts for what the
      parents' states deferred. */
  ghost predicate Enters(c: Corpus, r: Run, k: Key, e: Working) {
    && Extends(r.placed, e.placed) && Entered(c, e.placed, k, e.state)
    && (forall d :: d in e.placed.nodes || d in e.state.deferred <==>
                    d in r.placed.nodes || DeferredBy(Waiting(r.states), Up(c.parents, k), d))
    && (forall d | d in e.state.deferred :: d !in e.placed.nodes)
  }

  lemma EnterRoot(c: Corpus, done: set<Key>, r: Run, k: Key)
    requires Invariant(c, done, r) && Runnable(c, r, k) && Fresh(c, r.placed, k) && Up(c.parents, k) == {}
    ensures Enters(c, r, k, Enter(c, r.placed, Taken(c, r, k)))
  {
    hide Ordered, Grounded, Books, StatesOk, Counted, HeldExactly;
    forall a ensures !Ancestor(c.parents, a, k) {
      AncestorViaParent(c.parents, a, k);
    }
  }

  lemma StateOf(c: Corpus, done: set<Key>, r: Run, p: Key)
    requires Invariant(c, done, r) && p in r.states
    ensures Good(c, r.placed) && Acyclic(c.parents)
    ensures var pl := r.states[p].state; StateOk(c, r.placed, p, pl) && Formed(c, p, pl) && Known(c, pl.deferred)
  {
    hide Ordered, Grounded, Books, Counted, HeldExactly, StateOk;
  }

  lemma OneParentJoins(c: Corpus, w: Placed, k: Key, p: Key, pl: Placement)
    requires Shaped(c, w) && k in c.parents && Up(c.parents, k) == {p} && StateOk(c, w, p, pl) && Formed(c, p, pl)
    ensures Alone(c, k, pl) || Joined(c, w, k, pl, p)
  {
    hide Shaped, StateOk, Tracks;
    var children := Children(c.parents, p);
    assert k in children;
    if |children| == 1 {
      OnlyMember(children, k, k);
    } else {
      assert children != {k};
    }
  }

  lemma EnterBelowOne(c: Corpus, done: set<Key>, r: Run, k: Key, p: Key)
    requires Invariant(c, done, r) && Runnable(c, r, k) && Fresh(c, r.placed, k) && Up(c.parents, k) == {p}
    ensures Entered(c, r.placed, k, r.states[p].state)
  {
    var pl := r.states[p].state;
    StateOf(c, done, r, p);
    hide Invariant, StateOk, Formed, Alone, Joined, Ordered, Grounded, AboveStands, AboveSourced;
    OneParentJoins(c, r.placed, k, p, pl);
    OneParentStands(c, r.placed, k, p, pl);
  }

  lemma OneParentStands(c: Corpus, w: Placed, k: Key, p: Key, pl: Placement)
    requires Shaped(c, w) && Up(c.parents, k) == {p} && StateOk(c, w, p, pl)
    ensures AboveStands(c, w, k, pl.tail, pl.deferred) && AboveSourced(c, w, k, pl.tail)
  {
    forall a ensures Ancestor(c.parents, a, k) <==> AncestorOrSelf(c.parents, a, p) {
      AncestorViaParent(c.parents, a, k);
    }
    hide Ancestor, Covered, Deferring;
  }

  lemma TakenOne(c: Corpus, r: Run, k: Key, p: Key)
    requires Runnable(c, r, k) && Up(c.parents, k) == {p}
    ensures Taken(c, r, k) == [r.states[p].state]
  {
    var incoming := Sorted(Up(c.parents, k));
    assert incoming[0] in incoming;
    assert incoming == [p];
  }

  lemma WaitingApart(c: Corpus, done: set<Key>, r: Run, p: Key)
    requires Invariant(c, done, r) && p in r.states
    ensures Waiting(r.states)[p] == r.states[p].state.deferred
    ensures forall d | d in r.states[p].state.deferred :: d in done && d !in r.placed.nodes
    ensures forall s, d | s in r.states && s != p && d in r.states[p].state.deferred :: d !in r.states[s].state.deferred
  {
    hide Good, StatesOk, Counted, HeldExactly, Acyclic;
    assert Waiting(r.states)[p] == r.states[p].state.deferred;
    assert forall s | s in r.states :: s in Waiting(r.states) && Waiting(r.states)[s] == r.states[s].state.deferred;
  }

  lemma DeferredByOne(states: map<Key, Live>, p: Key)
    requires p in states
    ensures forall d :: DeferredBy(Waiting(states), {p}, d) <==> d in states[p].state.deferred
  {
    assert Waiting(states)[p] == states[p].state.deferred;
    assert p in {p};
  }

  lemma ExtendsSelf(c: Corpus, w: Placed)
    requires Good(c, w)
    ensures Extends(w, w)
  {
    hide Ordered, Grounded;
  }

  lemma RunnableParent(c: Corpus, r: Run, k: Key, p: Key)
    requires Runnable(c, r, k) && p in Up(c.parents, k)
    ensures p in r.states && r.states[p].remaining > 0 && Known(c, r.states[p].state.deferred)
    ensures c.Valid() && k in c.parents
  {
  }

  lemma EnterOne(c: Corpus, done: set<Key>, r: Run, k: Key, p: Key)
    requires Invariant(c, done, r) && Runnable(c, r, k) && Fresh(c, r.placed, k) && Up(c.parents, k) == {p}
    ensures Enters(c, r, k, Enter(c, r.placed, Taken(c, r, k)))
  {
    hide Entered, Invariant, Extends, Runnable, Taken, Waiting, DeferredBy, Fresh, Good;
    assert p in Up(c.parents, k);
    RunnableParent(c, r, k, p);
    EnterBelowOne(c, done, r, k, p);
    InvariantGood(c, done, r);
    ExtendsSelf(c, r.placed);
    WaitingApart(c, done, r, p);
    TakenOne(c, r, k, p);
    DeferredByOne(r.states, p);
  }

  lemma TakenAt(c: Corpus, r: Run, k: Key, i: nat)
    requires Runnable(c, r, k) && i < |Up(c.parents, k)|
    ensures var p := Sorted(Up(c.parents, k))[i];
            p in Up(c.parents, k) && p in r.states && Taken(c, r, k)[i] == r.states[p].state
  {
    var p := Sorted(Up(c.parents, k))[i];
    assert p in Sorted(Up(c.parents, k));
  }

  /** pl is the state after p, which nothing done so far descends from if it still
      defers something, and which shares nothing it defers. */
  ghost predicate TakenFrom(c: Corpus, done: set<Key>, r: Run, p: Key, pl: Placement)
    requires Shaped(c, r.placed)
  {
    && p in r.states && pl == r.states[p].state && Known(c, pl.deferred)
    && StateOk(c, r.placed, p, pl)
    && (pl.deferred != [] ==> NothingDone(c, done, p))
    && (forall d | d in pl.deferred :: d in done)
    && (forall s, d | s in r.states && s != p && d in pl.deferred :: d !in r.states[s].state.deferred)
  }

  lemma TakenFacts(c: Corpus, done: set<Key>, r: Run, k: Key, i: nat)
    requires Invariant(c, done, r) && Runnable(c, r, k) && i < |Up(c.parents, k)|
    ensures Shaped(c, r.placed) && TakenFrom(c, done, r, Sorted(Up(c.parents, k))[i], Taken(c, r, k)[i])
  {
    hide StateOk, NothingDone, Invariant;
    InvariantGood(c, done, r);
    TakenAt(c, r, k, i);
    var p := Sorted(Up(c.parents, k))[i];
    StateOf(c, done, r, p);
    WaitingApart(c, done, r, p);
    if Taken(c, r, k)[i].deferred != [] {
      DeferringIsLast(c, done, r, p);
    }
  }

  lemma InvariantGood(c: Corpus, done: set<Key>, r: Run)
    requires Invariant(c, done, r)
    ensures Good(c, r.placed) && Acyclic(c.parents) && r.placed.nodes.Keys <= done
  {
    hide Good, StatesOk, Counted, HeldExactly;
  }

  lemma StatesApart(c: Corpus, done: set<Key>, r: Run, ps: seq<Key>, taken: seq<Placement>)
    requires Shaped(c, r.placed) && |ps| == |taken| && Distinct(ps)
    requires forall i | 0 <= i < |ps| :: TakenFrom(c, done, r, ps[i], taken[i])
    ensures Apart(c, done, ps, taken)
    ensures forall i | 0 <= i < |ps| :: StateOk(c, r.placed, ps[i], taken[i])
  {
    hide StateOk, NothingDone, Known, Shaped;
    forall i, j, d | 0 <= i < j < |ps| && d in taken[i].deferred ensures d !in taken[j].deferred {
      assert TakenFrom(c, done, r, ps[i], taken[i]) && TakenFrom(c, done, r, ps[j], taken[j]);
    }
  }

  lemma TakenApart(c: Corpus, done: set<Key>, r: Run, k: Key)
    requires Invariant(c, done, r) && Runnable(c, r, k)
    ensures Mergeable(c, done, r.placed, Sorted(Up(c.parents, k)), Taken(c, r, k))
  {
    hide Invariant, Runnable, Taken, Good, StateOk, Apart, TakenFrom, Increasing;
    InvariantGood(c, done, r);
    GoodShaped(c, r.placed);
    var ps := Sorted(Up(c.parents, k));
    var taken := Taken(c, r, k);
    forall i | 0 <= i < |ps| ensures TakenFrom(c, done, r, ps[i], taken[i]) {
      TakenFacts(c, done, r, k, i);
    }
    StatesApart(c, done, r, ps, taken);
  }

  lemma GoodShaped(c: Corpus, w: Placed)
    requires Good(c, w)
    ensures Shaped(c, w)
  {
    hide Shaped, Ordered, Grounded;
  }

  lemma EnterMerge(c: Corpus, done: set<Key>, r: Run, k: Key)
    requires Invariant(c, done, r) && Runnable(c, r, k) && k !in done && |Up(c.parents, k)| >= 2
    ensures Enters(c, r, k, Enter(c, r.placed, Taken(c, r, k)))
  {
    var ps := Sorted(Up(c.parents, k));
    var taken := Taken(c, r, k);
    TakenApart(c, done, r, k);
    MergeGood(c, done, r.placed, ps, taken);
    MergeKeys(c, r.placed, taken);
    MergeAccounts(c, r, k);
    MergeEnters(c, done, r, k, CloseAll(c, r.placed, taken));
  }

  lemma MergeAccounts(c: Corpus, r: Run, k: Key)
    requires Runnable(c, r, k)
    ensures forall d :: DeferredBy(Waiting(r.states), Up(c.parents, k), d) <==>
                        exists i | 0 <= i < |Taken(c, r, k)| :: d in Taken(c, r, k)[i].deferred
  {
    var ps := Sorted(Up(c.parents, k));
    var taken := Taken(c, r, k);
    forall i | 0 <= i < |ps| ensures ps[i] in Up(c.parents, k) && Waiting(r.states)[ps[i]] == taken[i].deferred {
      assert ps[i] in ps;
    }
    forall d
      ensures DeferredBy(Waiting(r.states), Up(c.parents, k), d) <==>
              exists i | 0 <= i < |taken| :: d in taken[i].deferred
    {
      if DeferredBy(Waiting(r.states), Up(c.parents, k), d) {
        var s :| s in Up(c.parents, k) && s in Waiting(r.states) && d in Waiting(r.states)[s];
        assert s in ps;
        var i :| 0 <= i < |ps| && ps[i] == s;
        assert d in taken[i].deferred;
      }
    }
  }

  lemma MergeStands(c: Corpus, r: Run, k: Key, closed: Closing)
    requires MergedAt(c, r.placed, Sorted(Up(c.parents, k)), closed)
    ensures AboveStands(c, closed.placed, k, closed.tail, [])
  {
    hide Ordered, Grounded, Covered, FromOneOf;
    var ps := Sorted(Up(c.parents, k));
    var w := closed.placed;
    forall a | Ancestor(c.parents, a, k) ensures a in w.nodes && Covered(LastOf(c, w, a), closed.tail) {
      AncestorViaParent(c.parents, a, k);
      var p :| p in Up(c.parents, k) && AncestorOrSelf(c.parents, a, p);
      assert p in ps;
      var i :| 0 <= i < |ps| && ps[i] == p;
      assert Stands(c, w, ps[i], closed.tail, []);
    }
  }

  lemma MergeSourced(c: Corpus, r: Run, k: Key, closed: Closing)
    requires MergedAt(c, r.placed, Sorted(Up(c.parents, k)), closed)
    ensures AboveSourced(c, closed.placed, k, closed.tail)
  {
    hide Ordered, Grounded, Stands;
    var ps := Sorted(Up(c.parents, k));
    var w := closed.placed;
    forall t | t in closed.tail
      ensures exists a | a in w.nodes :: LastOf(c, w, a) == t && Ancestor(c.parents, a, k)
    {
      assert FromOneOf(c, w, ps, t);
      var i :| 0 <= i < |ps| && Sourced(c, w, ps[i], {t});
      assert t in {t};
      var a :| a in w.nodes && LastOf(c, w, a) == t && AncestorOrSelf(c.parents, a, ps[i]);
      assert ps[i] in ps;
      ParentIsAncestor(c.parents, ps[i], k);
      AncestorTransitive(c.parents, a, ps[i], k);
    }
  }

  lemma StillFresh(c: Corpus, done: set<Key>, w: Placed, k: Key)
    requires Closed(c.parents, done) && w.nodes.Keys <= done && k in c.parents && k !in done
    ensures Fresh(c, w, k)
  {
    forall x | x in w.nodes ensures !AncestorOrSelf(c.parents, k, x) {
      if AncestorOrSelf(c.parents, k, x) {
        ClosedAncestor(c.parents, done, k, x);
      }
    }
  }

  lemma ManyAlone(c: Corpus, k: Key, tail: set<Node>)
    requires |Up(c.parents, k)| >= 2
    ensures Alone(c, k, Placement(tail, None, []))
  {
    forall p | p in Up(c.parents, k) ensures !Linked(c, p, k) {
      assert |{p}| == 1;
    }
  }

  lemma MergeEnters(c: Corpus, done: set<Key>, r: Run, k: Key, closed: Closing)
    requires Invariant(c, done, r) && Runnable(c, r, k) && k !in done && |Up(c.parents, k)| >= 2
    requires MergedAt(c, r.placed, Sorted(Up(c.parents, k)), closed)
    requires closed.placed.nodes.Keys <= done
    ensures Entered(c, closed.placed, k, Placement(closed.tail, None, []))
  {
    StillFresh(c, done, closed.placed, k);
    ManyAlone(c, k, closed.tail);
    MergeStands(c, r, k, closed);
    MergeSourced(c, r, k, closed);
    hide Books, StatesOk, Counted, HeldExactly, Ordered, Grounded, AboveStands, AboveSourced, Alone, Fresh, Stands;
  }

  /** Every class enters from its parents' states. */
  lemma EnterGood(c: Corpus, done: set<Key>, r: Run, k: Key)
    requires Invariant(c, done, r) && Runnable(c, r, k) && k !in done
    ensures Enters(c, r, k, Enter(c, r.placed, Taken(c, r, k)))
  {
    hide Invariant, Runnable, Enters, Taken, Fresh;
    InvariantFresh(c, done, r, k);
    var up := Up(c.parents, k);
    if up == {} {
      EnterRoot(c, done, r, k);
    } else if |up| == 1 {
      var p := Member(up);
      OnlyMember(up, p, p);
      EnterOne(c, done, r, k, p);
    } else {
      assert |up| != 0;
      EnterMerge(c, done, r, k);
    }
  }

  lemma InvariantFresh(c: Corpus, done: set<Key>, r: Run, k: Key)
    requires Invariant(c, done, r) && Runnable(c, r, k) && k !in done
    ensures Fresh(c, r.placed, k)
  {
    hide Ordered, Grounded, StatesOk, Counted, HeldExactly, Fresh;
    StillFresh(c, done, r.placed, k);
  }
}
