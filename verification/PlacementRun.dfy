/** The whole run: over any parents-first order of an acyclic corpus every
    lookup succeeds, every class is placed once or held, and node order is
    record order. */
module PlacementRuns {
  import opened Base
  import opened Nodes
  import opened Graphs
  import opened Placements
  import opened MessageRuns
  import opened PlacementOrder
  import opened PlacementSteps
  import opened PlacementBooks
  import opened PlacementEnter

  // ---------------------------------------------------------------- leave

  /** Between perceiving k and leaving: k's state is in hand, the others stand. */
  ghost predicate InHand(c: Corpus, done: set<Key>, e: Working, k: Key, states: map<Key, Live>, held: set<Key>) {
    && Acyclic(c.parents) && Closed(c.parents, done) && k in done && k !in states
    && Children(c.parents, k) !! done
    && Perceived(c, e.placed, k, e.state)
    && Books(done, e.placed.nodes.Keys, Waiting(states)[k := e.state.deferred], held)
    && StatesOk(c, e.placed, states)
    && CountedBut(c, done, k, states)
    && HeldExactly(c, done - {k}, held)
  }

  ghost predicate CountedBut(c: Corpus, done: set<Key>, k: Key, states: map<Key, Live>) {
    && (forall s :: s in states <==> s in done && s != k && Children(c.parents, s) - done != {})
    && (forall s | s in states :: states[s].remaining == |Children(c.parents, s) - done|)
  }

  lemma LeftAfter(c: Corpus, done: set<Key>, k: Key, s: Key)
    requires k in c.parents && k !in done
    ensures var left := Children(c.parents, s) - done;
            var left' := Children(c.parents, s) - (done + {k});
            && (s in Up(c.parents, k) ==> k in left && |left'| == |left| - 1)
            && (s !in Up(c.parents, k) ==> left' == left)
  {
    var left := Children(c.parents, s) - done;
    assert Children(c.parents, s) - (done + {k}) == left - {k};
  }

  lemma ReleaseAt(c: Corpus, done: set<Key>, r: Run, k: Key, s: Key)
    requires Counted(c, done, r.states) && Runnable(c, r, k) && k !in done
    ensures var states := Release(r.states, Up(c.parents, k));
            var left := Children(c.parents, s) - (done + {k});
            && (s in states <==> s in done + {k} && s != k && left != {})
            && (s in states ==> states[s].remaining == |left|)
  {
    hide Known, Up, Children;
    LeftAfter(c, done, k, s);
    var left := Children(c.parents, s) - (done + {k});
    assert left == {} <==> |left| == 0;
  }

  lemma ReleaseCounted(c: Corpus, done: set<Key>, r: Run, k: Key)
    requires Counted(c, done, r.states) && Runnable(c, r, k) && k !in done
    ensures CountedBut(c, done + {k}, k, Release(r.states, Up(c.parents, k)))
  {
    hide Release, Up, Children, Counted;
    forall s {
      ReleaseAt(c, done, r, k, s);
    }
  }

  lemma ReleaseBooks(c: Corpus, done: set<Key>, r: Run, k: Key, e: Working)
    requires Invariant(c, done, r) && Runnable(c, r, k) && k !in done && Enters(c, r, k, e)
    ensures var states := Release(r.states, Up(c.parents, k));
            Books(done, e.placed.nodes.Keys, Waiting(states)[k := e.state.deferred], r.held)
  {
    hide Good, HeldExactly, Entered, StateOk, Tracks, Known, DeferredBy;
    var states := Release(r.states, Up(c.parents, k));
    var waiting' := Waiting(states)[k := e.state.deferred];
    forall s | s in waiting' && s != k
      ensures waiting'[s] == Waiting(r.states)[s] && (s in Up(c.parents, k) ==> Waiting(r.states)[s] == [])
    {
      if s in Up(c.parents, k) {
        assert r.states[s].remaining >= 2;
        SubsetSize(Children(c.parents, s) - done, Children(c.parents, s));
        assert Formed(c, s, r.states[s].state);
      }
    }
    BooksEnter(done, r.placed.nodes.Keys, Waiting(r.states), r.held, Up(c.parents, k), k,
               e.placed.nodes.Keys, waiting');
  }

  lemma PerceiveBooks(c: Corpus, done: set<Key>, k: Key, entered: Working, e: Working,
                      states: map<Key, Live>, held: set<Key>)
    requires Books(done, entered.placed.nodes.Keys, Waiting(states)[k := entered.state.deferred], held)
    requires k !in done && Perceives(c, entered.placed, k, entered.state, e)
    ensures Books(done + {k}, e.placed.nodes.Keys, Waiting(states)[k := e.state.deferred], held)
  {
    hide Ordered, Grounded, Stands, Sourced, Tracks, Books, Known;
    var waiting := Waiting(states)[k := entered.state.deferred];
    BooksPerceive(done, entered.placed.nodes.Keys, waiting, held, k, e.placed.nodes.Keys, e.state.deferred);
    assert waiting[k := e.state.deferred] == Waiting(states)[k := e.state.deferred];
  }

  /** Placing more leaves the other states standing. */
  lemma OthersKept(c: Corpus, done: set<Key>, w: Placed, w': Placed, k: Key, deferred: seq<Key>,
                   states: map<Key, Live>, states': map<Key, Live>, held: set<Key>)
    requires Good(c, w) && Good(c, w') && Extends(w, w') && StatesOk(c, w, states)
    requires forall s | s in states' :: s in states && s != k && states'[s].state == states[s].state
    requires Books(done, w'.nodes.Keys, Waiting(states')[k := deferred], held)
    ensures StatesOk(c, w', states')
  {
    hide Ordered, Grounded, StateOk, Formed, Known;
    forall s | s in states'
      ensures StateOk(c, w', s, states'[s].state) && Formed(c, s, states'[s].state)
              && Known(c, states'[s].state.deferred)
    {
      var pl := states'[s].state;
      assert (Waiting(states')[k := deferred])[s] == pl.deferred;
      StateKept(c, w, w', s, pl);
    }
  }

  lemma ChildrenToCome(c: Corpus, done: set<Key>, k: Key)
    requires Acyclic(c.parents) && Closed(c.parents, done) && k in c.parents && k !in done
    ensures Children(c.parents, k) !! done + {k}
  {
    if x :| x in Children(c.parents, k) && x in done + {k} {
      ParentIsAncestor(c.parents, k, x);
    }
  }

  lemma PerceiveInHand(c: Corpus, done: set<Key>, r: Run, k: Key)
    requires Invariant(c, done, r) && Runnable(c, r, k) && k !in done && Up(c.parents, k) <= done
    ensures var e := Perceive(c, Enter(c, r.placed, Taken(c, r, k)), k);
            InHand(c, done + {k}, e, k, Release(r.states, Up(c.parents, k)), r.held)
  {
    hide Enters, Entered, Perceives, Perceived, Taken, Enter, Perceive, Release, Good, Books, StatesOk, CountedBut,
      HeldExactly, Children;
    var entered := Enter(c, r.placed, Taken(c, r, k));
    var states := Release(r.states, Up(c.parents, k));
    EnterGood(c, done, r, k);
    EntersEntered(c, r, k, entered);
    PerceiveGood(c, entered.placed, k, entered.state);
    var e := Perceive(c, entered, k);
    ReleaseBooks(c, done, r, k, entered);
    PerceiveBooks(c, done, k, entered, e, states, r.held);
    PerceivesGood(c, r, k, entered, e);
    ReleaseKeeps(c, done, r, k);
    OthersKept(c, done + {k}, r.placed, e.placed, k, e.state.deferred, r.states, states, r.held);
    ReleaseCounted(c, done, r, k);
    ChildrenToCome(c, done, k);
    assert done + {k} - {k} == done;
  }

  lemma ReleaseKeeps(c: Corpus, done: set<Key>, r: Run, k: Key)
    requires Counted(c, done, r.states) && Runnable(c, r, k) && k !in done
    ensures var states := Release(r.states, Up(c.parents, k));
            forall s | s in states :: s in r.states && s != k && states[s].state == r.states[s].state
  {
    hide Known, Up, Children;
  }

  lemma EntersEntered(c: Corpus, r: Run, k: Key, e: Working)
    requires Enters(c, r, k, e)
    ensures Entered(c, e.placed, k, e.state) && Extends(r.placed, e.placed)
    ensures c.Valid() && k in c.parents && Known(c, e.state.deferred)
  {
    hide Ordered, Grounded;
  }

  lemma PerceivesGood(c: Corpus, r: Run, k: Key, entered: Working, e: Working)
    requires Enters(c, r, k, entered) && Perceives(c, entered.placed, k, entered.state, e)
    ensures Perceived(c, e.placed, k, e.state) && Good(c, e.placed) && Extends(r.placed, e.placed)
  {
    hide Entered, Ordered, Grounded, StateOk, Tracks, DeferredBy;
    ExtendsTwice(r.placed, entered.placed, e.placed);
  }

  lemma WaitingStored(states: map<Key, Live>, k: Key, live: Live)
    ensures Waiting(states[k := live]) == Waiting(states)[k := live.state.deferred]
  {
  }

  lemma StatesStored(c: Corpus, w: Placed, states: map<Key, Live>, k: Key, live: Live)
    requires Shaped(c, w) && StatesOk(c, w, states)
    requires StateOk(c, w, k, live.state) && Formed(c, k, live.state) && Known(c, live.state.deferred)
    ensures StatesOk(c, w, states[k := live])
  {
    hide Shaped, StateOk, Formed, Known;
  }

  /** The invariant follows once k's state is stored, or gone with its branch. */
  lemma LeaveStored(c: Corpus, done: set<Key>, e: Working, k: Key, states: map<Key, Live>, held: set<Key>)
    requires InHand(c, done, e, k, states, held) && |Children(c.parents, k)| == 1
    ensures Invariant(c, done, Leave(c, e, k, states, held))
  {
    hide Ordered, Grounded, StateOk, Tracks, Books, Known, StatesOk, Children, HeldExactly, Counted, CountedBut,
      Waiting;
    var live := Live(e.state, 1);
    WaitingStored(states, k, live);
    StatesStored(c, e.placed, states, k, live);
    StoredCounted(c, done, k, states, live);
    StoredHeld(c, done, k, held);
  }

  lemma StoredCounted(c: Corpus, done: set<Key>, k: Key, states: map<Key, Live>, live: Live)
    requires CountedBut(c, done, k, states) && k in done && Children(c.parents, k) !! done
    requires live.remaining == |Children(c.parents, k)| > 0
    ensures Counted(c, done, states[k := live])
  {
    hide Children;
    assert Children(c.parents, k) - done == Children(c.parents, k);
  }

  lemma StoredHeld(c: Corpus, done: set<Key>, k: Key, held: set<Key>)
    requires HeldExactly(c, done - {k}, held) && Children(c.parents, k) != {}
    ensures HeldExactly(c, done, held)
  {
    hide Children, Waits, Settles;
  }

  /** k's message may be closed: nothing below k is placed. */
  lemma HandClosable(c: Corpus, done: set<Key>, e: Working, k: Key, states: map<Key, Live>, held: set<Key>)
    requires InHand(c, done, e, k, states, held)
    ensures Closable(c, e.placed, k, e.state)
  {
    hide Ordered, Grounded, StateOk, Tracks, StatesOk, Counted, HeldExactly, Known;
    forall x | x in e.placed.nodes ensures !Ancestor(c.parents, k, x) {
      if Ancestor(c.parents, k, x) {
        AncestorViaChild(c.parents, k, x);
        var q :| q in Children(c.parents, k) && AncestorOrSelf(c.parents, q, x);
        ClosedAncestor(c.parents, done, q, x);
      }
    }
  }

  /** After closing k's message everything else still stands. */
  lemma HandClosed(c: Corpus, done: set<Key>, e: Working, k: Key, states: map<Key, Live>, held: set<Key>)
    requires InHand(c, done, e, k, states, held)
    ensures var closed := Close(c, e.placed, e.state.tail, e.state.deferred);
            && ClosedAt(c, e.placed, k, closed)
            && Books(done, closed.placed.nodes.Keys, Waiting(states)[k := []], held)
            && StatesOk(c, closed.placed, states)
  {
    hide Ordered, Grounded, StateOk, Tracks, StatesOk, CountedBut, HeldExactly, Known, Books, Children, Closable,
      Waiting;
    HandClosable(c, done, e, k, states, held);
    CloseGood(c, e.placed, k, e.state);
    CloseKeys(c, e.placed, e.state.tail, e.state.deferred);
    var closed := Close(c, e.placed, e.state.tail, e.state.deferred);
    var waiting := Waiting(states)[k := e.state.deferred];
    BooksClose(done, e.placed.nodes.Keys, waiting, held, k);
    assert waiting[k := []] == Waiting(states)[k := []];
    OthersKept(c, done, e.placed, closed.placed, k, [], states, states, held);
  }

  lemma LeaveForked(c: Corpus, done: set<Key>, e: Working, k: Key, states: map<Key, Live>, held: set<Key>)
    requires InHand(c, done, e, k, states, held) && |Children(c.parents, k)| >= 2
    ensures Invariant(c, done, Leave(c, e, k, states, held))
  {
    hide Ordered, Grounded, StateOk, Tracks, Books, Known, StatesOk, Children, HeldExactly, Counted, CountedBut,
      Waiting;
    HandClosed(c, done, e, k, states, held);
    var closed := Close(c, e.placed, e.state.tail, e.state.deferred);
    var live := Live(Placement(closed.tail, None, []), |Children(c.parents, k)|);
    WaitingStored(states, k, live);
    KnownEmpty(c);
    StatesStored(c, closed.placed, states, k, live);
    StoredCounted(c, done, k, states, live);
    StoredHeld(c, done, k, held);
  }

  lemma KnownEmpty(c: Corpus)
    ensures Known(c, [])
  {
  }

  lemma EndCounted(c: Corpus, done: set<Key>, k: Key, states: map<Key, Live>)
    requires CountedBut(c, done, k, states) && Children(c.parents, k) == {}
    ensures Counted(c, done, states)
  {
    hide Children;
    assert Children(c.parents, k) - done == {};
  }

  lemma EndHeld(c: Corpus, done: set<Key>, k: Key, pl: Placement, held: set<Key>)
    requires HeldExactly(c, done - {k}, held) && k in done && Children(c.parents, k) == {} && Tracks(c, k, pl)
    ensures Finished(c, k, pl.deferred) <==> Settles(c, k)
    ensures HeldExactly(c, done, if Settles(c, k) then held else held + Elements(pl.deferred))
  {
    hide Children, Waits, Open;
    assert forall x :: x in [k] + pl.deferred <==> x == k || x in pl.deferred;
  }

  lemma LeaveEnded(c: Corpus, done: set<Key>, e: Working, k: Key, states: map<Key, Live>, held: set<Key>)
    requires InHand(c, done, e, k, states, held) && Children(c.parents, k) == {}
    ensures Invariant(c, done, Leave(c, e, k, states, held))
  {
    hide Ordered, Grounded, StateOk, Tracks, Books, Known, Finished, Settles, HeldExactly, Counted, CountedBut;
    EndCounted(c, done, k, states);
    EndHeld(c, done, k, e.state, held);
    if Finished(c, k, e.state.deferred) {
      HandClosed(c, done, e, k, states, held);
      var closed := Close(c, e.placed, e.state.tail, e.state.deferred);
      BooksEnd(done, closed.placed.nodes.Keys, Waiting(states)[k := []], held, k);
      assert Waiting(states)[k := []] - {k} == Waiting(states);
      assert held + Elements<Key>([]) == held;
    } else {
      BooksEnd(done, e.placed.nodes.Keys, Waiting(states)[k := e.state.deferred], held, k);
      assert Waiting(states)[k := e.state.deferred] - {k} == Waiting(states);
    }
  }

  lemma LeaveGood(c: Corpus, done: set<Key>, e: Working, k: Key, states: map<Key, Live>, held: set<Key>)
    requires InHand(c, done, e, k, states, held)
    ensures c.Valid() && Known(c, e.state.deferred)
    ensures Invariant(c, done, Leave(c, e, k, states, held))
  {
    hide Ordered, Grounded, StateOk, Tracks, Books, Invariant, Leave, StatesOk, HeldExactly, CountedBut, Children;
    var n := |Children(c.parents, k)|;
    if n == 0 {
      LeaveEnded(c, done, e, k, states, held);
    } else if n == 1 {
      LeaveStored(c, done, e, k, states, held);
    } else {
      LeaveForked(c, done, e, k, states, held);
    }
  }

  // ------------------------------------------------------------------ run

  /** One class placed keeps everything. */
  lemma StepGood(c: Corpus, done: set<Key>, r: Run, k: Key)
    requires Invariant(c, done, r) && k in c.parents && k !in done && Up(c.parents, k) <= done
    ensures Runnable(c, r, k) && Invariant(c, done + {k}, Step(c, r, k))
  {
    hide Invariant, InHand, Leave, Perceive, Enter, Taken, Runnable;
    StepRunnable(c, done, r, k);
    PerceiveInHand(c, done, r, k);
    var e := Perceive(c, Enter(c, r.placed, Taken(c, r, k)), k);
    LeaveGood(c, done + {k}, e, k, Release(r.states, Up(c.parents, k)), r.held);
  }

  /** `rest` goes on, parents first, where `done` stops. */
  ghost predicate Continuation(g: Graph, done: set<Key>, rest: seq<Key>) {
    && Distinct(rest) && Elements(rest) == g.Keys - done
    && forall i | 0 <= i < |rest| :: Up(g, rest[i]) <= done + Elements(rest[..i])
  }

  lemma ContinuationStep(g: Graph, done: set<Key>, rest: seq<Key>)
    requires Continuation(g, done, rest) && rest != []
    ensures rest[0] in g && rest[0] !in done && Up(g, rest[0]) <= done
    ensures Continuation(g, done + {rest[0]}, rest[1..])
  {
    var k := rest[0];
    assert k in Elements(rest) && rest[..0] == [];
    ElementsCons(rest);
    assert k !in rest[1..];
    forall i | 0 <= i < |rest[1..]|
      ensures Up(g, rest[1..][i]) <= done + {k} + Elements(rest[1..][..i])
    {
      assert rest[1..][i] == rest[i + 1];
      ElementsCons(rest[..i + 1]);
      assert rest[..i + 1][1..] == rest[1..][..i];
    }
  }

  /** From any point of a parents-first order the run goes through. */
  lemma {:induction false} RunGood(c: Corpus, done: set<Key>, r: Run, rest: seq<Key>)
    requires Invariant(c, done, r) && Continuation(c.parents, done, rest)
    ensures RunsThrough(c, r, rest) && Invariant(c, c.parents.Keys, RunAll(c, r, rest))
    decreases |rest|
  {
    hide Invariant, Step, Runnable;
    if rest == [] {
      InvariantClosed(c, done, r);
      assert Elements(rest) == {};
      assert done == c.parents.Keys by {
        forall k | k in c.parents.Keys ensures k in done {
          assert k !in c.parents.Keys - done;
        }
      }
    } else {
      ContinuationStep(c.parents, done, rest);
      StepGood(c, done, r, rest[0]);
      RunGood(c, done + {rest[0]}, Step(c, r, rest[0]), rest[1..]);
    }
  }

  lemma InvariantClosed(c: Corpus, done: set<Key>, r: Run)
    requires Invariant(c, done, r)
    ensures done <= c.parents.Keys
  {
    hide Good, Books, StatesOk, Counted, HeldExactly;
  }

  lemma EmptyGood(c: Corpus)
    requires c.Valid() && Acyclic(c.parents)
    ensures Invariant(c, {}, EMPTY_RUN)
  {
  }

  // ------------------------------------------------------------- theorems

  lemma WholeRun(c: Corpus, order: seq<Key>)
    requires c.Valid() && Topological(c.parents, order)
    ensures RunsThrough(c, EMPTY_RUN, order) && Invariant(c, c.parents.Keys, RunAll(c, EMPTY_RUN, order))
  {
    hide Invariant, RunsThrough;
    TopologicalAcyclic(c.parents, order);
    EmptyGood(c);
    assert Continuation(c.parents, {}, order) by {
      forall i | 0 <= i < |order| ensures Up(c.parents, order[i]) <= {} + Elements(order[..i]) {
      }
    }
    RunGood(c, {}, EMPTY_RUN, order);
  }

  /** Placement conservation: every class is placed or held, never both; it is
      placed once; no state is left over, and no lookup fails on the way. */
  lemma PlacedOrHeld(c: Corpus, order: seq<Key>)
    requires c.Valid() && Topological(c.parents, order)
    ensures RunsThrough(c, EMPTY_RUN, order)
    ensures var r := RunAll(c, EMPTY_RUN, order);
            && r.states == map[]
            && r.placed.nodes.Keys + r.held == c.parents.Keys
            && r.placed.nodes.Keys !! r.held
            && Distinct(r.placed.log) && Elements(r.placed.log) == r.placed.nodes.Keys
  {
    WholeRun(c, order);
    var r := RunAll(c, EMPTY_RUN, order);
    hide RunAll, RunsThrough, Ordered, Grounded, StatesOk, HeldExactly;
    forall s ensures s !in r.states {
      assert Children(c.parents, s) - c.parents.Keys == {};
    }
    assert Waiting(r.states) == map[];
  }

  /** What is held back is exactly what waits, at the end of an unsettled
      branch, for a message that is still open there. */
  lemma HeldBack(c: Corpus, order: seq<Key>, d: Key)
    requires c.Valid() && Topological(c.parents, order)
    ensures RunsThrough(c, EMPTY_RUN, order)
    ensures d in RunAll(c, EMPTY_RUN, order).held <==>
            exists k | k in c.parents :: Children(c.parents, k) == {} && Waits(c, d, k) && !Settles(c, k)
  {
    hide RunAll, RunsThrough, Ordered, Grounded, StatesOk, Counted, Books;
    WholeRun(c, order);
  }

  /** Node order is record order: an ancestor's last node lies strictly below a
      descendant's first, unless the descendant is a later act of a message the
      ancestor was logged inside; then it is the other way round. */
  lemma NodesFollowRecords(c: Corpus, order: seq<Key>, a: Key, k: Key)
    requires c.Valid() && Topological(c.parents, order)
    ensures RunsThrough(c, EMPTY_RUN, order)
    ensures var w := RunAll(c, EMPTY_RUN, order).placed;
            Shaped(c, w) &&
            (a in w.nodes && k in w.nodes && Ancestor(c.parents, a, k) ==>
               if Late(c, a, k) then Before(LastOf(c, w, k), FirstOf(c, w, a)) &&
                   !Before(LastOf(c, w, a), FirstOf(c, w, k))
               else Before(LastOf(c, w, a), FirstOf(c, w, k)))
  {
    hide RunAll, RunsThrough, Grounded, StatesOk, Counted, Books, HeldExactly, Late, Ancestor;
    WholeRun(c, order);
    var w := RunAll(c, EMPTY_RUN, order).placed;
    if a in w.nodes && k in w.nodes && Ancestor(c.parents, a, k) && Late(c, a, k) {
      ChainAscends(w.firsts[a], c.facts[a], |c.facts[a]| - 1);
      ChainAscends(w.firsts[k], c.facts[k], |c.facts[k]| - 1);
      OppositeOrder(FirstOf(c, w, a), LastOf(c, w, a), FirstOf(c, w, k), LastOf(c, w, k));
    }
  }

  lemma OppositeOrder(firstA: Node, lastA: Node, firstK: Node, lastK: Node)
    requires firstA == lastA || Before(firstA, lastA)
    requires firstK == lastK || Before(firstK, lastK)
    requires Before(lastK, firstA)
    ensures !Before(lastA, firstK)
  {
    if Before(lastA, firstK) {
      if firstK != lastK {
        BeforeTransitive(lastA, firstK, lastK);
      }
      BeforeTransitive(lastA, lastK, firstA);
      if firstA != lastA {
        BeforeTransitive(lastA, firstA, lastA);
      }
      BeforeAsymmetric(lastA, lastA);
    }
  }

  /** Every act and every prompt precedes all that descends from it. */
  lemma ActsAndPromptsPrecede(c: Corpus, order: seq<Key>, a: Key, k: Key)
    requires c.Valid() && Topological(c.parents, order)
    requires a in c.parents && c.flow[a] != Inside && Ancestor(c.parents, a, k)
    ensures RunsThrough(c, EMPTY_RUN, order)
    ensures var w := RunAll(c, EMPTY_RUN, order).placed;
            Shaped(c, w) &&
            (a in w.nodes && k in w.nodes ==> Before(LastOf(c, w, a), FirstOf(c, w, k)))
  {
    hide RunAll, RunsThrough, Before, Shaped, Ancestor;
    NodesFollowRecords(c, order, a, k);
    assert !Late(c, a, k);
  }

  /** The converse: a first node follows only the last nodes of records that
      come before it, and a class is a chain of its facts. */
  lemma NodesFollowNothingElse(c: Corpus, order: seq<Key>, k: Key, t: Node)
    requires c.Valid() && Topological(c.parents, order)
    ensures RunsThrough(c, EMPTY_RUN, order)
    ensures var w := RunAll(c, EMPTY_RUN, order).placed;
            && Shaped(c, w)
            && (k in w.nodes ==> w.nodes[k] == Chain(w.firsts[k], c.facts[k]))
            && (k in w.nodes && t in w.firsts[k] ==>
                  exists a | a in w.nodes :: LastOf(c, w, a) == t && MayPrecede(c, a, k))
  {
    hide RunAll, RunsThrough, Ordered, StatesOk, Counted, Books, HeldExactly, MayPrecede;
    WholeRun(c, order);
  }
}
