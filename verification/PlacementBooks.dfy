/** What every step of the placing keeps: the books of where each class is, and
    the state of every live branch. */
module PlacementBooks {
  import opened Base
  import opened Graphs
  import opened Placements
  import opened MessageRuns
  import opened PlacementOrder
  import opened PlacementSteps

  // ---------------------------------------------------------------- books

  /** Where every class seen so far is: placed, held, or waiting in exactly one
      live state. `waiting` lists what each live state defers. */
  ghost predicate Books(done: set<Key>, nodes: set<Key>, waiting: map<Key, seq<Key>>, held: set<Key>) {
    && nodes <= done && held <= done && nodes !! held
    && (forall s, d | s in waiting && d in waiting[s] :: d in done && d !in nodes && d !in held)
    && (forall s, s', d | s in waiting && s' in waiting && s != s' && d in waiting[s] :: d !in waiting[s'])
    && (forall k | k in done :: k in nodes || k in held || exists s | s in waiting :: k in waiting[s])
  }

  function Waiting(states: map<Key, Live>): map<Key, seq<Key>> {
    map s | s in states :: states[s].state.deferred
  }

  /** All that the states of `from` defer. */
  ghost predicate DeferredBy(waiting: map<Key, seq<Key>>, from: set<Key>, d: Key) {
    exists s | s in from && s in waiting :: d in waiting[s]
  }

  /** The states of `from` hand what they defer to k's state or to the nodes. */
  lemma BooksEnter(done: set<Key>, nodes: set<Key>, waiting: map<Key, seq<Key>>, held: set<Key>,
                   from: set<Key>, k: Key, nodes': set<Key>, waiting': map<Key, seq<Key>>)
    requires Books(done, nodes, waiting, held)
    requires k !in waiting && waiting'.Keys <= waiting.Keys + {k} && k in waiting'
    requires forall s | s in waiting && s !in waiting' :: s in from
    requires forall s | s in waiting' && s != k :: waiting'[s] == waiting[s] && (s in from ==> waiting[s] == [])
    requires nodes <= nodes'
    requires forall d :: d in nodes' || d in waiting'[k] <==> d in nodes || DeferredBy(waiting, from, d)
    requires forall d | d in waiting'[k] :: d !in nodes'
    ensures Books(done, nodes', waiting', held)
  {
    forall x | x in done
      ensures x in nodes' || x in held || exists s | s in waiting' :: x in waiting'[s]
    {
      if x !in nodes && x !in held {
        var s :| s in waiting && x in waiting[s];
        if s in from {
          assert DeferredBy(waiting, from, x);
        } else {
          assert s in waiting' && waiting'[s] == waiting[s];
        }
      }
    }
    forall d | d in nodes' || d in waiting'[k] ensures d in done && d !in held {
      if d !in nodes {
        assert DeferredBy(waiting, from, d);
      }
    }
    forall s, d | s in waiting' && s != k && d in waiting'[s] ensures !DeferredBy(waiting, from, d) {
    }
  }

  /** k joins what is placed or deferred by its own state. */
  lemma BooksPerceive(done: set<Key>, nodes: set<Key>, waiting: map<Key, seq<Key>>, held: set<Key>,
                      k: Key, nodes': set<Key>, deferred: seq<Key>)
    requires Books(done, nodes, waiting, held) && k in waiting && k !in done
    requires nodes <= nodes'
    requires forall d :: d in nodes' || d in deferred <==> d in nodes || d in waiting[k] || d == k
    requires forall d | d in deferred :: d !in nodes'
    ensures Books(done + {k}, nodes', waiting[k := deferred], held)
  {
    var waiting' := waiting[k := deferred];
    forall x | x in done + {k}
      ensures x in nodes' || x in held || exists s | s in waiting' :: x in waiting'[s]
    {
      if x !in nodes' && x !in held && x !in waiting'[k] {
        var s :| s in waiting && x in waiting[s];
        assert s in waiting' && s != k;
      }
    }
  }

  /** k's message closes: what it deferred is placed. */
  lemma BooksClose(done: set<Key>, nodes: set<Key>, waiting: map<Key, seq<Key>>, held: set<Key>, k: Key)
    requires Books(done, nodes, waiting, held) && k in waiting
    ensures Books(done, nodes + Elements(waiting[k]), waiting[k := []], held)
  {
    var waiting' := waiting[k := []];
    forall x | x in done
      ensures x in nodes + Elements(waiting[k]) || x in held || exists s | s in waiting' :: x in waiting'[s]
    {
      if x !in nodes && x !in held && x !in waiting[k] {
        var s :| s in waiting && x in waiting[s];
        assert s in waiting' && s != k;
      }
    }
  }

  /** k's branch ends: what it deferred is held, or was placed. */
  lemma BooksEnd(done: set<Key>, nodes: set<Key>, waiting: map<Key, seq<Key>>, held: set<Key>, k: Key)
    requires Books(done, nodes, waiting, held) && k in waiting
    ensures Books(done, nodes, waiting - {k}, held + Elements(waiting[k]))
  {
    var waiting' := waiting - {k};
    forall x | x in done
      ensures x in nodes || x in held + Elements(waiting[k]) || exists s | s in waiting' :: x in waiting'[s]
    {
      if x !in nodes && x !in held && x !in waiting[k] {
        var s :| s in waiting && x in waiting[s];
        assert s in waiting' && s != k;
      }
    }
  }

  // ------------------------------------------------------------ invariant

  /** A state after an unbranched record tracks its message; after a fork or
      before a merge nothing is open. */
  ghost predicate Formed(c: Corpus, s: Key, pl: Placement) {
    if |Children(c.parents, s)| == 1 then Tracks(c, s, pl) else pl.message == None && pl.deferred == []
  }

  ghost predicate StatesOk(c: Corpus, w: Placed, states: map<Key, Live>)
    requires Shaped(c, w)
  {
    forall s | s in states ::
      StateOk(c, w, s, states[s].state) && Formed(c, s, states[s].state) && Known(c, states[s].state.deferred)
  }

  /** A state lives until its last child took it. */
  ghost predicate Counted(c: Corpus, done: set<Key>, states: map<Key, Live>) {
    && (forall s :: s in states <==> s in done && Children(c.parents, s) - done != {})
    && (forall s | s in states :: states[s].remaining == |Children(c.parents, s) - done|)
  }

  /** A branch ending at k emits what it deferred. */
  ghost predicate Settles(c: Corpus, k: Key) {
    k !in c.trailing || (k in c.settled && forall d | Waits(c, d, k) :: d in c.settled)
  }

  /** Held is exactly what waits at the end of a branch that is not settled. */
  ghost predicate HeldExactly(c: Corpus, done: set<Key>, held: set<Key>) {
    forall d :: d in held <==>
      exists k | k in done :: Children(c.parents, k) == {} && Waits(c, d, k) && !Settles(c, k)
  }

  ghost predicate Invariant(c: Corpus, done: set<Key>, r: Run) {
    && Acyclic(c.parents) && Closed(c.parents, done)
    && Good(c, r.placed)
    && Books(done, r.placed.nodes.Keys, Waiting(r.states), r.held)
    && StatesOk(c, r.placed, r.states)
    && Counted(c, done, r.states)
    && HeldExactly(c, done, r.held)
  }

  // ---------------------------------------------------------------- enter

  /** The lookups of one step never fail. */
  lemma StepRunnable(c: Corpus, done: set<Key>, r: Run, k: Key)
    requires Invariant(c, done, r) && k in c.parents && k !in done && Up(c.parents, k) <= done
    ensures Runnable(c, r, k)
  {
    forall p | p in Up(c.parents, k) ensures p in r.states && r.states[p].remaining > 0 {
      assert k in Children(c.parents, p) - done;
    }
  }

  ghost predicate NothingDone(c: Corpus, done: set<Key>, s: Key) {
    forall x | x in done :: !Ancestor(c.parents, s, x)
  }

  /** A state with something deferred has one child, still to come. */
  lemma DeferringIsLast(c: Corpus, done: set<Key>, r: Run, s: Key)
    requires Invariant(c, done, r) && s in r.states && r.states[s].state.deferred != []
    ensures NothingDone(c, done, s)
  {
    var children := Children(c.parents, s);
    assert |children| == 1;
    forall x | x in done ensures !Ancestor(c.parents, s, x) {
      if Ancestor(c.parents, s, x) {
        AncestorViaChild(c.parents, s, x);
        var q :| q in children && AncestorOrSelf(c.parents, q, x);
        ClosedAncestor(c.parents, done, q, x);
        var q' :| q' in children - done;
        OnlyMember(children, q, q');
      }
    }
  }

  lemma OnlyMember(s: set<Key>, a: Key, b: Key)
    requires |s| == 1 && a in s && b in s
    ensures a == b && s == {a}
  {
    if a != b {
      SubsetSize({a, b}, s);
    }
    if x :| x in s && x != a {
      SubsetSize({a, x}, s);
    }
  }
}
