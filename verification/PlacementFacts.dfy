/** Facts do not steer the placing: they only fill the chains of what is placed. */
module PlacementFacts {
  import opened Base
  import opened Nodes
  import opened Graphs
  import opened Placements
  import opened MessageRuns
  import opened PlacementBooks
  import opened PlacementRuns

  /** Two corpora that may differ in what their records say, not in how they stand. */
  ghost predicate SameButFacts(c: Corpus, c': Corpus) {
    c.Valid() && c'.Valid() && c' == c.(facts := c'.facts)
  }

  ghost predicate SayAlike(c: Corpus, c': Corpus, keys: set<Key>) {
    forall k | k in keys && k in c.facts && k in c'.facts :: c.facts[k] == c'.facts[k]
  }

  // ------------------------------------------------------------ what is held

  lemma {:induction false} InRunSame(c: Corpus, c': Corpus, m: Message, n: nat, a: Key, k: Key)
    requires SameButFacts(c, c')
    ensures InRun(c, m, n, a, k) ==> InRun(c', m, n, a, k)
  {
    if n > 0 && InRun(c, m, n, a, k) {
      var p :| p in Up(c.parents, k) && Linked(c, p, k) && InRun(c, m, n - 1, a, p);
      InRunSame(c, c', m, n - 1, a, p);
      assert Linked(c', p, k);
    }
  }

  lemma OpenSame(c: Corpus, c': Corpus, m: Message, k: Key)
    requires SameButFacts(c, c') && Open(c, m, k)
    ensures Open(c', m, k)
  {
    var n: nat, a :| a in c.flow && c.flow[a] == Act(m) && InRun(c, m, n, a, k);
    InRunSame(c, c', m, n, a, k);
  }

  lemma WaitsSame(c: Corpus, c': Corpus, d: Key, k: Key)
    requires SameButFacts(c, c') && Waits(c, d, k)
    ensures Waits(c', d, k)
  {
    var m, n: nat :| Open(c, m, d) && InRun(c, m, n, d, k);
    OpenSame(c, c', m, d);
    InRunSame(c, c', m, n, d, k);
  }

  lemma HeldSame(c: Corpus, c': Corpus, order: seq<Key>, d: Key)
    requires SameButFacts(c, c') && Topological(c.parents, order)
    ensures RunsThrough(c, EMPTY_RUN, order) && RunsThrough(c', EMPTY_RUN, order)
    ensures d in RunAll(c, EMPTY_RUN, order).held ==> d in RunAll(c', EMPTY_RUN, order).held
  {
    hide RunAll, RunsThrough, Waits;
    HeldBack(c, order, d);
    HeldBack(c', order, d);
    if d in RunAll(c, EMPTY_RUN, order).held {
      var k :| k in c.parents && Children(c.parents, k) == {} && Waits(c, d, k) && !Settles(c, k);
      WaitsSame(c, c', d, k);
      if x :| Waits(c, x, k) && x !in c.settled {
        WaitsSame(c, c', x, k);
      }
      assert !Settles(c', k);
    }
  }

  /** What is placed and what is held does not depend on what the records say. */
  lemma PlacedSame(c: Corpus, c': Corpus, order: seq<Key>)
    requires SameButFacts(c, c') && Topological(c.parents, order)
    ensures RunsThrough(c, EMPTY_RUN, order) && RunsThrough(c', EMPTY_RUN, order)
    ensures var (r, r') := (RunAll(c, EMPTY_RUN, order), RunAll(c', EMPTY_RUN, order));
            r.held == r'.held && r.placed.nodes.Keys == r'.placed.nodes.Keys
  {
    hide RunAll, RunsThrough;
    PlacedOrHeld(c, order);
    PlacedOrHeld(c', order);
    var (r, r') := (RunAll(c, EMPTY_RUN, order), RunAll(c', EMPTY_RUN, order));
    forall d ensures d in r.held <==> d in r'.held {
      HeldSame(c, c', order, d);
      HeldSame(c', c, order, d);
    }
    forall d ensures d in r.placed.nodes <==> d in r'.placed.nodes {
      assert d in r.placed.nodes.Keys <==> d in c.parents && d !in r.held;
      assert d in r'.placed.nodes.Keys <==> d in c.parents && d !in r'.held;
    }
  }

  // ---------------------------------------------------------- what is placed

  lemma {:induction false} CloseAgrees(c: Corpus, c': Corpus, w: Placed, tail: set<Node>, deferred: seq<Key>)
    requires SameButFacts(c, c') && Known(c, deferred)
    requires SayAlike(c, c', Close(c, w, tail, deferred).placed.nodes.Keys)
    ensures w.nodes.Keys <= Close(c, w, tail, deferred).placed.nodes.Keys
    ensures Close(c, w, tail, deferred) == Close(c', w, tail, deferred)
    decreases |deferred|
  {
    if deferred != [] {
      CloseGrows(c, w, tail, deferred);
      var first := Put(c, w, deferred[0], tail);
      CloseGrows(c, first.placed, first.tail, deferred[1..]);
      CloseAgrees(c, c', first.placed, first.tail, deferred[1..]);
    }
  }

  lemma {:induction false} CloseGrows(c: Corpus, w: Placed, tail: set<Node>, deferred: seq<Key>)
    requires c.Valid() && Known(c, deferred)
    ensures w.nodes.Keys <= Close(c, w, tail, deferred).placed.nodes.Keys
    decreases |deferred|
  {
    if deferred != [] {
      var first := Put(c, w, deferred[0], tail);
      CloseGrows(c, first.placed, first.tail, deferred[1..]);
    }
  }

  lemma {:induction false} CloseAllGrows(c: Corpus, w: Placed, taken: seq<Placement>)
    requires c.Valid() && forall s | s in taken :: Known(c, s.deferred)
    ensures w.nodes.Keys <= CloseAll(c, w, taken).placed.nodes.Keys
    decreases |taken|
  {
    if taken != [] {
      CloseGrows(c, w, taken[0].tail, taken[0].deferred);
      CloseAllGrows(c, Close(c, w, taken[0].tail, taken[0].deferred).placed, taken[1..]);
    }
  }

  lemma {:induction false} CloseAllAgrees(c: Corpus, c': Corpus, w: Placed, taken: seq<Placement>)
    requires SameButFacts(c, c') && forall s | s in taken :: Known(c, s.deferred)
    requires SayAlike(c, c', CloseAll(c, w, taken).placed.nodes.Keys)
    ensures forall s | s in taken :: Known(c', s.deferred)
    ensures CloseAll(c, w, taken) == CloseAll(c', w, taken)
    decreases |taken|
  {
    if taken != [] {
      var first := Close(c, w, taken[0].tail, taken[0].deferred);
      CloseAllGrows(c, first.placed, taken[1..]);
      CloseAgrees(c, c', w, taken[0].tail, taken[0].deferred);
      CloseAllAgrees(c, c', first.placed, taken[1..]);
    }
  }

  lemma EnterAgrees(c: Corpus, c': Corpus, w: Placed, taken: seq<Placement>)
    requires SameButFacts(c, c') && forall s | s in taken :: Known(c, s.deferred)
    requires SayAlike(c, c', Enter(c, w, taken).placed.nodes.Keys)
    ensures forall s | s in taken :: Known(c', s.deferred)
    ensures Enter(c, w, taken) == Enter(c', w, taken)
  {
    hide CloseAll;
    if |taken| > 1 {
      CloseAllAgrees(c, c', w, taken);
    }
  }

  lemma PerceiveAgrees(c: Corpus, c': Corpus, e: Working, key: Key)
    requires SameButFacts(c, c') && key in c.parents && Known(c, e.state.deferred)
    requires SayAlike(c, c', Perceive(c, e, key).placed.nodes.Keys)
    ensures e.placed.nodes.Keys <= Perceive(c, e, key).placed.nodes.Keys
    ensures Perceive(c, e, key) == Perceive(c', e, key)
  {
    hide Close;
    CloseGrows(c, e.placed, e.state.tail, e.state.deferred);
    var closed := Close(c, e.placed, e.state.tail, e.state.deferred);
    if closed.placed.nodes.Keys <= Perceive(c, e, key).placed.nodes.Keys {
      CloseAgrees(c, c', e.placed, e.state.tail, e.state.deferred);
    }
  }

  lemma LeaveAgrees(c: Corpus, c': Corpus, e: Working, key: Key, states: map<Key, Live>, held: set<Key>)
    requires SameButFacts(c, c') && Known(c, e.state.deferred)
    requires SayAlike(c, c', Leave(c, e, key, states, held).placed.nodes.Keys)
    ensures e.placed.nodes.Keys <= Leave(c, e, key, states, held).placed.nodes.Keys
    ensures Leave(c, e, key, states, held) == Leave(c', e, key, states, held)
  {
    hide Close, Finished;
    assert Finished(c, key, e.state.deferred) == Finished(c', key, e.state.deferred) by {
      FinishedSame(c, c', key, e.state.deferred);
    }
    CloseGrows(c, e.placed, e.state.tail, e.state.deferred);
    var closed := Close(c, e.placed, e.state.tail, e.state.deferred);
    if closed.placed.nodes.Keys <= Leave(c, e, key, states, held).placed.nodes.Keys {
      CloseAgrees(c, c', e.placed, e.state.tail, e.state.deferred);
    }
  }

  lemma FinishedSame(c: Corpus, c': Corpus, key: Key, deferred: seq<Key>)
    requires SameButFacts(c, c')
    ensures Finished(c, key, deferred) == Finished(c', key, deferred)
  {
  }

  lemma EnterGrows(c: Corpus, w: Placed, taken: seq<Placement>)
    requires c.Valid() && forall s | s in taken :: Known(c, s.deferred)
    ensures w.nodes.Keys <= Enter(c, w, taken).placed.nodes.Keys
  {
    hide CloseAll;
    CloseAllGrows(c, w, taken);
  }

  lemma PerceiveGrows(c: Corpus, e: Working, key: Key)
    requires c.Valid() && key in c.parents && Known(c, e.state.deferred)
    ensures e.placed.nodes.Keys <= Perceive(c, e, key).placed.nodes.Keys
  {
    hide Close;
    CloseGrows(c, e.placed, e.state.tail, e.state.deferred);
  }

  lemma LeaveGrows(c: Corpus, e: Working, key: Key, states: map<Key, Live>, held: set<Key>)
    requires c.Valid() && Known(c, e.state.deferred)
    ensures e.placed.nodes.Keys <= Leave(c, e, key, states, held).placed.nodes.Keys
  {
    hide Close, Finished;
    CloseGrows(c, e.placed, e.state.tail, e.state.deferred);
  }

  lemma TakenSame(c: Corpus, c': Corpus, r: Run, key: Key)
    requires SameButFacts(c, c') && Runnable(c, r, key)
    ensures Runnable(c', r, key) && Taken(c, r, key) == Taken(c', r, key)
  {
  }

  lemma StepGrows(c: Corpus, r: Run, key: Key)
    requires Runnable(c, r, key)
    ensures r.placed.nodes.Keys <= Step(c, r, key).placed.nodes.Keys
  {
    hide Enter, Perceive, Leave, Taken;
    EnterGrows(c, r.placed, Taken(c, r, key));
    var entered := Enter(c, r.placed, Taken(c, r, key));
    PerceiveGrows(c, entered, key);
    LeaveGrows(c, Perceive(c, entered, key), key, Release(r.states, Up(c.parents, key)), r.held);
  }

  lemma StepAgrees(c: Corpus, c': Corpus, r: Run, key: Key)
    requires SameButFacts(c, c') && Runnable(c, r, key)
    requires SayAlike(c, c', Step(c, r, key).placed.nodes.Keys)
    ensures Runnable(c', r, key) && Step(c, r, key) == Step(c', r, key)
  {
    hide Enter, Perceive, Leave, Taken;
    TakenSame(c, c', r, key);
    var taken := Taken(c, r, key);
    var entered := Enter(c, r.placed, taken);
    var perceived := Perceive(c, entered, key);
    PerceiveGrows(c, entered, key);
    LeaveGrows(c, perceived, key, Release(r.states, Up(c.parents, key)), r.held);
    LeaveAgrees(c, c', perceived, key, Release(r.states, Up(c.parents, key)), r.held);
    PerceiveAgrees(c, c', entered, key);
    EnterAgrees(c, c', r.placed, taken);
  }

  lemma {:induction false} RunGrows(c: Corpus, r: Run, order: seq<Key>)
    requires RunsThrough(c, r, order)
    ensures r.placed.nodes.Keys <= RunAll(c, r, order).placed.nodes.Keys
    decreases |order|
  {
    hide Step, Runnable;
    if order != [] {
      StepGrows(c, r, order[0]);
      RunGrows(c, Step(c, r, order[0]), order[1..]);
    }
  }

  lemma {:induction false} RunAgrees(c: Corpus, c': Corpus, r: Run, order: seq<Key>)
    requires SameButFacts(c, c') && RunsThrough(c, r, order)
    requires SayAlike(c, c', RunAll(c, r, order).placed.nodes.Keys)
    ensures RunsThrough(c', r, order) && RunAll(c, r, order) == RunAll(c', r, order)
    decreases |order|
  {
    hide Step, Runnable;
    if order != [] {
      var next := Step(c, r, order[0]);
      RunGrows(c, next, order[1..]);
      StepAgrees(c, c', r, order[0]);
      RunAgrees(c, c', next, order[1..]);
    }
  }
}
