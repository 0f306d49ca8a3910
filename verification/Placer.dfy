/** The placing loop itself: a placer that assigns node chains in place, and the
    walk over the ordered classes that drives it. Every method is proved to do
    exactly one transition of the state machine in Placements. */
module Placers {
  import opened Base
  import opened Nodes
  import opened Graphs
  import opened Placements
  import opened PlacementBooks
  import opened PlacementEnter
  import opened PlacementRuns

  class Placer {
    var nodes: map<Key, seq<Node>>
    var firsts: map<Key, set<Node>>
    ghost var log: seq<Key>

    ghost function Contents(): Placed
      reads this
    {
      Placed(nodes, firsts, log)
    }

    constructor ()
      ensures Contents() == EMPTY_RUN.placed
    {
      nodes, firsts, log := map[], map[], [];
    }

    /** Chain one class's nodes after `previous`; returns its last node. */
    method Place(c: Corpus, key: Key, previous: set<Node>) returns (tail: set<Node>)
      requires c.Valid() && key in c.parents
      modifies this
      ensures Closing(Contents(), tail) == Put(c, old(Contents()), key, previous)
    {
      var facts := c.facts[key];
      tail := previous;
      var chain := [];
      for i := 0 to |facts|
        invariant Contents() == old(Contents())
        invariant chain == Chain(previous, facts[..i])
        invariant tail == if i == 0 then previous else {Last(chain)}
      {
        ChainAppend(previous, facts[..i], [facts[i]]);
        assert facts[..i] + [facts[i]] == facts[..i + 1];
        var node := Node(tail, facts[i]);
        chain := chain + [node];
        tail := {node};
      }
      assert facts[..|facts|] == facts;
      nodes := nodes[key := chain];
      firsts := firsts[key := previous];
      log := log + [key];
    }

    /** Complete the open message: what it deferred follows it, in source order. */
    method Close(c: Corpus, state: Placement) returns (tail: set<Node>)
      requires c.Valid() && Known(c, state.deferred)
      modifies this
      ensures Closing(Contents(), tail) == Placements.Close(c, old(Contents()), state.tail, state.deferred)
    {
      tail := state.tail;
      for i := 0 to |state.deferred|
        invariant Known(c, state.deferred[i..])
        invariant Placements.Close(c, Contents(), tail, state.deferred[i..])
               == Placements.Close(c, old(Contents()), state.tail, state.deferred)
      {
        var rest := state.deferred[i..];
        assert rest[0] == state.deferred[i] && rest[1..] == state.deferred[i + 1..];
        tail := Place(c, state.deferred[i], tail);
      }
    }

    /** Close every state in turn; their tails become one. */
    method CloseAll(c: Corpus, taken: seq<Placement>) returns (tail: set<Node>)
      requires c.Valid() && forall s | s in taken :: Known(c, s.deferred)
      modifies this
      ensures Closing(Contents(), tail) == Placements.CloseAll(c, old(Contents()), taken)
    {
      tail := {};
      assert taken[0..] == taken;
      for i := 0 to |taken|
        invariant forall s | s in taken[i..] :: Known(c, s.deferred)
        invariant var rest := Placements.CloseAll(c, Contents(), taken[i..]);
                  Placements.CloseAll(c, old(Contents()), taken) == Closing(rest.placed, tail + rest.tail)
      {
        var rest := taken[i..];
        assert rest[0] == taken[i] && rest[1..] == taken[i + 1..];
        var closed := Close(c, taken[i]);
        tail := tail + closed;
      }
    }
  }

  /** The classes among the first `n` of `order` that have p as a parent. */
  ghost function ChildrenIn(c: Corpus, order: seq<Key>, n: nat, p: Key): set<Key>
    requires n <= |order|
  {
    set k | k in order[..n] && p in Up(c.parents, k)
  }

  ghost predicate CountsChildren(c: Corpus, order: seq<Key>, n: nat, children: map<Key, nat>)
    requires n <= |order|
  {
    && (forall p | p in children :: children[p] == |ChildrenIn(c, order, n, p)|)
    && (forall p | p !in children :: ChildrenIn(c, order, n, p) == {})
  }

  lemma ChildrenInNext(c: Corpus, order: seq<Key>, n: nat, p: Key)
    requires n < |order| && Distinct(order)
    ensures order[n] !in ChildrenIn(c, order, n, p)
    ensures ChildrenIn(c, order, n + 1, p) ==
            ChildrenIn(c, order, n, p) + (if p in Up(c.parents, order[n]) then {order[n]} else {})
  {
    assert order[..n + 1] == order[..n] + [order[n]];
  }

  /** Counting one more class: each of its parents has one child more. */
  lemma CountsNext(c: Corpus, order: seq<Key>, n: nat, before: map<Key, nat>, children: map<Key, nat>)
    requires n < |order| && Distinct(order) && CountsChildren(c, order, n, before)
    requires forall p :: p in children <==> p in before || p in Up(c.parents, order[n])
    requires forall p | p in children ::
               children[p] == (if p in before then before[p] else 0) + (if p in Up(c.parents, order[n]) then 1 else 0)
    ensures CountsChildren(c, order, n + 1, children)
  {
    hide Up;
    forall p
      ensures p in children ==> children[p] == |ChildrenIn(c, order, n + 1, p)|
      ensures p !in children ==> ChildrenIn(c, order, n + 1, p) == {}
    {
      ChildrenInNext(c, order, n, p);
      assert |ChildrenIn(c, order, n, p)| == if p in before then before[p] else 0;
    }
  }

  lemma CountedAll(c: Corpus, order: seq<Key>, p: Key)
    requires Topological(c.parents, order)
    ensures ChildrenIn(c, order, |order|, p) == Children(c.parents, p)
  {
    assert order[..|order|] == order;
    assert forall k :: k in order <==> k in Elements(order);
  }

  /** How many children each class has. */
  method CountChildren(c: Corpus, order: seq<Key>) returns (children: map<Key, nat>)
    requires Topological(c.parents, order)
    ensures forall p :: (if p in children then children[p] else 0) == |Children(c.parents, p)|
  {
    hide ParentsFirst, Up, Children;
    children := map[];
    for i := 0 to |order|
      invariant CountsChildren(c, order, i, children)
    {
      var up := Sorted(Up(c.parents, order[i]));
      ghost var before := children;
      for j := 0 to |up|
        invariant forall p :: p in children <==> p in before || p in up[..j]
        invariant forall p | p in children ::
                    children[p] == (if p in before then before[p] else 0) + (if p in up[..j] then 1 else 0)
      {
        var p := up[j];
        assert p !in up[..j];
        assert up[..j + 1] == up[..j] + [p];
        children := children[p := (if p in children then children[p] else 0) + 1];
      }
      assert up[..|up|] == up;
      CountsNext(c, order, i, before, children);
    }
    forall p {
      CountedAll(c, order, p);
    }
  }

  /** Releasing the parents one at a time. */
  lemma ReleaseNext(states: map<Key, Live>, incoming: seq<Key>, j: nat)
    requires j < |incoming| && Distinct(incoming)
    requires forall p | p in incoming :: p in states && states[p].remaining > 0
    ensures var before := Release(states, Elements(incoming[..j]));
            var p := incoming[j];
            && p in before && before[p] == states[p]
            && Release(states, Elements(incoming[..j + 1])) ==
               if before[p].remaining == 1 then before - {p}
               else before[p := before[p].(remaining := before[p].remaining - 1)]
  {
    var p := incoming[j];
    assert p !in incoming[..j];
    assert incoming[..j + 1] == incoming[..j] + [p];
  }

  lemma ReleaseNone(states: map<Key, Live>, none: seq<Key>)
    requires none == []
    ensures Elements(none) == {} && Release(states, Elements(none)) == states
  {
    assert Elements(none) == {};
  }

  /** Take the parents' states: moved out by the last child, copied before. */
  method TakeStates(c: Corpus, ghost r: Run, key: Key, before: map<Key, Live>)
      returns (states: map<Key, Live>, taken: seq<Placement>)
    requires before == r.states && Runnable(c, r, key)
    ensures states == Release(r.states, Up(c.parents, key))
    ensures taken == Taken(c, r, key)
  {
    hide Release, Up, Known, Taken, Increasing;
    var incoming := Sorted(Up(c.parents, key));
    states, taken := before, [];
    ReleaseNone(before, incoming[..0]);
    ghost var all := Taken(c, r, key);
    assert |all| == |incoming|;
    assert forall p | p in incoming :: p in before && before[p].remaining > 0;
    for j := 0 to |incoming|
      invariant states == Release(before, Elements(incoming[..j]))
      invariant taken == all[..j]
    {
      ReleaseNext(before, incoming, j);
      var parent := incoming[j];
      var live := states[parent];
      TakenAt(c, r, key, j);
      if live.remaining == 1 {
        states := states - {parent};
      } else {
        states := states[parent := live.(remaining := live.remaining - 1)];
      }
      taken := taken + [live.state];
      TakeNext(all, j);
    }
    TakeAll(incoming);
    TakeAll(all);
    SortedElements(Up(c.parents, key));
  }

  /** Every class in the given order, from the states of its parents. */
  method PlaceAll(c: Corpus, order: seq<Key>)
      returns (nodes: map<Key, seq<Node>>, firsts: map<Key, set<Node>>, held: set<Key>)
    requires c.Valid() && Topological(c.parents, order)
    ensures RunsThrough(c, EMPTY_RUN, order)
    ensures var r := RunAll(c, EMPTY_RUN, order);
            nodes == r.placed.nodes && firsts == r.placed.firsts && held == r.held
  {
    WholeRun(c, order);
    var children := CountChildren(c, order);
    var placer := new Placer();
    var states: map<Key, Live> := map[];
    held := {};
    assert order[0..] == order;
    for n := 0 to |order|
      invariant RunsThrough(c, Run(placer.Contents(), states, held), order[n..])
      invariant RunAll(c, Run(placer.Contents(), states, held), order[n..]) == RunAll(c, EMPTY_RUN, order)
    {
      hide Topological, Invariant, Acyclic, Release, Taken, Close, CloseAll;
      var key := order[n];
      assert order[n..][0] == key && order[n..][1..] == order[n + 1..];
      states, held := PlaceOne(c, placer, key, states, held, children);
    }
    nodes, firsts := placer.nodes, placer.firsts;
  }

  method PlaceOne(c: Corpus, placer: Placer, key: Key, before: map<Key, Live>, held: set<Key>, children: map<Key, nat>)
      returns (states: map<Key, Live>, held': set<Key>)
    requires Runnable(c, Run(placer.Contents(), before, held), key)
    requires forall p :: (if p in children then children[p] else 0) == |Children(c.parents, p)|
    modifies placer
    ensures Run(placer.Contents(), states, held') == Step(c, old(Run(placer.Contents(), before, held)), key)
  {
    hide Runnable, Release, Children, Up;
    ghost var r := Run(placer.Contents(), before, held);
    RunnableValid(c, r, key);
    var taken;
    states, taken := TakeStates(c, r, key, before);
    var state := START;
    if |taken| == 1 {
      state := taken[0];
    } else if |taken| > 1 {
      var tail := placer.CloseAll(c, taken);
      state := Placement(tail, None, []);
    }
    ghost var entered := Enter(c, r.placed, taken);
    assert Working(placer.Contents(), state) == entered;
    match c.flow[key] {
      case Act(message) =>
        if state.message != Some(message) {
          var tail := placer.Close(c, state);
          state := Placement(tail, Some(message), []);
        }
        var tail := placer.Place(c, key, state.tail);
        state := state.(tail := tail);
      case Inside =>
        if state.message.Some? {
          state := state.(deferred := state.deferred + [key]);
        } else {
          var tail := placer.Place(c, key, state.tail);
          state := state.(tail := tail);
        }
      case Prompt =>
        var tail := placer.Close(c, state);
        tail := placer.Place(c, key, tail);
        state := Placement(tail, None, []);
    }
    assert Working(placer.Contents(), state) == Perceive(c, entered, key);
    held' := held;
    var count := if key in children then children[key] else 0;
    if count == 0 {
      if Finished(c, key, state.deferred) {
        var tail := placer.Close(c, state);
      } else {
        held' := held' + Elements(state.deferred);
      }
    } else if count == 1 {
      states := states[key := Live(state, 1)];
    } else {
      var tail := placer.Close(c, state);
      states := states[key := Live(Placement(tail, None, []), count)];
    }
  }

  lemma RunnableValid(c: Corpus, r: Run, key: Key)
    requires Runnable(c, r, key)
    ensures c.Valid() && key in c.parents
    ensures forall s | s in Taken(c, r, key) :: Known(c, s.deferred)
  {
  }
}
