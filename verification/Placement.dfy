/** How classes are placed: the state machine that turns the ordered record
    classes into node chains, deferring what was logged inside a message until
    the message is complete. */
module Placements {
  import opened Base
  import opened Nodes
  import opened Graphs

  type Message = int

  /** How one record takes part in the perceive-act order. */
  datatype Flow = Act(message: Message) | Inside | Prompt

  /** The record classes with content, as planning sees them. */
  datatype Corpus = Corpus(
    parents: Graph,
    facts: map<Key, seq<Fact>>,
    flow: map<Key, Flow>,
    trailing: set<Key>,  // the branch end each unfinished file wrote last
    settled: set<Key>)   // held by finished files only
  {
    ghost predicate Valid() {
      && facts.Keys == parents.Keys == flow.Keys
      && forall k | k in facts :: facts[k] != []
    }
  }

  /** Where a branch of the history stands. */
  datatype Placement = Placement(tail: set<Node>, message: Option<Message>, deferred: seq<Key>)

  const START := Placement({}, None, [])

  /** What the placer has assigned; `log` lists the classes in placing order. */
  datatype Placed = Placed(nodes: map<Key, seq<Node>>, firsts: map<Key, set<Node>>, log: seq<Key>)

  datatype Live = Live(state: Placement, remaining: nat)

  datatype Run = Run(placed: Placed, states: map<Key, Live>, held: set<Key>)

  const EMPTY_RUN := Run(Placed(map[], map[], []), map[], {})

  datatype Closing = Closing(placed: Placed, tail: set<Node>)

  datatype Working = Working(placed: Placed, state: Placement)

  ghost predicate Known(c: Corpus, keys: seq<Key>) {
    forall k | k in keys :: k in c.parents
  }

  function Put(c: Corpus, w: Placed, key: Key, previous: set<Node>): Closing
    requires c.Valid() && key in c.parents
  {
    var chain := Chain(previous, c.facts[key]);
    Closing(Placed(w.nodes[key := chain], w.firsts[key := previous], w.log + [key]), {Last(chain)})
  }

  /** Complete the open message: what it deferred follows it, in source order. */
  function Close(c: Corpus, w: Placed, tail: set<Node>, deferred: seq<Key>): Closing
    requires c.Valid() && Known(c, deferred)
    decreases |deferred|
  {
    if deferred == [] then Closing(w, tail)
    else
      var first := Put(c, w, deferred[0], tail);
      Close(c, first.placed, first.tail, deferred[1..])
  }

  function CloseAll(c: Corpus, w: Placed, taken: seq<Placement>): Closing
    requires c.Valid() && forall s | s in taken :: Known(c, s.deferred)
    decreases |taken|
  {
    if taken == [] then Closing(w, {})
    else
      var first := Close(c, w, taken[0].tail, taken[0].deferred);
      var rest := CloseAll(c, first.placed, taken[1..]);
      Closing(rest.placed, first.tail + rest.tail)
  }

  /** What the loop's lookups rely on when it reaches `key`. */
  ghost predicate Runnable(c: Corpus, r: Run, key: Key) {
    && c.Valid() && key in c.parents
    && (forall p | p in Up(c.parents, key) :: p in r.states && r.states[p].remaining > 0)
    && (forall p | p in r.states :: Known(c, r.states[p].state.deferred))
  }

  /** The parents' states, in the order of their keys. */
  function Taken(c: Corpus, r: Run, key: Key): (taken: seq<Placement>)
    requires Runnable(c, r, key)
    ensures |taken| == |Up(c.parents, key)|
    ensures forall s | s in taken :: Known(c, s.deferred)
  {
    var incoming := Sorted(Up(c.parents, key));
    seq(|incoming|, i requires 0 <= i < |incoming| => assert incoming[i] in incoming; r.states[incoming[i]].state)
  }

  function Release(states: map<Key, Live>, incoming: set<Key>): map<Key, Live>
    requires forall p | p in incoming :: p in states && states[p].remaining > 0
  {
    map p | p in states && (p in incoming ==> states[p].remaining != 1) ::
      if p in incoming then states[p].(remaining := states[p].remaining - 1) else states[p]
  }

  function Enter(c: Corpus, w: Placed, taken: seq<Placement>): (e: Working)
    requires c.Valid() && forall s | s in taken :: Known(c, s.deferred)
    ensures Known(c, e.state.deferred)
  {
    if |taken| == 0 then Working(w, START)
    else if |taken| == 1 then Working(w, taken[0])
    else
      var closed := CloseAll(c, w, taken);
      Working(closed.placed, Placement(closed.tail, None, []))
  }

  function Perceive(c: Corpus, e: Working, key: Key): (r: Working)
    requires c.Valid() && key in c.parents && Known(c, e.state.deferred)
    ensures Known(c, r.state.deferred)
  {
    match c.flow[key]
    case Act(message) =>
      if e.state.message == Some(message) then
        var put := Put(c, e.placed, key, e.state.tail);
        Working(put.placed, e.state.(tail := put.tail))
      else
        var closed := Close(c, e.placed, e.state.tail, e.state.deferred);
        var put := Put(c, closed.placed, key, closed.tail);
        Working(put.placed, Placement(put.tail, Some(message), []))
    case Inside =>
      if e.state.message.Some? then
        Working(e.placed, e.state.(deferred := e.state.deferred + [key]))
      else
        var put := Put(c, e.placed, key, e.state.tail);
        Working(put.placed, e.state.(tail := put.tail))
    case Prompt =>
      var closed := Close(c, e.placed, e.state.tail, e.state.deferred);
      var put := Put(c, closed.placed, key, closed.tail);
      Working(put.placed, Placement(put.tail, None, []))
  }

  /** Whether a branch ending at `key` emits what its open message deferred. */
  predicate Finished(c: Corpus, key: Key, deferred: seq<Key>) {
    key !in c.trailing || forall k | k in [key] + deferred :: k in c.settled
  }

  function Leave(c: Corpus, e: Working, key: Key, states: map<Key, Live>, held: set<Key>): Run
    requires c.Valid() && Known(c, e.state.deferred)
  {
    var children := |Children(c.parents, key)|;
    if children == 0 then
      if Finished(c, key, e.state.deferred) then
        Run(Close(c, e.placed, e.state.tail, e.state.deferred).placed, states, held)
      else
        Run(e.placed, states, held + Elements(e.state.deferred))
    else if children == 1 then
      Run(e.placed, states[key := Live(e.state, 1)], held)
    else
      var closed := Close(c, e.placed, e.state.tail, e.state.deferred);
      Run(closed.placed, states[key := Live(Placement(closed.tail, None, []), children)], held)
  }

  function Step(c: Corpus, r: Run, key: Key): Run
    requires Runnable(c, r, key)
  {
    var entered := Enter(c, r.placed, Taken(c, r, key));
    var perceived := Perceive(c, entered, key);
    Leave(c, perceived, key, Release(r.states, Up(c.parents, key)), r.held)
  }

  /** Every class of `order` can be stepped through: no lookup ever fails. */
  ghost predicate RunsThrough(c: Corpus, r: Run, order: seq<Key>)
    decreases |order|
  {
    order == [] || (Runnable(c, r, order[0]) && RunsThrough(c, Step(c, r, order[0]), order[1..]))
  }

  function RunAll(c: Corpus, r: Run, order: seq<Key>): Run
    requires RunsThrough(c, r, order)
    decreases |order|
  {
    if order == [] then r else RunAll(c, Step(c, r, order[0]), order[1..])
  }
}
