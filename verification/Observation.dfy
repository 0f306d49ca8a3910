/** What the scans observed about a key, and how observations are added up. */
module Observations {
  import opened Base
  import opened Nodes
  import opened Placements

  /** What one record contributes: its facts, and the tool links beside them. */
  datatype Shape = Shape(facts: seq<Fact>, links: int)

  datatype Observation = Observation(
    content: bool,
    turnDuration: bool,
    nonTurnDuration: bool,
    parents: set<Key>,
    replayParents: set<Key>,
    shapes: seq<Shape>,
    flow: Option<Flow>)

  const UNSEEN := Observation(false, false, false, {}, {}, [], None)

  /** Acts before what is inside, before prompts; acts by message. */
  predicate LeFlow(a: Flow, b: Flow) {
    match (a, b)
    case (Act(m), Act(n)) => m <= n
    case (Act(_), _) => true
    case (Inside, Act(_)) => false
    case (Inside, _) => true
    case (Prompt, Prompt) => true
    case (Prompt, _) => false
  }

  /** Copies agree on their flow; where they would not, the least wins. */
  function MergeFlow(a: Option<Flow>, b: Option<Flow>): Option<Flow> {
    match (a, b)
    case (Some(f), Some(g)) => if LeFlow(f, g) then a else b
    case (Some(_), None) => a
    case (None, _) => b
  }

  function AddShapes(shapes: seq<Shape>, more: seq<Shape>): (r: seq<Shape>)
    ensures forall s :: s in r <==> s in shapes || s in more
    ensures shapes <= r
    decreases |more|
  {
    if more == [] then shapes
    else AddShapes(if more[0] in shapes then shapes else shapes + [more[0]], more[1..])
  }

  function Add(a: Observation, b: Observation): Observation {
    Observation(
      a.content || b.content,
      a.turnDuration || b.turnDuration,
      a.nonTurnDuration || b.nonTurnDuration,
      a.parents + b.parents,
      a.replayParents + b.replayParents,
      AddShapes(a.shapes, b.shapes),
      MergeFlow(a.flow, b.flow))
  }

  /** f is the least of the flows observed. */
  ghost predicate LeastFlow(parts: set<Observation>, flow: Option<Flow>) {
    && (forall o | o in parts && o.flow.Some? :: flow.Some? && LeFlow(flow.value, o.flow.value))
    && (flow.Some? ==> exists o | o in parts :: o.flow == flow)
  }

  /** `sum` is all that the parts say together. */
  ghost predicate Sums(parts: set<Observation>, sum: Observation) {
    && (sum.content <==> exists o | o in parts :: o.content)
    && (sum.turnDuration <==> exists o | o in parts :: o.turnDuration)
    && (sum.nonTurnDuration <==> exists o | o in parts :: o.nonTurnDuration)
    && (forall p :: p in sum.parents <==> exists o | o in parts :: p in o.parents)
    && (forall p :: p in sum.replayParents <==> exists o | o in parts :: p in o.replayParents)
    && (forall s :: s in sum.shapes <==> exists o | o in parts :: s in o.shapes)
    && LeastFlow(parts, sum.flow)
  }

  lemma NothingSums()
    ensures Sums({}, UNSEEN)
  {
  }

  lemma FlowMore(parts: set<Observation>, flow: Option<Flow>, o: Observation)
    requires LeastFlow(parts, flow)
    ensures LeastFlow(parts + {o}, MergeFlow(flow, o.flow))
  {
    var merged := MergeFlow(flow, o.flow);
    assert o in parts + {o};
    if merged.Some? && merged == flow {
      var x :| x in parts && x.flow == flow;
      assert x in parts + {o};
    }
  }

  lemma SetsMore(parts: set<Observation>, sum: Observation, o: Observation)
    requires Sums(parts, sum)
    ensures var more := parts + {o};
            && (forall p :: p in sum.parents + o.parents <==> exists x | x in more :: p in x.parents)
            && (forall p :: p in sum.replayParents + o.replayParents <==> exists x | x in more :: p in x.replayParents)
            && (forall s :: s in AddShapes(sum.shapes, o.shapes) <==> exists x | x in more :: s in x.shapes)
  {
    hide LeastFlow, AddShapes;
    var more := parts + {o};
    assert o in more && forall x | x in parts :: x in more;
    forall p ensures p in sum.parents + o.parents <==> exists x | x in more :: p in x.parents {
      if x :| x in more && p in x.parents {
        assert x == o || x in parts;
      }
    }
    forall p ensures p in sum.replayParents + o.replayParents <==> exists x | x in more :: p in x.replayParents {
      if x :| x in more && p in x.replayParents {
        assert x == o || x in parts;
      }
    }
    forall s ensures s in AddShapes(sum.shapes, o.shapes) <==> exists x | x in more :: s in x.shapes {
      if x :| x in more && s in x.shapes {
        assert x == o || x in parts;
      }
    }
  }

  lemma FlagsMore(parts: set<Observation>, sum: Observation, o: Observation)
    requires Sums(parts, sum)
    ensures var more := parts + {o};
            && (sum.content || o.content <==> exists x | x in more :: x.content)
            && (sum.turnDuration || o.turnDuration <==> exists x | x in more :: x.turnDuration)
            && (sum.nonTurnDuration || o.nonTurnDuration <==> exists x | x in more :: x.nonTurnDuration)
  {
    hide LeastFlow;
    var more := parts + {o};
    assert o in more && forall x | x in parts :: x in more;
  }

  /** One more part adds what it says. */
  lemma SumsMore(parts: set<Observation>, sum: Observation, o: Observation)
    requires Sums(parts, sum)
    ensures Sums(parts + {o}, Add(sum, o))
  {
    hide LeastFlow, AddShapes, MergeFlow;
    FlowMore(parts, sum.flow, o);
    SetsMore(parts, sum, o);
    FlagsMore(parts, sum, o);
  }

  /** Equal but for the order in which shapes were met. */
  ghost predicate Alike(a: Observation, b: Observation) {
    && a.content == b.content && a.turnDuration == b.turnDuration && a.nonTurnDuration == b.nonTurnDuration
    && a.parents == b.parents && a.replayParents == b.replayParents && a.flow == b.flow
    && forall s :: s in a.shapes <==> s in b.shapes
  }

  lemma LeastFlowUnique(parts: set<Observation>, f: Option<Flow>, g: Option<Flow>)
    requires LeastFlow(parts, f) && LeastFlow(parts, g)
    ensures f == g
  {
    if f.Some? {
      var o :| o in parts && o.flow == f;
      assert g.Some?;
      var o' :| o' in parts && o'.flow == g;
    }
    if g.Some? {
      var o :| o in parts && o.flow == g;
      assert f.Some?;
    }
  }

  /** A sum does not depend on the order its parts were added in. */
  lemma SumsAlike(parts: set<Observation>, a: Observation, b: Observation)
    requires Sums(parts, a) && Sums(parts, b)
    ensures Alike(a, b)
  {
    hide LeastFlow;
    LeastFlowUnique(parts, a.flow, b.flow);
  }

  /** What a scan guarantees of an observation. */
  ghost predicate WellObserved(o: Observation) {
    && (o.content <==> o.shapes != []) && (o.content <==> o.flow.Some?)
    && forall s | s in o.shapes :: s.facts != []
  }

  lemma WellObservedSum(parts: set<Observation>, sum: Observation)
    requires Sums(parts, sum) && forall o | o in parts :: WellObserved(o)
    ensures WellObserved(sum)
  {
    if sum.content {
      var o :| o in parts && o.content;
      assert o.shapes[0] in sum.shapes;
    }
    if sum.shapes != [] {
      assert sum.shapes[0] in sum.shapes;
      var o :| o in parts && sum.shapes[0] in o.shapes;
      assert o.content;
    }
    if sum.flow.Some? {
      var o :| o in parts && o.flow == sum.flow;
      assert o.content;
    }
  }
}
