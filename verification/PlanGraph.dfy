/** What planning takes the classes of keys to be, read off the scans: what links
    them, which have content, and which are telemetry. */
module PlanGraph {
  import opened Base
  import opened Nodes
  import opened Graphs
  import opened Placements
  import opened Observations
  import opened Aliases
  import opened Quotients
  import opened Plans
  import opened PlanResults
  import opened PlacementRuns
  import opened TopoOrders

  /** A file shows key k of class c, and says this of it. */
  ghost predicate Tells(scans: seq<PreScan>, canonical: map<Key, Key>, c: Key, k: Key, o: Observation) {
    k in canonical && canonical[k] == c && exists s | s in scans :: k in s.sources && s.sources[k] == o
  }

  /** Where this key's record was put: under its parents and, if it is no copy of its
      origin, where the replay put it. */
  ghost predicate PutUnder(kept: set<Edge>, k: Key, o: Observation, q: Key) {
    q in o.parents || (q in o.replayParents && forall e | e in kept :: e.0 != k)
  }

  /** Some file puts a record of class c under a record of class p. */
  ghost predicate Links(scans: seq<PreScan>, kept: set<Edge>, canonical: map<Key, Key>, c: Key, p: Key) {
    exists k, o, q | Tells(scans, canonical, c, k, o) && PutUnder(kept, k, o, q) :: q in canonical && canonical[q] == p
  }

  ghost predicate HasContent(scans: seq<PreScan>, canonical: map<Key, Key>, c: Key) {
    exists k, o | Tells(scans, canonical, c, k, o) :: o.content
  }

  ghost predicate HasTelemetry(scans: seq<PreScan>, canonical: map<Key, Key>, c: Key) {
    exists k, o | Tells(scans, canonical, c, k, o) :: o.turnDuration
  }

  ghost predicate HasOther(scans: seq<PreScan>, canonical: map<Key, Key>, c: Key) {
    exists k, o | Tells(scans, canonical, c, k, o) :: o.nonTurnDuration
  }

  lemma TellsAreParts(scans: seq<PreScan>, canonical: map<Key, Key>, c: Key, k: Key, o: Observation)
    ensures Tells(scans, canonical, c, k, o) <==>
              k in canonical && canonical[k] == c && o in Parts(scans, k)
  {
  }

  // ------------------------------------------------------- what a key shows

  /** A class is shown by the key k to have content, or to be telemetry, or to be not only that. */
  lemma KeyTold(scans: seq<PreScan>, w: Work, c: Key, k: Key)
    requires Gathered(scans, w.raw) && k in w.raw && k in w.canonical && w.canonical[k] == c
    ensures w.raw[k].content <==> exists o | Tells(scans, w.canonical, c, k, o) :: o.content
    ensures w.raw[k].turnDuration <==> exists o | Tells(scans, w.canonical, c, k, o) :: o.turnDuration
    ensures w.raw[k].nonTurnDuration <==> exists o | Tells(scans, w.canonical, c, k, o) :: o.nonTurnDuration
  {
    hide LeastFlow, Tells, AddScans, Parts;
    forall o ensures Tells(scans, w.canonical, c, k, o) <==> o in Parts(scans, k) {
      TellsAreParts(scans, w.canonical, c, k, o);
    }
  }

  lemma KeyPut(scans: seq<PreScan>, w: Work, c: Key, k: Key, q: Key)
    requires Gathered(scans, w.raw) && k in w.raw && k in w.canonical && w.canonical[k] == c
    ensures q in Repositioned(w.raw, w.kept)[k].parents <==>
              exists o | Tells(scans, w.canonical, c, k, o) :: PutUnder(w.kept, k, o, q)
  {
    hide LeastFlow, Tells, AddScans, Parts;
    forall o ensures Tells(scans, w.canonical, c, k, o) <==> o in Parts(scans, k) {
      TellsAreParts(scans, w.canonical, c, k, o);
    }
  }

  lemma ToldSeen(scans: seq<PreScan>, w: Work, c: Key, k: Key, o: Observation)
    requires Gathered(scans, w.raw) && Tells(scans, w.canonical, c, k, o)
    ensures k in w.raw && k in w.canonical && w.canonical[k] == c
  {
    hide Sums, AddScans;
    assert Seen(scans, k);
  }

  // ----------------------------------------------------- what a class shows

  lemma ClassFlags(raw: map<Key, Observation>, w: Work, c: Key)
    requires Covers(raw, w.canonical) && Classed(raw, w.canonical, w.observed) && c in w.observed
    ensures w.observed[c].content <==> exists k | k in raw && w.canonical[k] == c :: raw[k].content
    ensures w.observed[c].turnDuration <==> exists k | k in raw && w.canonical[k] == c :: raw[k].turnDuration
    ensures w.observed[c].nonTurnDuration <==> exists k | k in raw && w.canonical[k] == c :: raw[k].nonTurnDuration
  {
    hide LeastFlow;
    var parts := ClassParts(raw, w.canonical, c);
    forall k | k in raw && w.canonical[k] == c ensures InClass(raw[k], w.canonical) in parts {
    }
    forall o | o in parts
      ensures exists k | k in raw && w.canonical[k] == c :: o == InClass(raw[k], w.canonical) {
    }
  }

  lemma ClassParents(raw: map<Key, Observation>, w: Work, c: Key, p: Key)
    requires Covers(raw, w.canonical) && Classed(raw, w.canonical, w.observed) && c in w.observed
    ensures p in w.observed[c].parents <==>
              exists k, q | k in raw && w.canonical[k] == c && q in raw[k].parents :: w.canonical[q] == p
  {
    hide LeastFlow;
    var parts := ClassParts(raw, w.canonical, c);
    if k, q :| k in raw && w.canonical[k] == c && q in raw[k].parents && w.canonical[q] == p {
      assert InClass(raw[k], w.canonical) in parts;
      assert p in InClass(raw[k], w.canonical).parents;
    }
    if o :| o in parts && p in o.parents {
      var k :| k in raw && w.canonical[k] == c && o == InClass(raw[k], w.canonical);
      var q :| q in raw[k].parents && w.canonical[q] == p;
    }
  }

  /** The same of a class, as the scans show it. */
  lemma FlagsTold(scans: seq<PreScan>, w: Work, c: Key)
    requires Quotiented(scans, w) && c in w.observed
    ensures w.observed[c].content <==> HasContent(scans, w.canonical, c)
    ensures w.observed[c].turnDuration <==> HasTelemetry(scans, w.canonical, c)
    ensures w.observed[c].nonTurnDuration <==> HasOther(scans, w.canonical, c)
  {
    hide IsQuotient, Greedy, Classed, Gathered, Tells;
    var raw := Repositioned(w.raw, w.kept);
    ClassFlags(raw, w, c);
    forall k | k in raw && w.canonical[k] == c
      ensures w.raw[k].content <==> exists o | Tells(scans, w.canonical, c, k, o) :: o.content
      ensures w.raw[k].turnDuration <==> exists o | Tells(scans, w.canonical, c, k, o) :: o.turnDuration
      ensures w.raw[k].nonTurnDuration <==> exists o | Tells(scans, w.canonical, c, k, o) :: o.nonTurnDuration
    {
      KeyTold(scans, w, c, k);
    }
    forall k, o | Tells(scans, w.canonical, c, k, o) ensures k in raw && w.canonical[k] == c {
      ToldSeen(scans, w, c, k, o);
    }
  }

  lemma LinksTold(scans: seq<PreScan>, w: Work, c: Key, p: Key)
    requires Quotiented(scans, w) && c in w.observed
    ensures p in w.observed[c].parents <==> Links(scans, w.kept, w.canonical, c, p)
  {
    hide IsQuotient, Greedy, Classed, Gathered, Tells, Repositioned, PutUnder;
    var raw := Repositioned(w.raw, w.kept);
    RepositionedHas(w.raw, w.kept);
    ClassParents(raw, w, c, p);
    forall k, q | k in raw && w.canonical[k] == c
      ensures q in raw[k].parents <==>
              exists o | Tells(scans, w.canonical, c, k, o) :: PutUnder(w.kept, k, o, q)
    {
      KeyPut(scans, w, c, k, q);
    }
    forall k, o | Tells(scans, w.canonical, c, k, o) ensures k in raw && w.canonical[k] == c {
      ToldSeen(scans, w, c, k, o);
    }
  }

  lemma RepositionedHas(raw: map<Key, Observation>, kept: set<Edge>)
    ensures Repositioned(raw, kept).Keys == raw.Keys
  {
  }

  /** Nothing but turn-duration telemetry. */
  ghost predicate OnlyTelemetry(scans: seq<PreScan>, canonical: map<Key, Key>, c: Key) {
    HasTelemetry(scans, canonical, c) && !HasOther(scans, canonical, c)
  }

  ghost predicate Mutual(scans: seq<PreScan>, w: Work, c: Key, p: Key) {
    Links(scans, w.kept, w.canonical, c, p) && Links(scans, w.kept, w.canonical, p, c)
  }

  lemma LinksFromSeen(scans: seq<PreScan>, w: Work, c: Key, p: Key)
    requires Quotiented(scans, w) && Links(scans, w.kept, w.canonical, c, p)
    ensures c in w.observed
  {
    hide IsQuotient, Greedy, Gathered, Tells, PutUnder, Sums;
    var k, o, q :| Tells(scans, w.canonical, c, k, o) && PutUnder(w.kept, k, o, q)
      && q in w.canonical && w.canonical[q] == p;
    ToldSeen(scans, w, c, k, o);
    RepositionedHas(w.raw, w.kept);
  }

  /** The graph that planning contracts holds exactly the links the scans show,
      but for those of a class of mere telemetry under one that lies under it in
      turn; the classes with content are those some scan shows with content; and
      planning refuses exactly a class with both content and telemetry. */
  lemma GraphByScans(scans: seq<PreScan>, w: Work, c: Key, p: Key)
    requires Quotiented(scans, w) && c in w.observed
    ensures c in Normalize(w.observed)
    ensures p in Normalize(w.observed)[c] <==>
              && Links(scans, w.kept, w.canonical, c, p)
              && !(OnlyTelemetry(scans, w.canonical, c) && Mutual(scans, w, c, p))
    ensures c in Semantic(w.observed) <==> HasContent(scans, w.canonical, c)
    ensures Telemetric(w.observed) <==>
              exists x :: HasContent(scans, w.canonical, x) && HasTelemetry(scans, w.canonical, x)
  {
    hide Quotiented, HasContent, HasTelemetry, HasOther, Links;
    FlagsTold(scans, w, c);
    LinksTold(scans, w, c, p);
    if p in w.observed {
      LinksTold(scans, w, p, c);
    } else if Links(scans, w.kept, w.canonical, p, c) {
      LinksFromSeen(scans, w, p, c);
    }
    TelemetricTold(scans, w);
  }

  lemma TelemetricTold(scans: seq<PreScan>, w: Work)
    requires Quotiented(scans, w)
    ensures Telemetric(w.observed) <==>
              exists x :: HasContent(scans, w.canonical, x) && HasTelemetry(scans, w.canonical, x)
  {
    hide Quotiented, HasContent, HasTelemetry, HasOther;
    if Telemetric(w.observed) {
      var x :| x in w.observed && w.observed[x].content && w.observed[x].turnDuration;
      FlagsTold(scans, w, x);
    }
    if x :| HasContent(scans, w.canonical, x) && HasTelemetry(scans, w.canonical, x) {
      ContentSeen(scans, w, x);
      FlagsTold(scans, w, x);
    }
  }

  lemma ContentSeen(scans: seq<PreScan>, w: Work, c: Key)
    requires Quotiented(scans, w) && HasContent(scans, w.canonical, c)
    ensures c in w.observed
  {
    hide IsQuotient, Greedy, Gathered, Tells, Sums;
    var k, o :| Tells(scans, w.canonical, c, k, o) && o.content;
    ToldSeen(scans, w, c, k, o);
    RepositionedHas(w.raw, w.kept);
  }

  /** A fork copy counts as its origin exactly if some file shows the pair and,
      beside the earlier copies that count, it joins no two keys that say different
      things. */
  lemma AliasByScans(scans: seq<PreScan>, w: Work, e: Edge)
    requires Quotiented(scans, w)
    ensures e in w.kept <==>
              && (exists s | s in scans :: e in s.aliases)
              && Sound(SaysIn(w.raw), (set x | x in w.kept && Earlier(x, e)) + {e})
    ensures forall k :: k in SaysIn(w.raw) <==> exists s | s in scans && k in s.sources :: s.sources[k].shapes != []
  {
    hide IsQuotient, Classed, Gathered, Repositioned, Sound, Earlier, Greedy;
    GreedyWithin(SaysIn(w.raw), SortedPairs(AllAliases(scans)));
    if e in AllAliases(scans) {
      KeptByOrder(SaysIn(w.raw), AllAliases(scans), e);
    }
    forall k ensures k in SaysIn(w.raw) <==> exists s | s in scans && k in s.sources :: s.sources[k].shapes != [] {
      ShapesSeen(scans, w.raw, k);
    }
  }

  lemma ShapesSeen(scans: seq<PreScan>, raw: map<Key, Observation>, k: Key)
    requires Gathered(scans, raw)
    ensures k in raw && raw[k].shapes != [] <==> exists s | s in scans && k in s.sources :: s.sources[k].shapes != []
  {
    hide AddScans, LeastFlow;
    if k in raw && raw[k].shapes != [] {
      assert raw[k].shapes[0] in raw[k].shapes;
      var o :| o in Parts(scans, k) && raw[k].shapes[0] in o.shapes;
    }
    if s :| s in scans && k in s.sources && s.sources[k].shapes != [] {
      assert Seen(scans, k) && s.sources[k] in Parts(scans, k);
      assert k in raw && Sums(Parts(scans, k), raw[k]);
      var shape := s.sources[k].shapes[0];
      assert shape in s.sources[k].shapes;
      assert shape in raw[k].shapes;
    }
  }

  // -------------------------------------------------------- what is placed

  ghost predicate Flows(scans: seq<PreScan>, canonical: map<Key, Key>, c: Key, flow: Flow) {
    exists k, o :: Tells(scans, canonical, c, k, o) && o.flow == Some(flow)
  }

  /** The least flow told of c: an act, by the least message; else inside; else a prompt. */
  ghost predicate FlowTold(scans: seq<PreScan>, canonical: map<Key, Key>, c: Key, flow: Flow) {
    && Flows(scans, canonical, c, flow)
    && match flow
       case Act(m) => forall m' | Flows(scans, canonical, c, Act(m')) :: m <= m'
       case Inside => forall m :: !Flows(scans, canonical, c, Act(m))
       case Prompt => forall f | Flows(scans, canonical, c, f) :: f == Prompt
  }

  ghost predicate FactsTold(scans: seq<PreScan>, canonical: map<Key, Key>, c: Key, facts: seq<Fact>) {
    exists k, o, shape | Tells(scans, canonical, c, k, o) && shape in o.shapes :: shape.facts == facts
  }

  lemma ClassFlow(raw: map<Key, Observation>, w: Work, c: Key, flow: Flow)
    requires Covers(raw, w.canonical) && Classed(raw, w.canonical, w.observed) && c in w.observed
    requires w.observed[c].flow == Some(flow)
    ensures exists k | k in raw && w.canonical[k] == c :: raw[k].flow == Some(flow)
    ensures forall k | k in raw && w.canonical[k] == c && raw[k].flow.Some? :: LeFlow(flow, raw[k].flow.value)
  {
    var parts := ClassParts(raw, w.canonical, c);
    assert LeastFlow(parts, Some(flow));
    var o :| o in parts && o.flow == Some(flow);
    var k :| k in raw && w.canonical[k] == c && o == InClass(raw[k], w.canonical);
    forall k | k in raw && w.canonical[k] == c && raw[k].flow.Some? ensures LeFlow(flow, raw[k].flow.value) {
      assert InClass(raw[k], w.canonical) in parts;
    }
  }

  lemma KeyFlow(scans: seq<PreScan>, w: Work, k: Key)
    requires Gathered(scans, w.raw) && k in w.raw
    ensures forall o | o in Parts(scans, k) && o.flow.Some? ::
              w.raw[k].flow.Some? && LeFlow(w.raw[k].flow.value, o.flow.value)
    ensures w.raw[k].flow.Some? ==> exists o | o in Parts(scans, k) :: o.flow == w.raw[k].flow
  {
    hide AddScans, Parts;
    assert Sums(Parts(scans, k), w.raw[k]);
  }

  lemma FlowLeast(a: Flow, b: Flow, c: Flow)
    requires LeFlow(a, b) && LeFlow(b, c)
    ensures LeFlow(a, c)
  {
  }

  lemma ClassFlowTold(scans: seq<PreScan>, w: Work, c: Key, flow: Flow)
    requires Quotiented(scans, w) && c in w.observed && w.observed[c].flow == Some(flow)
    ensures FlowTold(scans, w.canonical, c, flow)
  {
    hide IsQuotient, Greedy, Classed, Gathered, Tells, LeFlow, Parts;
    var raw := Repositioned(w.raw, w.kept);
    ClassFlow(raw, w, c, flow);
    var k :| k in raw && w.canonical[k] == c && raw[k].flow == Some(flow);
    KeyFlow(scans, w, k);
    var o :| o in Parts(scans, k) && o.flow == Some(flow);
    TellsAreParts(scans, w.canonical, c, k, o);
    assert Flows(scans, w.canonical, c, flow);
    forall f | Flows(scans, w.canonical, c, f) ensures LeFlow(flow, f) {
      var k', o' :| Tells(scans, w.canonical, c, k', o') && o'.flow == Some(f);
      ToldSeen(scans, w, c, k', o');
      TellsAreParts(scans, w.canonical, c, k', o');
      KeyFlow(scans, w, k');
      FlowLeast(flow, raw[k'].flow.value, f);
    }
    LeastIsTold(scans, w.canonical, c, flow);
  }

  lemma LeastIsTold(scans: seq<PreScan>, canonical: map<Key, Key>, c: Key, flow: Flow)
    requires Flows(scans, canonical, c, flow) && forall f | Flows(scans, canonical, c, f) :: LeFlow(flow, f)
    ensures FlowTold(scans, canonical, c, flow)
  {
    hide Flows;
  }

  lemma ShapeOfSome(raw: map<Key, Observation>, w: Work, c: Key, shape: Shape) returns (k: Key)
    requires Covers(raw, w.canonical) && Classed(raw, w.canonical, w.observed) && c in w.observed
    requires shape in w.observed[c].shapes
    ensures k in raw && w.canonical[k] == c && shape in raw[k].shapes
  {
    hide LeastFlow;
    var part :| part in ClassParts(raw, w.canonical, c) && shape in part.shapes;
    k :| k in raw && w.canonical[k] == c && part == InClass(raw[k], w.canonical);
  }

  lemma ShapeTold(scans: seq<PreScan>, w: Work, c: Key, k: Key, shape: Shape)
    requires Gathered(scans, w.raw) && k in w.raw && k in w.canonical && w.canonical[k] == c
    requires shape in w.raw[k].shapes
    ensures FactsTold(scans, w.canonical, c, shape.facts)
  {
    hide Tells, LeastFlow, AddScans, Parts;
    var o :| o in Parts(scans, k) && shape in o.shapes;
    TellsAreParts(scans, w.canonical, c, k, o);
  }

  lemma ClassFactsTold(scans: seq<PreScan>, w: Work, c: Key, shape: Shape)
    requires Quotiented(scans, w) && c in w.observed && shape in w.observed[c].shapes
    ensures FactsTold(scans, w.canonical, c, shape.facts)
  {
    hide FactsTold, IsQuotient, Greedy, Gathered, Classed;
    var raw := Repositioned(w.raw, w.kept);
    var k := ShapeOfSome(raw, w, c, shape);
    ShapeTold(scans, w, c, k, shape);
  }

  /** What the placing is given: the classes under their contracted parents, each
      with the least flow and with facts that some file shows of it. */
  lemma CorpusByScans(scans: seq<PreScan>, w: Work, c: Key)
    requires Quotiented(scans, w) && Ran(scans, w) && c in w.parents
    ensures var corpus := CorpusIn(scans, w);
            && corpus.parents == w.parents && c in corpus.flow && c in corpus.facts
            && FlowTold(scans, w.canonical, c, corpus.flow[c])
            && FactsTold(scans, w.canonical, c, corpus.facts[c])
  {
    hide Quotiented, Trailing, Settled, FlowTold, FactsTold, RunAll, RunsThrough, LeastOrder, Topological;
    var o := w.observed[c];
    assert WellObserved(o);
    ClassFlowTold(scans, w, c, o.flow.value);
    assert o.shapes[0] in o.shapes;
    ClassFactsTold(scans, w, c, o.shapes[0]);
  }

  // --------------------------------------------------- reciprocal telemetry

  /** Afterwards no class of mere telemetry and another class lie under each other. */
  lemma NoTelemetryMutual(observed: map<Key, Observation>, t: Key, a: Key)
    requires t in observed && observed[t].turnDuration && !observed[t].nonTurnDuration && a in observed
    ensures !(a in Normalize(observed)[t] && t in Normalize(observed)[a])
    ensures a in observed[t].parents && a !in Normalize(observed)[t] ==> t in observed[a].parents
  {
  }

  /** A class of mere telemetry that lies only under records which lie under it
      descends from nothing afterwards; as the files have it, it descends from itself. */
  lemma BacklinkIsNoCycle(observed: map<Key, Observation>, t: Key, a: Key)
    requires t in observed && observed[t].turnDuration && !observed[t].nonTurnDuration && a in observed[t].parents
    requires forall p | p in observed[t].parents :: p in observed && t in observed[p].parents
    ensures forall x :: !Ancestor(Normalize(observed), x, t)
    ensures Ancestor(map k | k in observed :: observed[k].parents, t, t)
  {
    var graph := Normalize(observed);
    forall x ensures !Ancestor(graph, x, t) {
      AncestorViaParent(graph, x, t);
    }
    var written := map k | k in observed :: observed[k].parents;
    ParentIsAncestor(written, t, a);
    ParentIsAncestor(written, a, t);
    AncestorTransitive(written, t, a, t);
  }
}
