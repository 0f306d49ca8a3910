/** What a plan promises: when copies conflict, where every record ends up, which
    nodes are followed, and when the order of the scans is immaterial. */
module PlanResults {
  import opened Base
  import opened Nodes
  import opened Graphs
  import opened Connectivity
  import opened Placements
  import opened PlacementBooks
  import opened PlacementRuns
  import opened MessageRuns
  import opened Frontiers
  import opened Observations
  import opened Aliases
  import opened Quotients
  import opened TopoOrders
  import opened Plans
  import opened PlanOrder

  // --------------------------------------------------------------- conflicts

  /** One raw key was seen saying two different things. */
  ghost predicate TwoFaced(raw: map<Key, Observation>, k: Key) {
    k in raw && exists s, s' | s in raw[k].shapes && s' in raw[k].shapes :: s.facts != s'.facts
  }

  /** The keys of one class start by saying the same thing. */
  lemma ClassSaysOne(scans: seq<PreScan>, w: Work, k: Key, k': Key)
    requires Quotiented(scans, w) && k in w.raw && k' in w.raw && k in w.canonical && k' in w.canonical
    requires w.raw[k].shapes != [] && w.raw[k'].shapes != [] && w.canonical[k] == w.canonical[k']
    ensures w.raw[k].shapes[0].facts == w.raw[k'].shapes[0].facts
  {
    hide Gathered, Classed, IsQuotient, Greedy, PlanKeys, Connected;
    var raw := Repositioned(w.raw, w.kept);
    var keys := PlanKeys(raw, w.kept);
    PlanKeysHold(raw, w.kept);
    assert k in raw && k' in raw;
    SameClass(keys, w.kept, w.canonical, k, k');
    GreedySound(SaysIn(w.raw), SortedPairs(AllAliases(scans)));
    assert SaysIn(w.raw)[k] == SaysIn(w.raw)[k'];
  }

  lemma FacesAgree(raw: map<Key, Observation>, k: Key, s: Shape)
    requires k in raw && !TwoFaced(raw, k) && s in raw[k].shapes
    ensures raw[k].shapes != [] && s.facts == raw[k].shapes[0].facts
  {
    assert raw[k].shapes[0] in raw[k].shapes;
  }

  ghost predicate FacedInClass(w: Work, c: Key) {
    exists k | k in w.raw && k in w.canonical :: w.canonical[k] == c && TwoFaced(w.raw, k)
  }

  lemma DividedClassFaced(scans: seq<PreScan>, w: Work, c: Key, s: Shape, s': Shape)
    requires Quotiented(scans, w) && c in w.observed && s in w.observed[c].shapes && s' in w.observed[c].shapes
    requires s.facts != s'.facts
    ensures FacedInClass(w, c)
  {
    hide Quotiented, TwoFaced;
    var k := ShapeOfKey(scans, w, c, s);
    var k' := ShapeOfKey(scans, w, c, s');
    if !TwoFaced(w.raw, k) && !TwoFaced(w.raw, k') {
      FacesAgree(w.raw, k, s);
      FacesAgree(w.raw, k', s');
      ClassSaysOne(scans, w, k, k');
    }
  }

  /** Copies that were joined never conflict by themselves: the comparison fails
      exactly when one raw key, of a class that was placed, says two things. */
  lemma ConflictIffPlacedTwoFaced(scans: seq<PreScan>, w: Work)
    requires Quotiented(scans, w) && Ran(scans, w)
    ensures Clashes(w) <==> exists c | c in w.run.placed.nodes :: FacedInClass(w, c)
  {
    hide Quotiented, Ran, Clashes, ChainsFit, Divided;
    RanChainsFit(scans, w);
    QuotientedRaw(scans, w);
    ClashesIffDivided(scans, w);
    var placed := w.run.placed.nodes.Keys;
    if Divided(w.observed, placed) {
      DividedFaced(scans, w, placed);
    }
    if c :| c in placed && FacedInClass(w, c) {
      FacedDivides(scans, w, placed, c);
    }
  }

  lemma DividedFaced(scans: seq<PreScan>, w: Work, placed: set<Key>)
    requires Quotiented(scans, w) && Divided(w.observed, placed)
    ensures exists c | c in placed :: FacedInClass(w, c)
  {
    hide Quotiented, FacedInClass;
    var c, s, s' :| c in placed && c in w.observed && s in w.observed[c].shapes && s' in w.observed[c].shapes &&
        s.facts != s'.facts;
    DividedClassFaced(scans, w, c, s, s');
  }

  lemma FacedDivides(scans: seq<PreScan>, w: Work, placed: set<Key>, c: Key)
    requires Quotiented(scans, w) && c in placed && FacedInClass(w, c)
    ensures Divided(w.observed, placed)
  {
    hide Quotiented;
    var k :| k in w.raw && k in w.canonical && w.canonical[k] == c && TwoFaced(w.raw, k);
    var s, s' :| s in w.raw[k].shapes && s' in w.raw[k].shapes && s.facts != s'.facts;
    ShapeOfClass(scans, w, k, s);
    ShapeOfClass(scans, w, k, s');
  }

  /** The corpus the classes were placed from. */
  ghost function CorpusIn(scans: seq<PreScan>, w: Work): Corpus
    requires Ran(scans, w)
  {
    CorpusOf(scans, w.canonical, w.observed, w.parents)
  }

  /** d waits, at the end of an unsettled branch, for a message still open there. */
  ghost predicate WaitsAtEnd(c: Corpus, d: Key) {
    exists k | k in c.parents :: Children(c.parents, k) == {} && Waits(c, d, k) && !Settles(c, k)
  }

  lemma PlacedIffNotWaiting(scans: seq<PreScan>, w: Work, d: Key)
    requires Ran(scans, w)
    ensures d in w.run.placed.nodes <==> d in w.parents && !WaitsAtEnd(CorpusIn(scans, w), d)
  {
    hide RunAll, RunsThrough, LeastOrder, Topological, LinesCovered, Observes, Trailing, Settled, Waits, Settles;
    CorpusValid(scans, w.canonical, w.observed, w.parents);
    HeldBack(CorpusIn(scans, w), LeastOrder(w.parents, {}), d);
    if d in w.parents {
      RanPlacesOrHolds(scans, w, d);
    }
    assert d in w.run.placed.nodes.Keys ==> d in w.parents;
  }

  /** On the records alone: the comparison fails exactly when one raw key was seen
      saying two things, and its class does not wait at the end of an unsettled
      branch for a message still open there. */
  lemma ConflictIffTwoFaced(scans: seq<PreScan>, w: Work)
    requires Quotiented(scans, w) && Ran(scans, w)
    ensures Clashes(w) <==> exists c | c in w.parents :: FacedInClass(w, c) && !WaitsAtEnd(CorpusIn(scans, w), c)
  {
    hide Quotiented, Ran, Clashes, FacedInClass, WaitsAtEnd, CorpusIn;
    ConflictIffPlacedTwoFaced(scans, w);
    forall c ensures c in w.run.placed.nodes <==> c in w.parents && !WaitsAtEnd(CorpusIn(scans, w), c) {
      PlacedIffNotWaiting(scans, w, c);
    }
  }

  // ------------------------------------------------------ where records end up

  /** In a plan every key with content has a canonical key that is placed, as a
      chain of exactly the facts of every scan of it, or held: never both. */
  lemma EveryRecordPlanned(scans: seq<PreScan>, w: Work, plan: Plan, s: PreScan, k: Key)
    requires (forall s | s in scans :: WellScanned(s)) && Comes(scans, w, Ok(plan))
    requires s in scans && k in s.sources && s.sources[k].content
    ensures k in plan.canonical
    ensures var c := plan.canonical[k];
            && (c in plan.held <==> c !in plan.nodes)
            && (c in plan.nodes ==> c in plan.firsts && forall shape | shape in s.sources[k].shapes ::
                 plan.nodes[c] == Chain(plan.firsts[c], shape.facts))
  {
    hide Quotiented, WellScanned, Ran, Clashes, Telemetric, Looped, HasContraction, Acyclic;
    ScannedKey(scans, w, s, k);
    var c := plan.canonical[k];
    RanPlacesOrHolds(scans, w, c);
    forall shape | shape in s.sources[k].shapes && c in plan.nodes
      ensures plan.nodes[c] == Chain(plan.firsts[c], shape.facts)
    {
      ShapeOfClass(scans, w, k, shape);
      UnclashedSays(scans, w, c, shape);
    }
  }

  lemma ScannedShapes(scans: seq<PreScan>, w: Work, s: PreScan, k: Key)
    requires Quotiented(scans, w) && s in scans && k in s.sources
    ensures k in w.raw && (s.sources[k].content ==> w.raw[k].content)
    ensures forall shape | shape in s.sources[k].shapes :: shape in w.raw[k].shapes
  {
    hide Classed, IsQuotient, Greedy, Repositioned;
    assert Seen(scans, k);
    assert s.sources[k] in Parts(scans, k);
  }

  lemma ContentInClass(scans: seq<PreScan>, w: Work, k: Key)
    requires Quotiented(scans, w) && k in w.raw && w.raw[k].content
    ensures k in w.canonical && w.canonical[k] in Semantic(w.observed)
  {
    hide Gathered, IsQuotient, Greedy;
    var raw := Repositioned(w.raw, w.kept);
    assert k in raw;
    assert InClass(raw[k], w.canonical) in ClassParts(raw, w.canonical, w.canonical[k]);
  }

  lemma ScannedKey(scans: seq<PreScan>, w: Work, s: PreScan, k: Key)
    requires Quotiented(scans, w) && HasContraction(w)
    requires s in scans && k in s.sources && s.sources[k].content
    ensures k in w.raw && k in w.canonical && w.canonical[k] in w.parents
    ensures forall shape | shape in s.sources[k].shapes :: shape in w.raw[k].shapes
  {
    hide Quotiented;
    ScannedShapes(scans, w, s, k);
    ContentInClass(scans, w, k);
  }

  lemma RanPlacesOrHolds(scans: seq<PreScan>, w: Work, c: Key)
    requires Ran(scans, w) && c in w.parents
    ensures c in w.run.held <==> c !in w.run.placed.nodes
    ensures c in w.run.placed.nodes ==> c in w.run.placed.firsts
  {
    hide RunAll, RunsThrough, LeastOrder, Topological, LinesCovered, Observes, Trailing, Settled;
    CorpusValid(scans, w.canonical, w.observed, w.parents);
    var corpus := CorpusOf(scans, w.canonical, w.observed, w.parents);
    PlacedOrHeld(corpus, LeastOrder(w.parents, {}));
    assert c in w.run.placed.nodes.Keys + w.run.held;
  }

  lemma RanChain(scans: seq<PreScan>, w: Work, c: Key)
    requires Ran(scans, w) && c in w.run.placed.nodes
    ensures c in w.run.placed.firsts && c in w.observed && w.observed[c].shapes != []
    ensures w.run.placed.nodes[c] == Chain(w.run.placed.firsts[c], w.observed[c].shapes[0].facts)
  {
    hide RunAll, RunsThrough, LeastOrder, Topological, LinesCovered, Trailing, Settled;
    CorpusValid(scans, w.canonical, w.observed, w.parents);
    var corpus := CorpusOf(scans, w.canonical, w.observed, w.parents);
    NodesFollowNothingElse(corpus, LeastOrder(w.parents, {}), c, Node({}, 0));
    assert c in w.parents;
  }

  lemma UnclashedSays(scans: seq<PreScan>, w: Work, c: Key, shape: Shape)
    requires Quotiented(scans, w) && Ran(scans, w) && !Clashes(w) && c in w.run.placed.nodes
    requires c in w.observed && shape in w.observed[c].shapes
    ensures c in w.run.placed.firsts && w.run.placed.nodes[c] == Chain(w.run.placed.firsts[c], shape.facts)
  {
    hide Quotiented, Ran, Clashes, ChainsFit;
    RanChain(scans, w, c);
    RanChainsFit(scans, w);
    QuotientedRaw(scans, w);
    ClashesIffDivided(scans, w);
    assert w.observed[c].shapes[0] in w.observed[c].shapes;
    assert c in w.run.placed.nodes.Keys;
  }

  // ----------------------------------------------------------- in what order

  /** a's chain ends before k's begins; the other way round where a is late. */
  ghost predicate InOrder(nodes: map<Key, seq<Node>>, late: bool, a: Key, k: Key) {
    && a in nodes && k in nodes && nodes[a] != [] && nodes[k] != []
    && if late then Before(Last(nodes[k]), nodes[a][0]) else Before(Last(nodes[a]), nodes[k][0])
  }

  lemma RanInOrder(scans: seq<PreScan>, w: Work, a: Key, k: Key)
    requires Ran(scans, w) && a in w.run.placed.nodes && k in w.run.placed.nodes && Ancestor(w.parents, a, k)
    ensures InOrder(w.run.placed.nodes, Late(CorpusIn(scans, w), a, k), a, k)
  {
    hide RunAll, RunsThrough, LeastOrder, Topological, LinesCovered, Trailing, Settled, Before, Late, Ancestor,
      Observes;
    CorpusValid(scans, w.canonical, w.observed, w.parents);
    var c := CorpusIn(scans, w);
    NodesFollowRecords(c, LeastOrder(w.parents, {}), a, k);
    RanNonEmpty(scans, w, a);
    RanNonEmpty(scans, w, k);
  }

  /** A plan's nodes stand in the order of its records, also of those between
      which only contentless records lie: what a record descends from ends before
      it begins, unless it is a later act of the message that was logged inside. */
  lemma PlanFollowsRecords(scans: seq<PreScan>, w: Work, plan: Plan, a: Key, k: Key)
    requires Comes(scans, w, Ok(plan)) && a in plan.nodes && k in plan.nodes
    requires Ancestor(Normalize(w.observed), a, k)
    ensures Ran(scans, w) && InOrder(plan.nodes, Late(CorpusIn(scans, w), a, k), a, k)
  {
    hide Quotiented, Clashes, Telemetric, Looped, Acyclic, Ancestor, Late, HasContraction, IsContraction, Normalize,
      Semantic, Followed, CorpusIn, InOrder, LinesCovered, Observes, CorpusOf, RunsThrough, RunAll, LeastOrder,
      Topological;
    PlacedSemantic(scans, w);
    ContractionKeepsAncestry(Semantic(w.observed), Normalize(w.observed), w.parents, a, k);
    RanInOrder(scans, w, a, k);
  }

  lemma PlacedSemantic(scans: seq<PreScan>, w: Work)
    requires HasContraction(w) && Ran(scans, w)
    ensures w.run.placed.nodes.Keys <= Semantic(w.observed) <= Normalize(w.observed).Keys
    ensures IsContraction(Semantic(w.observed), Normalize(w.observed), w.parents)
  {
    hide RunAll, RunsThrough, LeastOrder, Topological, LinesCovered, Observes, ContractedAt;
  }

  // --------------------------------------------------------------- followed

  ghost predicate Precedes(nodes: map<Key, seq<Node>>, n: Node) {
    exists k, i | k in nodes && 0 <= i < |nodes[k]| :: n in nodes[k][i].previous
  }

  /** The first node follows `first`, each later one its predecessor alone. */
  ghost predicate Links(chain: seq<Node>, first: set<Node>) {
    chain != [] && chain[0].previous == first && forall i | 0 < i < |chain| :: chain[i].previous == {chain[i - 1]}
  }

  ghost predicate Chained(nodes: map<Key, seq<Node>>, firsts: map<Key, set<Node>>) {
    nodes.Keys <= firsts.Keys && forall k | k in nodes :: Links(nodes[k], firsts[k])
  }

  lemma ChainIsLinked(previous: set<Node>, facts: seq<Fact>)
    requires Chain(previous, facts) != []
    ensures Links(Chain(previous, facts), previous)
  {
  }

  lemma RanChained(scans: seq<PreScan>, w: Work)
    requires Ran(scans, w)
    ensures Chained(w.run.placed.nodes, w.run.placed.firsts)
  {
    hide Ran, Chain, Links;
    var nodes, firsts := w.run.placed.nodes, w.run.placed.firsts;
    forall k | k in nodes ensures k in firsts && Links(nodes[k], firsts[k]) {
      RanChain(scans, w, k);
      RanNonEmpty(scans, w, k);
      ChainIsLinked(firsts[k], w.observed[k].shapes[0].facts);
    }
  }

  lemma RanNonEmpty(scans: seq<PreScan>, w: Work, c: Key)
    requires Ran(scans, w) && c in w.run.placed.nodes
    ensures w.run.placed.nodes[c] != []
  {
    RanChain(scans, w, c);
    assert c in w.parents && WellObserved(w.observed[c]);
    assert w.observed[c].shapes[0] in w.observed[c].shapes;
  }

  lemma LinkAt(chain: seq<Node>, first: set<Node>, i: nat)
    requires Links(chain, first) && i < |chain|
    ensures i == 0 ==> chain[i].previous == first
    ensures i > 0 ==> chain[i].previous == {chain[i - 1]}
  {
  }

  lemma ChainedFollowed(nodes: map<Key, seq<Node>>, firsts: map<Key, set<Node>>, n: Node)
    requires Chained(nodes, firsts)
    ensures n in Followed(nodes, firsts) <==> Precedes(nodes, n)
  {
    if k :| k in nodes && n in firsts[k] {
      LinkAt(nodes[k], firsts[k], 0);
      assert n in nodes[k][0].previous;
    }
    if k, i :| k in nodes && 0 <= i < |nodes[k]| - 1 && nodes[k][i] == n {
      LinkAt(nodes[k], firsts[k], i + 1);
      assert n in nodes[k][i + 1].previous;
    }
    if k, i :| k in nodes && 0 <= i < |nodes[k]| && n in nodes[k][i].previous {
      LinkAt(nodes[k], firsts[k], i);
      if i > 0 {
        assert n == nodes[k][i - 1];
      }
    }
  }

  /** Followed are exactly the nodes that some node of the plan names as previous. */
  lemma FollowedExactly(scans: seq<PreScan>, w: Work, plan: Plan, n: Node)
    requires Comes(scans, w, Ok(plan))
    ensures n in plan.followed <==> Precedes(plan.nodes, n)
  {
    hide Quotiented, Clashes, Telemetric, Looped, HasContraction, Acyclic, Followed, Chained;
    RanChained(scans, w);
    ChainedFollowed(plan.nodes, plan.firsts, n);
  }

  // ------------------------------------------------------ order is immaterial

  /** Two scans show the key saying different things. */
  ghost predicate Ambiguous(scans: seq<PreScan>, k: Key) {
    exists s, s', a, b | s in scans && s' in scans && k in s.sources && k in s'.sources
      && a in s.sources[k].shapes && b in s'.sources[k].shapes :: a.facts != b.facts
  }

  /** No fork copy and no fork origin is ambiguous. */
  ghost predicate ClearCopies(scans: seq<PreScan>) {
    forall e | e in AllAliases(scans) :: !Ambiguous(scans, e.0) && !Ambiguous(scans, e.1)
  }

  ghost predicate SayAlikeAt(says: Says, says': Says, k: Key) {
    (k in says <==> k in says') && (k in says ==> says[k] == says'[k])
  }

  lemma {:induction false} WalkTouches(kept: set<Edge>, n: nat, a: Key, b: Key)
    requires Walk(kept, n, a, b) && a != b
    ensures exists e | e in kept :: e.0 == b || e.1 == b
  {
    var m :| Walk(kept, n - 1, a, m) && Touching(kept, m, b);
    if (m, b) in kept {
      assert (m, b).1 == b;
    } else {
      assert (b, m).0 == b;
    }
  }

  lemma ConnectedTouches(kept: set<Edge>, a: Key, b: Key)
    requires Connected(kept, a, b) && a != b
    ensures exists e | e in kept :: e.0 == b || e.1 == b
  {
    var n: nat :| Walk(kept, n, a, b);
    WalkTouches(kept, n, a, b);
  }

  /** Soundness only looks at the ends of edges. */
  lemma SoundAlike(says: Says, says': Says, kept: set<Edge>)
    requires forall e | e in kept :: SayAlikeAt(says, says', e.0) && SayAlikeAt(says, says', e.1)
    requires Sound(says, kept)
    ensures Sound(says', kept)
  {
    hide Connected;
    forall x, y | x in says' && y in says' && Connected(kept, x, y) ensures says'[x] == says'[y] {
      if x != y {
        ConnectedTouches(kept, x, y);
        ConnectedSymmetric(kept, x, y);
        ConnectedTouches(kept, y, x);
      }
    }
  }

  lemma {:induction false} GreedyAlike(says: Says, says': Says, edges: seq<Edge>)
    requires forall e | e in edges :: SayAlikeAt(says, says', e.0) && SayAlikeAt(says, says', e.1)
    ensures Greedy(says, edges) == Greedy(says', edges)
    decreases |edges|
  {
    hide Sound, SayAlikeAt;
    if edges != [] {
      var n := |edges| - 1;
      GreedyAlike(says, says', edges[..n]);
      GreedySound(says, edges[..n]);
      var more := Greedy(says, edges[..n]) + {edges[n]};
      assert forall e | e in more :: e in edges;
      SayAlikeBack(says, says', edges);
      if Sound(says, more) {
        SoundAlike(says, says', more);
      }
      if Sound(says', more) {
        SoundAlike(says', says, more);
      }
    }
  }

  lemma SayAlikeBack(says: Says, says': Says, edges: seq<Edge>)
    requires forall e | e in edges :: SayAlikeAt(says, says', e.0) && SayAlikeAt(says, says', e.1)
    ensures forall e | e in edges :: SayAlikeAt(says', says, e.0) && SayAlikeAt(says', says, e.1)
  {
  }

  /** A key nobody shows saying two things says the same in any order of scans. */
  lemma ClearSays(scans: seq<PreScan>, raw: map<Key, Observation>, raw': map<Key, Observation>, k: Key)
    requires Gathered(scans, raw) && AllAlike(raw, raw') && !Ambiguous(scans, k)
    ensures SayAlikeAt(SaysIn(raw), SaysIn(raw'), k)
  {
    hide Gathered, Ambiguous;
    if k in raw {
      AlikeShapes(raw[k], raw'[k]);
      if raw[k].shapes != [] {
        ClearShapes(scans, raw, k, raw[k].shapes[0], raw'[k].shapes[0]);
      }
    }
  }

  lemma AlikeShapes(o: Observation, o': Observation)
    requires Alike(o, o')
    ensures o.shapes == [] <==> o'.shapes == []
    ensures o.shapes != [] ==> o.shapes[0] in o.shapes && o'.shapes[0] in o.shapes
  {
    if o.shapes != [] {
      assert o.shapes[0] in o'.shapes;
    }
    if o'.shapes != [] {
      assert o'.shapes[0] in o.shapes;
    }
  }

  lemma ClearShapes(scans: seq<PreScan>, raw: map<Key, Observation>, k: Key, a: Shape, b: Shape)
    requires Gathered(scans, raw) && !Ambiguous(scans, k) && k in raw && a in raw[k].shapes && b in raw[k].shapes
    ensures a.facts == b.facts
  {
    hide LeastFlow;
    var o :| o in Parts(scans, k) && a in o.shapes;
    var o' :| o' in Parts(scans, k) && b in o'.shapes;
    var s :| s in scans && k in s.sources && s.sources[k] == o;
    var s' :| s' in scans && k in s'.sources && s'.sources[k] == o';
  }

  lemma ClearKept(scans: seq<PreScan>, scans': seq<PreScan>, w: Work, w': Work)
    requires SameScans(scans, scans') && Quotiented(scans, w) && Quotiented(scans', w') && ClearCopies(scans)
    ensures w.kept == w'.kept
  {
    hide Gathered, Classed, IsQuotient, Greedy, SameScans, AllAlike, PlanKeys, Repositioned, Covers, Ambiguous,
      AllAliases, SayAlikeAt, SaysIn;
    GatheredAlike(scans, scans', w.raw, w'.raw);
    AliasesSame(scans, scans');
    var edges := SortedPairs(AllAliases(scans));
    forall e | e in edges
      ensures SayAlikeAt(SaysIn(w.raw), SaysIn(w'.raw), e.0) && SayAlikeAt(SaysIn(w.raw), SaysIn(w'.raw), e.1)
    {
      ClearSays(scans, w.raw, w'.raw, e.0);
      ClearSays(scans, w.raw, w'.raw, e.1);
    }
    GreedyAlike(SaysIn(w.raw), SaysIn(w'.raw), edges);
  }

  /** Unless a fork copy or its origin is shown saying two things, planning the
      same scans in any order, with any repetitions, has the same outcome. */
  lemma OrderIsImmaterial(scans: seq<PreScan>, scans': seq<PreScan>, w: Work, w': Work,
                          r: Result<Plan, PlanError>, r': Result<Plan, PlanError>)
    requires SameScans(scans, scans') && ClearCopies(scans) && Comes(scans, w, r) && Comes(scans', w', r')
    ensures r == r'
  {
    hide Quotiented, Ran, Clashes, SameScans, Telemetric, Looped, HasContraction, Acyclic, ClearCopies;
    ClearKept(scans, scans', w, w');
    SameKeptSameOutcome(scans, scans', w, w', r, r');
  }

  /** In the terms of the planner alone: one set of scans, one outcome. */
  lemma OneOutcome(scans: seq<PreScan>, scans': seq<PreScan>, r: Result<Plan, PlanError>, r': Result<Plan, PlanError>)
    requires SameScans(scans, scans') && ClearCopies(scans) && Outcome(scans, r) && Outcome(scans', r')
    ensures r == r'
  {
    hide Comes, SameScans, ClearCopies;
    var w :| Comes(scans, w, r);
    var w' :| Comes(scans', w', r');
    OrderIsImmaterial(scans, scans', w, w', r, r');
  }
}
