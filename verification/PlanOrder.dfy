/** Planning sees its scans as a set: their order and their repetitions can only
    matter through the alias edges they let it keep. */
module PlanOrder {
  import opened Base
  import opened Nodes
  import opened Graphs
  import opened Connectivity
  import opened Placements
  import opened PlacementRuns
  import opened PlacementFacts
  import opened Observations
  import opened Aliases
  import opened Quotients
  import opened Frontiers
  import opened TopoOrders
  import opened Plans

  ghost predicate SameScans(scans: seq<PreScan>, scans': seq<PreScan>) {
    forall s :: s in scans <==> s in scans'
  }

  /** The same keys, each observed alike. */
  ghost predicate AllAlike(m: map<Key, Observation>, m': map<Key, Observation>) {
    m.Keys == m'.Keys && forall k | k in m :: Alike(m[k], m'[k])
  }

  // ------------------------------------------------------------ adding up

  lemma PartsSame(scans: seq<PreScan>, scans': seq<PreScan>, k: Key)
    requires SameScans(scans, scans')
    ensures Parts(scans, k) == Parts(scans', k) && (Seen(scans, k) <==> Seen(scans', k))
  {
    forall o ensures o in Parts(scans, k) <==> o in Parts(scans', k) {
      if o in Parts(scans, k) {
        var s :| s in scans && k in s.sources && s.sources[k] == o;
        assert s in scans';
      }
      if o in Parts(scans', k) {
        var s :| s in scans' && k in s.sources && s.sources[k] == o;
        assert s in scans;
      }
    }
  }

  lemma GatheredAlike(scans: seq<PreScan>, scans': seq<PreScan>, raw: map<Key, Observation>,
                      raw': map<Key, Observation>)
    requires SameScans(scans, scans') && Gathered(scans, raw) && Gathered(scans', raw')
    ensures AllAlike(raw, raw')
  {
    hide Sums, Alike, SameScans, Parts, Seen;
    forall k ensures k in raw <==> k in raw' {
      PartsSame(scans, scans', k);
    }
    forall k | k in raw ensures Alike(raw[k], raw'[k]) {
      PartsSame(scans, scans', k);
      SumsAlike(Parts(scans, k), raw[k], raw'[k]);
    }
  }

  lemma AliasesSame(scans: seq<PreScan>, scans': seq<PreScan>)
    requires SameScans(scans, scans')
    ensures AllAliases(scans) == AllAliases(scans')
  {
    forall e ensures e in AllAliases(scans) <==> e in AllAliases(scans') {
      if e in AllAliases(scans) {
        var s :| s in scans && e in s.aliases;
        assert s in scans';
      }
      if e in AllAliases(scans') {
        var s :| s in scans' && e in s.aliases;
        assert s in scans;
      }
    }
  }

  lemma RepositionedAlike(raw: map<Key, Observation>, raw': map<Key, Observation>, kept: set<Edge>)
    requires AllAlike(raw, raw')
    ensures AllAlike(Repositioned(raw, kept), Repositioned(raw', kept))
  {
  }

  lemma PlanKeysSame(raw: map<Key, Observation>, raw': map<Key, Observation>, kept: set<Edge>)
    requires AllAlike(raw, raw')
    ensures PlanKeys(raw, kept) == PlanKeys(raw', kept)
  {
    PlanKeysLess(raw, raw', kept);
    AlikeBack(raw, raw');
    PlanKeysLess(raw', raw, kept);
  }

  lemma PlanKeysLess(raw: map<Key, Observation>, raw': map<Key, Observation>, kept: set<Edge>)
    requires AllAlike(raw, raw')
    ensures PlanKeys(raw, kept) <= PlanKeys(raw', kept)
  {
    PlanKeysHold(raw', kept);
    forall k | k in raw ensures raw[k].parents <= PlanKeys(raw', kept) {
      assert Alike(raw[k], raw'[k]);
    }
  }

  /** Parts observed alike. */
  ghost predicate EachAlike(parts: set<Observation>, parts': set<Observation>) {
    forall o | o in parts :: exists o' | o' in parts' :: Alike(o, o')
  }

  lemma SumsLess(parts: set<Observation>, parts': set<Observation>, a: Observation, b: Observation)
    requires Sums(parts, a) && Sums(parts', b) && EachAlike(parts, parts')
    ensures a.content ==> b.content
    ensures a.turnDuration ==> b.turnDuration
    ensures a.nonTurnDuration ==> b.nonTurnDuration
    ensures a.parents <= b.parents && a.replayParents <= b.replayParents
    ensures forall s | s in a.shapes :: s in b.shapes
    ensures a.flow.Some? ==> b.flow.Some? && LeFlow(b.flow.value, a.flow.value)
  {
    forall p | p in a.parents ensures p in b.parents {
      var o :| o in parts && p in o.parents;
      var o' :| o' in parts' && Alike(o, o');
    }
    forall p | p in a.replayParents ensures p in b.replayParents {
      var o :| o in parts && p in o.replayParents;
      var o' :| o' in parts' && Alike(o, o');
    }
    forall s | s in a.shapes ensures s in b.shapes {
      var o :| o in parts && s in o.shapes;
      var o' :| o' in parts' && Alike(o, o');
    }
    if a.flow.Some? {
      var o :| o in parts && o.flow == a.flow;
      var o' :| o' in parts' && Alike(o, o');
    }
  }

  lemma SumsEachAlike(parts: set<Observation>, parts': set<Observation>, a: Observation, b: Observation)
    requires Sums(parts, a) && Sums(parts', b) && EachAlike(parts, parts') && EachAlike(parts', parts)
    ensures Alike(a, b)
  {
    hide Sums, EachAlike;
    SumsLess(parts, parts', a, b);
    SumsLess(parts', parts, b, a);
  }

  lemma ClassPartsAlike(raw: map<Key, Observation>, raw': map<Key, Observation>, canonical: map<Key, Key>, c: Key)
    requires AllAlike(raw, raw') && Covers(raw, canonical) && Covers(raw', canonical)
    ensures EachAlike(ClassParts(raw, canonical, c), ClassParts(raw', canonical, c))
  {
    forall o | o in ClassParts(raw, canonical, c)
      ensures exists o' | o' in ClassParts(raw', canonical, c) :: Alike(o, o')
    {
      var k :| k in raw && canonical[k] == c && InClass(raw[k], canonical) == o;
      assert InClass(raw'[k], canonical) in ClassParts(raw', canonical, c);
      assert Alike(o, InClass(raw'[k], canonical));
    }
  }

  lemma AlikeBack(raw: map<Key, Observation>, raw': map<Key, Observation>)
    requires AllAlike(raw, raw')
    ensures AllAlike(raw', raw)
  {
  }

  lemma ClassedAlike(raw: map<Key, Observation>, raw': map<Key, Observation>, canonical: map<Key, Key>,
                     observed: map<Key, Observation>, observed': map<Key, Observation>)
    requires AllAlike(raw, raw') && Covers(raw, canonical) && Covers(raw', canonical)
    requires Classed(raw, canonical, observed) && Classed(raw', canonical, observed')
    ensures AllAlike(observed, observed')
  {
    hide Sums, Alike, Covers, ClassParts, EachAlike;
    forall c ensures c in observed <==> c in observed' {
    }
    forall c | c in observed ensures Alike(observed[c], observed'[c]) {
      AlikeBack(raw, raw');
      ClassPartsAlike(raw, raw', canonical, c);
      ClassPartsAlike(raw', raw, canonical, c);
      SumsEachAlike(ClassParts(raw, canonical, c), ClassParts(raw', canonical, c), observed[c], observed'[c]);
    }
  }

  // ---------------------------------------------------------- kept aliases

  /** What the canonical map joins tells which edges were kept. */
  lemma KeptIffJoined(says: Says, aliases: set<Edge>, keys: set<Key>, canonical: map<Key, Key>, e: Edge)
    requires IsQuotient(keys, Greedy(says, SortedPairs(aliases)), canonical)
    requires forall e | e in Greedy(says, SortedPairs(aliases)) :: e.0 in keys && e.1 in keys
    requires e in aliases
    ensures e in Greedy(says, SortedPairs(aliases)) <==>
            e.0 in canonical && e.1 in canonical && canonical[e.0] == canonical[e.1]
  {
    hide Connected, Greedy, IsLeastOf;
    var kept := Greedy(says, SortedPairs(aliases));
    if e in kept {
      ConnectedTouching(kept, e.0, e.1);
      SameClass(keys, kept, canonical, e.0, e.1);
    } else if e.0 in canonical && e.1 in canonical && canonical[e.0] == canonical[e.1] {
      SameClass(keys, kept, canonical, e.0, e.1);
      DroppedDiffers(says, SortedPairs(aliases), e);
      GreedySound(says, SortedPairs(aliases));
      var x, y :| x in says && y in says && Connected(kept, e.0, x) && Connected(kept, e.1, y) && says[x] != says[y];
      ConnectedSymmetric(kept, e.0, x);
      ConnectedTransitive(kept, x, e.0, e.1);
      ConnectedTransitive(kept, x, e.1, y);
    }
  }

  lemma KeptOf(scans: seq<PreScan>, w: Work, e: Edge)
    requires Quotiented(scans, w) && e in AllAliases(scans)
    ensures e in w.kept <==> e.0 in w.canonical && e.1 in w.canonical && w.canonical[e.0] == w.canonical[e.1]
  {
    hide Gathered, Classed, IsQuotient, Greedy, PlanKeys;
    PlanKeysHold(Repositioned(w.raw, w.kept), w.kept);
    KeptIffJoined(SaysIn(w.raw), AllAliases(scans), PlanKeys(Repositioned(w.raw, w.kept), w.kept), w.canonical, e);
  }

  lemma KeptAmong(scans: seq<PreScan>, w: Work)
    requires Quotiented(scans, w)
    ensures w.kept <= AllAliases(scans)
  {
    hide Gathered, Classed, IsQuotient, Greedy;
    KeptAliases(SaysIn(w.raw), AllAliases(scans));
  }

  /** One canonical map, one set of kept edges. */
  lemma CanonicalKept(scans: seq<PreScan>, scans': seq<PreScan>, w: Work, w': Work)
    requires SameScans(scans, scans') && Quotiented(scans, w) && Quotiented(scans', w')
    requires w.canonical == w'.canonical
    ensures w.kept == w'.kept
  {
    hide Quotiented, SameScans, AllAliases;
    AliasesSame(scans, scans');
    KeptAmong(scans, w);
    KeptAmong(scans', w');
    forall e ensures e in w.kept <==> e in w'.kept {
      if e in AllAliases(scans) {
        KeptOf(scans, w, e);
        KeptOf(scans', w', e);
      }
    }
  }

  /** One set of kept edges, one quotient. */
  lemma KeptQuotient(scans: seq<PreScan>, scans': seq<PreScan>, w: Work, w': Work)
    requires SameScans(scans, scans') && Quotiented(scans, w) && Quotiented(scans', w') && w.kept == w'.kept
    ensures AllAlike(w.raw, w'.raw) && w.canonical == w'.canonical && AllAlike(w.observed, w'.observed)
  {
    hide Gathered, Classed, IsQuotient, Greedy, SameScans, AllAlike, PlanKeys, Repositioned, Covers;
    GatheredAlike(scans, scans', w.raw, w'.raw);
    var (raw, raw') := (Repositioned(w.raw, w.kept), Repositioned(w'.raw, w.kept));
    RepositionedAlike(w.raw, w'.raw, w.kept);
    PlanKeysSame(raw, raw', w.kept);
    QuotientUnique(PlanKeys(raw, w.kept), w.kept, w.canonical, w'.canonical);
    ClassedAlike(raw, raw', w.canonical, w.observed, w'.observed);
  }

  // -------------------------------------------------------------- the stages

  lemma StagesSame(observed: map<Key, Observation>, observed': map<Key, Observation>)
    requires AllAlike(observed, observed')
    ensures Telemetric(observed) <==> Telemetric(observed')
    ensures Semantic(observed) == Semantic(observed')
    ensures Normalize(observed) == Normalize(observed')
  {
    forall k | k in observed ensures Alike(observed[k], observed'[k]) {
    }
    if k :| k in observed && observed[k].content && observed[k].turnDuration {
      assert k in observed';
    }
    forall k ensures k in Semantic(observed) <==> k in Semantic(observed') {
    }
    forall k | k in observed ensures Normalize(observed)[k] == Normalize(observed')[k] {
    }
  }

  lemma ContractionUnique(semantic: set<Key>, normalized: Graph, parents: Graph, parents': Graph)
    requires IsContraction(semantic, normalized, parents) && IsContraction(semantic, normalized, parents')
    ensures parents == parents'
  {
    hide OnFrontier;
    forall k | k in semantic ensures parents[k] == parents'[k] {
      assert ContractedAt(semantic, normalized, k, parents[k]) && ContractedAt(semantic, normalized, k, parents'[k]);
      forall x ensures x in parents[k] <==> x in parents'[k] {
      }
    }
  }

  lemma ParentsSame(w: Work, w': Work)
    requires AllAlike(w.observed, w'.observed)
    ensures Looped(w) <==> Looped(w')
    ensures HasContraction(w) && HasContraction(w') ==> w.parents == w'.parents
  {
    hide AllAlike, IsContraction, LoopedAbove;
    StagesSame(w.observed, w'.observed);
    if HasContraction(w) && HasContraction(w') {
      ContractionUnique(Semantic(w.observed), Normalize(w.observed), w.parents, w'.parents);
    }
  }

  lemma TrailingSame(scans: seq<PreScan>, scans': seq<PreScan>, canonical: map<Key, Key>, parents: Graph)
    requires SameScans(scans, scans') && LinesCovered(scans, canonical) && LinesCovered(scans', canonical)
    ensures Trailing(scans, canonical, parents) == Trailing(scans', canonical, parents)
  {
    hide WroteLast;
    forall c ensures c in Trailing(scans, canonical, parents) <==> c in Trailing(scans', canonical, parents) {
      if c in Trailing(scans, canonical, parents) {
        var s, k :| s in scans && !s.finished && k in s.lastLines && WroteLast(s, canonical, parents, k) &&
            canonical[k] == c;
        assert s in scans';
      }
      if c in Trailing(scans', canonical, parents) {
        var s, k :| s in scans' && !s.finished && k in s.lastLines && WroteLast(s, canonical, parents, k) &&
            canonical[k] == c;
        assert s in scans;
      }
    }
  }

  lemma SettledSame(scans: seq<PreScan>, scans': seq<PreScan>, canonical: map<Key, Key>, parents: Graph)
    requires SameScans(scans, scans') && LinesCovered(scans, canonical) && LinesCovered(scans', canonical)
    ensures Settled(scans, canonical, parents) == Settled(scans', canonical, parents)
  {
  }

  lemma CorporaSame(scans: seq<PreScan>, scans': seq<PreScan>, canonical: map<Key, Key>,
                    observed: map<Key, Observation>, observed': map<Key, Observation>, parents: Graph)
    requires SameScans(scans, scans') && LinesCovered(scans, canonical) && LinesCovered(scans', canonical)
    requires AllAlike(observed, observed') && Observes(observed, parents) && Observes(observed', parents)
    ensures SameButFacts(CorpusOf(scans, canonical, observed, parents), CorpusOf(scans', canonical, observed', parents))
  {
    hide SameScans, LinesCovered, Trailing, Settled;
    TrailingSame(scans, scans', canonical, parents);
    SettledSame(scans, scans', canonical, parents);
    CorpusValid(scans, canonical, observed, parents);
    CorpusValid(scans', canonical, observed', parents);
    assert forall k | k in parents :: Alike(observed[k], observed'[k]);
  }

  // --------------------------------------------------------------- conflicts

  /** A placed class carries two shapes that say different things. */
  ghost predicate Divided(observed: map<Key, Observation>, placed: set<Key>) {
    exists c, s, s' | c in placed && c in observed && s in observed[c].shapes && s' in observed[c].shapes ::
      s.facts != s'.facts
  }

  lemma DividedSame(observed: map<Key, Observation>, observed': map<Key, Observation>, placed: set<Key>)
    requires AllAlike(observed, observed') && Divided(observed, placed)
    ensures Divided(observed', placed)
  {
    var c, s, s' :| c in placed && c in observed && s in observed[c].shapes && s' in observed[c].shapes &&
        s.facts != s'.facts;
    assert Alike(observed[c], observed'[c]);
    assert c in observed' && s in observed'[c].shapes && s' in observed'[c].shapes;
  }

  /** A shape of a class is a shape of one of its keys. */
  lemma ShapeOfKey(scans: seq<PreScan>, w: Work, c: Key, s: Shape) returns (k: Key)
    requires Quotiented(scans, w) && c in w.observed && s in w.observed[c].shapes
    ensures k in w.raw && k in w.canonical && w.canonical[k] == c && s in w.raw[k].shapes
  {
    hide Gathered, IsQuotient, Greedy;
    var raw := Repositioned(w.raw, w.kept);
    var o :| o in ClassParts(raw, w.canonical, c) && s in o.shapes;
    k :| k in raw && w.canonical[k] == c && InClass(raw[k], w.canonical) == o;
  }

  lemma ShapeOfClass(scans: seq<PreScan>, w: Work, k: Key, s: Shape)
    requires Quotiented(scans, w) && k in w.raw && s in w.raw[k].shapes
    ensures k in w.canonical && w.canonical[k] in w.observed && s in w.observed[w.canonical[k]].shapes
  {
    hide Gathered, IsQuotient, Greedy;
    var raw := Repositioned(w.raw, w.kept);
    assert k in raw && raw[k].shapes == w.raw[k].shapes;
    assert InClass(raw[k], w.canonical) in ClassParts(raw, w.canonical, w.canonical[k]);
  }

  /** The chains placed are as long as what their classes say. */
  ghost predicate ChainsFit(w: Work) {
    forall c | c in w.run.placed.nodes ::
      c in w.observed && w.observed[c].shapes != [] && |w.run.placed.nodes[c]| == |w.observed[c].shapes[0].facts|
  }

  lemma RanChainsFit(scans: seq<PreScan>, w: Work)
    requires Ran(scans, w)
    ensures ChainsFit(w)
  {
    hide RunAll, RunsThrough, Trailing, Settled, LeastOrder, Topological, LinesCovered;
    var c := CorpusOf(scans, w.canonical, w.observed, w.parents);
    CorpusValid(scans, w.canonical, w.observed, w.parents);
    var order := LeastOrder(w.parents, {});
    forall k | k in w.run.placed.nodes
      ensures k in w.observed && w.observed[k].shapes != []
              && |w.run.placed.nodes[k]| == |w.observed[k].shapes[0].facts|
    {
      NodesFollowNothingElse(c, order, k, Node({}, 0));
      assert k in w.parents;
    }
  }

  lemma ClashDivides(scans: seq<PreScan>, w: Work, k: Key, s: Shape)
    requires Quotiented(scans, w) && ChainsFit(w) && k in w.raw && k in w.canonical && s in w.raw[k].shapes
    requires var c := w.canonical[k];
             c in w.run.placed.nodes &&
             (s.facts != w.observed[c].shapes[0].facts || |w.run.placed.nodes[c]| != |s.facts|)
    ensures Divided(w.observed, w.run.placed.nodes.Keys)
  {
    hide Quotiented;
    ShapeOfClass(scans, w, k, s);
    var c := w.canonical[k];
    assert w.observed[c].shapes[0] in w.observed[c].shapes;
  }

  lemma DividedClashes(scans: seq<PreScan>, w: Work)
    requires Quotiented(scans, w) && ChainsFit(w) && w.raw.Keys <= w.canonical.Keys
    requires Divided(w.observed, w.run.placed.nodes.Keys)
    ensures Clashes(w)
  {
    hide Quotiented;
    var nodes := w.run.placed.nodes;
    var c, s, s' :| c in nodes.Keys && c in w.observed && s in w.observed[c].shapes && s' in w.observed[c].shapes &&
        s.facts != s'.facts;
    var other := if s.facts != w.observed[c].shapes[0].facts then s else s';
    var k := ShapeOfKey(scans, w, c, other);
    assert k in w.raw && other in w.raw[k].shapes;
  }

  /** The comparison of all copies fails exactly on a divided placed class. */
  lemma ClashesIffDivided(scans: seq<PreScan>, w: Work)
    requires Quotiented(scans, w) && ChainsFit(w) && w.raw.Keys <= w.canonical.Keys
    ensures Clashes(w) <==> Divided(w.observed, w.run.placed.nodes.Keys)
  {
    hide Quotiented, Divided, ChainsFit;
    if Clashes(w) {
      ChainsFitObserved(w);
      var k, s :| k in w.raw && s in w.raw[k].shapes && w.canonical[k] in w.run.placed.nodes &&
        (s.facts != w.observed[w.canonical[k]].shapes[0].facts || |w.run.placed.nodes[w.canonical[k]]| != |s.facts|);
      ClashDivides(scans, w, k, s);
    }
    if Divided(w.observed, w.run.placed.nodes.Keys) {
      DividedClashes(scans, w);
    }
  }

  lemma ChainsFitObserved(w: Work)
    requires ChainsFit(w)
    ensures forall c | c in w.run.placed.nodes :: c in w.observed && w.observed[c].shapes != []
  {
  }

  // ------------------------------------------------------------ main results

  /** Both runs are ready to be compared. */
  lemma RunsSame(scans: seq<PreScan>, scans': seq<PreScan>, w: Work, w': Work)
    requires SameScans(scans, scans') && Ran(scans, w) && Ran(scans', w')
    requires w.canonical == w'.canonical && AllAlike(w.observed, w'.observed) && w.parents == w'.parents
    ensures w.run.held == w'.run.held && w.run.placed.nodes.Keys == w'.run.placed.nodes.Keys
    ensures !Divided(w.observed, w.run.placed.nodes.Keys) ==> w.run == w'.run
  {
    hide RunAll, RunsThrough, LeastOrder, Topological, LinesCovered, SameScans, AllAlike, SameButFacts, Divided;
    var c := CorpusOf(scans, w.canonical, w.observed, w.parents);
    var c' := CorpusOf(scans', w.canonical, w'.observed, w.parents);
    CorporaSame(scans, scans', w.canonical, w.observed, w'.observed, w.parents);
    var order := LeastOrder(w.parents, {});
    PlacedSame(c, c', order);
    if !Divided(w.observed, w.run.placed.nodes.Keys) {
      UndividedSayAlike(scans, scans', w, w', c, c');
      RunAgrees(c, c', EMPTY_RUN, order);
    }
  }

  lemma UndividedSayAlike(scans: seq<PreScan>, scans': seq<PreScan>, w: Work, w': Work, c: Corpus, c': Corpus)
    requires LinesCovered(scans, w.canonical) && Observes(w.observed, w.parents)
    requires LinesCovered(scans', w.canonical) && Observes(w'.observed, w.parents)
    requires c == CorpusOf(scans, w.canonical, w.observed, w.parents)
    requires c' == CorpusOf(scans', w.canonical, w'.observed, w.parents)
    requires AllAlike(w.observed, w'.observed) && !Divided(w.observed, w.run.placed.nodes.Keys)
    ensures SayAlike(c, c', w.run.placed.nodes.Keys)
  {
    hide Trailing, Settled, Divided, LinesCovered, Observes;
    forall k | k in w.run.placed.nodes.Keys && k in c.facts && k in c'.facts ensures c.facts[k] == c'.facts[k] {
      ObservesAt(w.observed, w.parents, k);
      ObservesAt(w'.observed, w.parents, k);
      UndividedAt(w.observed, w'.observed, w.run.placed.nodes.Keys, k);
    }
  }

  lemma ObservesAt(observed: map<Key, Observation>, parents: Graph, k: Key)
    requires Observes(observed, parents) && k in parents
    ensures k in observed && observed[k].shapes != []
  {
  }

  lemma UndividedAt(observed: map<Key, Observation>, observed': map<Key, Observation>, placed: set<Key>, k: Key)
    requires AllAlike(observed, observed') && !Divided(observed, placed)
    requires k in placed && k in observed && observed[k].shapes != [] && observed'[k].shapes != []
    ensures observed[k].shapes[0].facts == observed'[k].shapes[0].facts
  {
    assert Alike(observed[k], observed'[k]);
    assert observed[k].shapes[0] in observed[k].shapes;
    assert observed'[k].shapes[0] in observed[k].shapes;
  }

  lemma ClashesSame(scans: seq<PreScan>, scans': seq<PreScan>, w: Work, w': Work)
    requires Quotiented(scans, w) && Quotiented(scans', w') && Ran(scans, w) && Ran(scans', w')
    requires w.raw.Keys <= w.canonical.Keys && w'.raw.Keys <= w'.canonical.Keys
    requires AllAlike(w.observed, w'.observed) && w.run.placed.nodes.Keys == w'.run.placed.nodes.Keys
    ensures Clashes(w) <==> Clashes(w')
    ensures Clashes(w) <==> Divided(w.observed, w.run.placed.nodes.Keys)
  {
    hide Quotiented, Ran, AllAlike, Divided, Clashes, ChainsFit;
    RanChainsFit(scans, w);
    RanChainsFit(scans', w');
    ClashesIffDivided(scans, w);
    ClashesIffDivided(scans', w');
    AlikeBack(w.observed, w'.observed);
    if Divided(w.observed, w.run.placed.nodes.Keys) {
      DividedSame(w.observed, w'.observed, w.run.placed.nodes.Keys);
    }
    if Divided(w'.observed, w.run.placed.nodes.Keys) {
      DividedSame(w'.observed, w.observed, w.run.placed.nodes.Keys);
    }
  }

  lemma QuotientedRaw(scans: seq<PreScan>, w: Work)
    requires Quotiented(scans, w)
    ensures w.raw.Keys <= w.canonical.Keys
  {
    hide Gathered, Classed, IsQuotient, Greedy;
    RepositionedKeys(w.raw, w.kept, w.canonical);
  }

  lemma RunsOnceSame(scans: seq<PreScan>, scans': seq<PreScan>, w: Work, w': Work)
    requires SameScans(scans, scans') && Quotiented(scans, w) && Quotiented(scans', w') && w.kept == w'.kept
    requires w.parents == w'.parents && Ran(scans, w) && Ran(scans', w')
    ensures Clashes(w) <==> Clashes(w')
    ensures !Clashes(w) ==> w.run == w'.run
  {
    hide Quotiented, Ran, AllAlike, Divided, Clashes, SameScans;
    KeptQuotient(scans, scans', w, w');
    QuotientedRaw(scans, w);
    QuotientedRaw(scans', w');
    RunsSame(scans, scans', w, w');
    ClashesSame(scans, scans', w, w');
  }

  /** The same scans and the same kept copies give the same outcome: the same
      error, or the same plan in every part. */
  lemma SameKeptSameOutcome(scans: seq<PreScan>, scans': seq<PreScan>, w: Work, w': Work,
                            r: Result<Plan, PlanError>, r': Result<Plan, PlanError>)
    requires SameScans(scans, scans') && Comes(scans, w, r) && Comes(scans', w', r') && w.kept == w'.kept
    ensures r == r'
  {
    hide Quotiented, Ran, AllAlike, Clashes, SameScans, Telemetric, Looped, HasContraction, Acyclic;
    KeptQuotient(scans, scans', w, w');
    StagesSame(w.observed, w'.observed);
    ParentsSame(w, w');
    if HasContraction(w) && HasContraction(w') && Ran(scans, w) && Ran(scans', w') {
      RunsOnceSame(scans, scans', w, w');
    }
  }

  /** The aliases kept when the scans are added up in this order. */
  ghost function KeptBy(scans: seq<PreScan>): set<Edge> {
    Greedy(SaysIn(AddScans(scans)), SortedPairs(AllAliases(scans)))
  }

  lemma KeptIsKeptBy(scans: seq<PreScan>, w: Work)
    requires Quotiented(scans, w)
    ensures w.kept == KeptBy(scans)
  {
    hide AddScans, Greedy, SaysIn, AllAliases, IsQuotient, Classed;
  }

  /** Where planning succeeds in one order of the scans, it comes to the same in
      another, with any repetitions, exactly where both keep the same aliases. */
  lemma OrderMattersOnlyThroughAliases(scans: seq<PreScan>, scans': seq<PreScan>, p: Plan, r': Result<Plan, PlanError>)
    requires SameScans(scans, scans') && Outcome(scans, Ok(p)) && Outcome(scans', r')
    ensures r' == Ok(p) <==> KeptBy(scans) == KeptBy(scans')
  {
    hide Quotiented, Ran, AllAlike, Clashes, SameScans, Telemetric, Looped, HasContraction, Acyclic, KeptBy;
    var w :| Comes(scans, w, Ok(p));
    var w' :| Comes(scans', w', r');
    KeptIsKeptBy(scans, w);
    KeptIsKeptBy(scans', w');
    if w.kept == w'.kept {
      SameKeptSameOutcome(scans, scans', w, w', Ok(p), r');
    }
    if r' == Ok(p) {
      CanonicalKept(scans, scans', w, w');
    }
  }

  // ------------------------------------------------------------- which error

  /** The classes, with what is observed of them, once the scans are added up in
      this order and their copies are joined. */
  ghost predicate ClassesBy(scans: seq<PreScan>, observed: map<Key, Observation>) {
    exists w :: Quotiented(scans, w) && w.observed == observed
  }

  /** A class with content descends from itself, contentless records included. */
  ghost predicate Cyclic(observed: map<Key, Observation>) {
    exists k | k in Semantic(observed) :: Ancestor(Normalize(observed), k, k)
  }

  ghost predicate ContentlessCycle(observed: map<Key, Observation>) {
    exists k | k in Semantic(observed) :: LoopedAbove(Semantic(observed), Normalize(observed), k)
  }

  /** What is first wrong with these classes, if anything is. */
  ghost function FaultOf(observed: map<Key, Observation>): PlanError {
    if Telemetric(observed) then Telemetry
    else if ContentlessCycle(observed) then TransparentCycle
    else if Cyclic(observed) then SemanticCycle
    else Conflict
  }

  lemma CyclicIffContracted(w: Work)
    requires HasContraction(w)
    ensures Cyclic(w.observed) <==> !Acyclic(w.parents)
  {
    hide IsContraction, Ancestor;
    var semantic, normalized := Semantic(w.observed), Normalize(w.observed);
    ContractionKeys(semantic, normalized, w.parents);
    forall k | k in semantic ensures Ancestor(w.parents, k, k) <==> Ancestor(normalized, k, k) {
      ContractionKeepsAncestry(semantic, normalized, w.parents, k, k);
    }
  }

  lemma ContractionKeys(semantic: set<Key>, normalized: Graph, parents: Graph)
    requires IsContraction(semantic, normalized, parents)
    ensures parents.Keys == semantic
  {
    hide ContractedAt;
  }

  lemma FaultOfWork(scans: seq<PreScan>, w: Work, e: PlanError)
    requires Comes(scans, w, Err(e))
    ensures e == FaultOf(w.observed)
  {
    hide Quotiented, Ran, Clashes, Telemetric, LoopedAbove, HasContraction, Acyclic, Cyclic, Semantic, Normalize;
    if HasContraction(w) {
      CyclicIffContracted(w);
    }
  }

  lemma FaultAlike(observed: map<Key, Observation>, observed': map<Key, Observation>)
    requires AllAlike(observed, observed')
    ensures FaultOf(observed) == FaultOf(observed')
  {
    hide AllAlike, Telemetric, Semantic, Normalize, LoopedAbove, Ancestor;
    StagesSame(observed, observed');
  }

  /** A failed planning reports what is first wrong with the scans' classes. */
  lemma ErrorIsFirstFault(scans: seq<PreScan>, e: PlanError, observed: map<Key, Observation>)
    requires Outcome(scans, Err(e)) && ClassesBy(scans, observed)
    ensures e == FaultOf(observed)
  {
    hide Quotiented, AllAlike, FaultOf, SameScans, KeptBy, Ran, Clashes, Telemetric, Looped, HasContraction, Acyclic;
    var w :| Comes(scans, w, Err(e));
    var w' :| Quotiented(scans, w') && w'.observed == observed;
    FaultOfWork(scans, w, e);
    KeptIsKeptBy(scans, w);
    KeptIsKeptBy(scans, w');
    assert SameScans(scans, scans) by {
      SameScansSelf(scans);
    }
    KeptQuotient(scans, scans, w, w');
    FaultAlike(w.observed, observed);
  }

  lemma SameScansSelf(scans: seq<PreScan>)
    ensures SameScans(scans, scans)
  {
  }

  /** Where planning fails in two orders of the scans, the errors are one exactly
      where the same is first wrong with the classes of both; and where both keep
      the same aliases it is. */
  lemma TwoFailures(scans: seq<PreScan>, scans': seq<PreScan>, e: PlanError, e': PlanError,
                    observed: map<Key, Observation>, observed': map<Key, Observation>)
    requires SameScans(scans, scans') && Outcome(scans, Err(e)) && Outcome(scans', Err(e'))
    requires ClassesBy(scans, observed) && ClassesBy(scans', observed')
    ensures e == e' <==> FaultOf(observed) == FaultOf(observed')
    ensures KeptBy(scans) == KeptBy(scans') ==> e == e'
  {
    hide Outcome, FaultOf, AllAlike, SameScans, KeptBy, Quotiented;
    ErrorIsFirstFault(scans, e, observed);
    ErrorIsFirstFault(scans', e', observed');
    if KeptBy(scans) == KeptBy(scans') {
      var w :| Quotiented(scans, w) && w.observed == observed;
      var w' :| Quotiented(scans', w') && w'.observed == observed';
      KeptIsKeptBy(scans, w);
      KeptIsKeptBy(scans', w');
      KeptQuotient(scans, scans', w, w');
      FaultAlike(observed, observed');
    }
  }
}
