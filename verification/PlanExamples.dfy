/** Three files for which the order of the scans decides whether planning
    succeeds. Two files of one session log the same result differently inside an
    unfinished message; the third is a fork that replays the first. Where the
    fork's result agrees with the version met first, it joins its origin, and the
    joined class is held back without its versions ever being compared; otherwise
    it is a record of its own, the history forks, and the comparison fails. */
module PlanExamples {
  import opened Base
  import opened Nodes
  import opened Graphs
  import opened Connectivity
  import opened Placements
  import opened MessageRuns
  import opened PlacementRuns
  import opened Observations
  import opened Aliases
  import opened Quotients
  import opened Frontiers
  import opened TopoOrders
  import opened Plans
  import opened PlanOrder
  import opened PlanResults
  import opened PreScans

  const CALL := Key(0, 0)
  const RESULT := Key(0, 1)
  const CALL_COPY := Key(1, 0)
  const RESULT_COPY := Key(1, 1)
  const KEYS := {CALL, RESULT, CALL_COPY, RESULT_COPY}

  // ---------------------------------------------------------------- the files

  /** A session that calls a tool and logs its result, saying `fact`. */
  function Session(fact: Fact): seq<Line> {
    [Row(Record(Some(CALL), None, None, false, Shape([1], 0), Assistant(Some(0)))),
     Row(Record(Some(RESULT), Some(CALL), None, false, Shape([fact], 0), Harness))]
  }

  /** A fork that replays the session whose result says 2. */
  function Forked(): seq<Line> {
    [Row(Record(Some(CALL_COPY), None, Some(CALL), false, Shape([1], 0), Assistant(Some(0)))),
     Row(Record(Some(RESULT_COPY), Some(CALL_COPY), Some(RESULT), false, Shape([2], 0), Harness))]
  }

  const CALLED := Observation(true, false, true, {}, {}, [Shape([1], 0)], Some(Act(0)))
  const COPIED := Observation(true, false, true, {}, {CALL_COPY}, [Shape([2], 0)], Some(Inside))

  function Answered(fact: Fact): Observation {
    Observation(true, false, true, {CALL}, {}, [Shape([fact], 0)], Some(Inside))
  }

  const CALL_LINK: Edge := (CALL_COPY, CALL)
  const RESULT_LINK: Edge := (RESULT_COPY, RESULT)
  const LINKS := {CALL_LINK, RESULT_LINK}

  function Scan(fact: Fact): PreScan {
    PreScan(map[CALL := CALLED, RESULT := Answered(fact)], {}, false, map[], map[CALL := 1, RESULT := 2])
  }

  const FIRST := Scan(2)
  const SECOND := Scan(3)
  const FORK := PreScan(map[CALL_COPY := CALLED, RESULT_COPY := COPIED], LINKS, false, map[],
                        map[CALL_COPY := 1, RESULT_COPY := 2])

  /** Reading these lines succeeds and gives this scan. */
  ghost predicate Reads(names: Naming, lines: seq<Line>, scan: PreScan) {
    Readable(lines, |lines|) && !MixesTelemetry(names, lines, |lines|) && Scanned(names, lines, |lines|, scan)
  }

  /** The scan of two lines that are the only ones of their keys. */
  function TwoLines(names: Naming, a: Record, b: Record): PreScan
    requires a.key.Some? && b.key.Some?
  {
    var none := PreScan(map[], {}, false, map[], map[]);
    Observed(names, Observed(names, none, a, a.key.value, 0, map[]), b, b.key.value, 1, map[a.key.value := a.key.value])
  }

  lemma TwoLinesScanned(names: Naming, a: Record, b: Record)
    requires a.key.Some? && b.key.Some? && a.key != b.key && Content(a).Some? && Content(b).Some?
    requires !a.turnDuration && !b.turnDuration
    ensures Reads(names, [Row(a), Row(b)], TwoLines(names, a, b))
  {
    hide Scanned, KnownVersions, KnownCurrent, Observed;
    var lines := [Row(a), Row(b)];
    var none := PreScan(map[], {}, false, map[], map[]);
    NothingRead(names, lines, false);
    OwnKeys(names, lines);
    ObservedNext(names, lines, 0, none, map[]);
    CurrentNext(names, lines, 0, map[]);
    var one := Observed(names, none, a, a.key.value, 0, map[]);
    var current: map<Key, Key> := map[a.key.value := a.key.value];
    assert map[][a.key.value := a.key.value] == current;
    ObservedNext(names, lines, 1, one, current);
  }

  /** Different keys, each met once: every line has its own. */
  lemma OwnKeys(names: Naming, lines: seq<Line>)
    requires |lines| == 2 && Speaks(lines[0]) && Speaks(lines[1]) && RawKey(lines[0]) != RawKey(lines[1])
    ensures KeyAt(names, lines, 0) == RawKey(lines[0]) && KeyAt(names, lines, 1) == RawKey(lines[1])
  {
    assert FirstSaid(lines, 0, RawKey(lines[0])).None?;
    assert FirstSaid(lines, 0, RawKey(lines[1])).None?;
    assert FirstSaid(lines, 1, RawKey(lines[1])).None?;
  }

  /** Each of the three scans is what reading its file gives. */
  lemma FilesScan(names: Naming)
    ensures Reads(names, Session(2), FIRST) && Reads(names, Session(3), SECOND) && Reads(names, Forked(), FORK)
  {
    hide Reads, TwoLines;
    forall fact: Fact ensures Reads(names, Session(fact), Scan(fact)) {
      TwoLinesScanned(names, Session(fact)[0].record, Session(fact)[1].record);
      SessionScan(names, fact);
    }
    TwoLinesScanned(names, Forked()[0].record, Forked()[1].record);
    ForkScan(names);
  }

  lemma AddFirst(o: Observation)
    requires |o.shapes| == 1
    ensures Add(UNSEEN, o) == o
  {
    assert AddShapes([], o.shapes) == o.shapes;
  }

  lemma SessionScan(names: Naming, fact: Fact)
    ensures TwoLines(names, Session(fact)[0].record, Session(fact)[1].record) == Scan(fact)
  {
    hide Add;
    AddFirst(CALLED);
    AddFirst(Answered(fact));
  }

  lemma ForkScan(names: Naming)
    ensures TwoLines(names, Forked()[0].record, Forked()[1].record) == FORK
  {
    hide Add;
    AddFirst(CALLED);
    AddFirst(COPIED);
  }

  // ------------------------------------------------- what holds in both orders

  /** The result with its shapes in the order met. */
  function ShownTwice(first: Fact, second: Fact): Observation {
    Observation(true, false, true, {CALL}, {}, [Shape([first], 0), Shape([second], 0)], Some(Inside))
  }

  function Raw(first: Fact, second: Fact): map<Key, Observation> {
    map[CALL := CALLED, RESULT := ShownTwice(first, second), CALL_COPY := CALLED, RESULT_COPY := COPIED]
  }

  lemma AddAgain(first: Fact, second: Fact)
    requires first != second
    ensures Add(CALLED, CALLED) == CALLED
    ensures Add(Answered(first), Answered(second)) == ShownTwice(first, second)
  {
    assert AddShapes([Shape([1], 0)], [Shape([1], 0)]) == [Shape([1], 0)];
    assert [Shape([second], 0)][1..] == [];
    assert AddShapes([Shape([first], 0)], [Shape([second], 0)]) == [Shape([first], 0), Shape([second], 0)];
  }

  lemma AddTwo(first: Fact, second: Fact)
    requires first != second
    ensures AddScan(AddScan(map[], Scan(first)), Scan(second)) ==
            map[CALL := CALLED, RESULT := ShownTwice(first, second)]
  {
    hide Add;
    AddFirst(CALLED);
    AddFirst(Answered(first));
    AddAgain(first, second);
    assert AddScan(map[], Scan(first)) == Scan(first).sources;
  }

  lemma AddFork(first: Fact, second: Fact)
    ensures AddScan(map[CALL := CALLED, RESULT := ShownTwice(first, second)], FORK) == Raw(first, second)
  {
    hide Add;
    AddFirst(CALLED);
    AddFirst(COPIED);
  }

  function Scans(first: Fact, second: Fact): seq<PreScan> {
    [Scan(first), Scan(second), FORK]
  }

  lemma AddsUp(first: Fact, second: Fact)
    requires first != second
    ensures AddScans(Scans(first, second)) == Raw(first, second)
  {
    hide AddScan, AddScans;
    var (s, s') := (Scan(first), Scan(second));
    AddScansNext([], s);
    AddScansNext([s], s');
    AddScansNext([s, s'], FORK);
    assert [] + [s] == [s] && [s] + [s'] == [s, s'] && [s, s'] + [FORK] == [s, s', FORK];
    AddTwo(first, second);
    AddFork(first, second);
    NoScans();
  }

  lemma NoScans()
    ensures AddScans([]) == map[]
  {
  }

  lemma ForkAliases(first: Fact, second: Fact)
    ensures AllAliases(Scans(first, second)) == LINKS
  {
    var scans := Scans(first, second);
    assert scans[2] == FORK;
    assert FORK in scans;
    forall e ensures e in AllAliases(scans) <==> e in LINKS {
    }
  }

  // ------------------------------------------------------ which copies are kept

  /** The edges join keys of one uuid only. */
  lemma {:induction false} OneUuid(edges: set<Edge>, n: nat, x: Key, y: Key)
    requires edges <= LINKS && Walk(edges, n, x, y)
    ensures x.uuid == y.uuid
  {
    if n > 0 {
      var m :| Walk(edges, n - 1, x, m) && Touching(edges, m, y);
      OneUuid(edges, n - 1, x, m);
    }
  }

  lemma OneUuidConnected(edges: set<Edge>, x: Key, y: Key)
    requires edges <= LINKS && Connected(edges, x, y)
    ensures x.uuid == y.uuid
  {
    var n: nat :| Walk(edges, n, x, y);
    OneUuid(edges, n, x, y);
  }

  /** The fork's result is kept exactly where it says what was met first. */
  lemma KeptHere(first: Fact, second: Fact)
    ensures Greedy(SaysIn(Raw(first, second)), SortedPairs(LINKS)) == if first == 2 then LINKS else {CALL_LINK}
  {
    hide Connected, Greedy;
    var says := SaysIn(Raw(first, second));
    var edges := SortedPairs(LINKS);
    var kept := Greedy(says, edges);
    GreedySound(says, edges);
    assert says.Keys == KEYS;
    if RESULT_LINK in kept {
      ConnectedTouching(kept, RESULT_COPY, RESULT);
      assert says[RESULT_COPY] == says[RESULT];
    }
    forall e | e in edges && e !in kept ensures e.0.uuid == 1 && first != 2 {
      DroppedDiffers(says, edges, e);
      var x, y :| x in says && y in says && Connected(kept, e.0, x) && Connected(kept, e.1, y) && says[x] != says[y];
      OneUuidConnected(kept, e.0, x);
      OneUuidConnected(kept, e.1, y);
    }
    assert CALL_LINK in edges && RESULT_LINK in edges;
  }

  lemma OnlyRecord(o: Observation, sum: Observation)
    requires Sums({o}, sum)
    ensures Alike(sum, o)
  {
    SumsAlike({o}, sum, o);
  }

  /** A class as planning sees it, whatever the order of its shapes. */
  ghost predicate Stands(observed: map<Key, Observation>, k: Key, parents: set<Key>, flow: Flow) {
    k in observed && var o := observed[k];
      o.content && !o.turnDuration && o.parents == parents && o.flow == Some(flow)
  }

  lemma QuotientedRawIs(w: Work, first: Fact, second: Fact)
    requires Quotiented(Scans(first, second), w) && first != second
    ensures w.raw == Raw(first, second) && w.kept == if first == 2 then LINKS else {CALL_LINK}
  {
    hide Classed, IsQuotient, Greedy, PlanKeys, Covers, Repositioned, Raw, AllAliases, SaysIn, AddScans;
    AddsUp(first, second);
    ForkAliases(first, second);
    KeptHere(first, second);
  }

  /** A key linked to a lesser one of its uuid stands under that, any other under itself. */
  lemma CanonicalHere(edges: set<Edge>, canonical: map<Key, Key>, k: Key)
    requires edges <= LINKS && IsQuotient(KEYS, edges, canonical) && k in KEYS
    ensures canonical[k].uuid == k.uuid && canonical[k] in KEYS && Le(canonical[k], k)
    ensures (k, Key(0, k.uuid)) in edges ==> canonical[k] == Key(0, k.uuid)
    ensures canonical[k] != k ==> exists e | e in edges :: e.0 == k || e.1 == k
  {
    hide IsLeastOf;
    LeastHere(edges, k, canonical[k]);
    LinkedHere(edges, k, canonical[k]);
  }

  lemma LeastHere(edges: set<Edge>, k: Key, least: Key)
    requires edges <= LINKS && IsLeastOf(KEYS, edges, k, least) && k in KEYS
    ensures least.uuid == k.uuid && least in KEYS && Le(least, k)
    ensures least != k ==> exists e | e in edges :: e.0 == k || e.1 == k
  {
    hide Connected;
    OneUuidConnected(edges, k, least);
    ConnectedSelf(edges, k);
    if least != k {
      ConnectedSymmetric(edges, k, least);
      ConnectedTouches(edges, least, k);
    }
  }

  lemma LinkedHere(edges: set<Edge>, k: Key, least: Key)
    requires edges <= LINKS && IsLeastOf(KEYS, edges, k, least) && k in KEYS
    ensures (k, Key(0, k.uuid)) in edges ==> least == Key(0, k.uuid)
  {
    hide Connected;
    var origin := Key(0, k.uuid);
    if (k, origin) in edges {
      OneUuidConnected(edges, k, least);
      ConnectedTouching(edges, k, origin);
      assert origin in KEYS && Le(least, origin);
    }
  }

  // -------------------------------------------- the fork's result joins its origin

  const JOINED: map<Key, Key> := map[CALL := CALL, RESULT := RESULT, CALL_COPY := CALL, RESULT_COPY := RESULT]

  lemma JoinedCanonical(canonical: map<Key, Key>)
    requires IsQuotient(KEYS, LINKS, canonical)
    ensures canonical == JOINED
  {
    hide IsLeastOf;
    forall k | k in KEYS ensures canonical[k] == JOINED[k] {
      CanonicalHere(LINKS, canonical, k);
    }
  }

  lemma JoinedKeys()
    ensures var raw := Repositioned(Raw(2, 3), LINKS);
            raw == Raw(2, 3) && PlanKeys(raw, LINKS) == KEYS
  {
    var raw := Repositioned(Raw(2, 3), LINKS);
    assert CALL_LINK in LINKS && RESULT_LINK in LINKS;
    assert raw[CALL] == CALLED && raw[RESULT] == ShownTwice(2, 3);
    assert raw[CALL_COPY] == CALLED && raw[RESULT_COPY] == COPIED;
  }

  lemma InJoined()
    ensures InClass(CALLED, JOINED) == CALLED && InClass(ShownTwice(2, 3), JOINED) == ShownTwice(2, 3)
    ensures InClass(COPIED, JOINED) == COPIED.(replayParents := {})
  {
    assert forall o: Observation | o.parents <= {CALL} :: InClass(o, JOINED).parents == o.parents;
  }

  lemma JoinedClasses(observed: map<Key, Observation>)
    requires Covers(Raw(2, 3), JOINED) && Classed(Raw(2, 3), JOINED, observed)
    ensures observed.Keys == {CALL, RESULT}
    ensures Stands(observed, CALL, {}, Act(0)) && Stands(observed, RESULT, {CALL}, Inside)
    ensures forall s | s in observed[CALL].shapes :: s.facts == [1]
  {
    hide Sums;
    var raw := Raw(2, 3);
    assert JOINED[CALL] == CALL && JOINED[RESULT] == RESULT && JOINED[CALL_COPY] == CALL &&
        JOINED[RESULT_COPY] == RESULT;
    assert forall c :: c in observed <==> c in {CALL, RESULT};
    InJoined();
    assert ClassParts(raw, JOINED, CALL) == {CALLED};
    OnlyRecord(CALLED, observed[CALL]);
    var (a, b) := (ShownTwice(2, 3), COPIED.(replayParents := {}));
    assert ClassParts(raw, JOINED, RESULT) == {a, b};
    JoinedSum(a, b, observed[RESULT]);
  }

  lemma JoinedSum(a: Observation, b: Observation, sum: Observation)
    requires a == ShownTwice(2, 3) && b == COPIED.(replayParents := {}) && Sums({a, b}, sum)
    ensures sum.content && !sum.turnDuration && sum.parents == {CALL} && sum.flow == Some(Inside)
  {
    assert a in {a, b};
    assert CALL in sum.parents;
  }

  lemma JoinedQuotient(w: Work)
    requires Quotiented(Scans(2, 3), w)
    ensures w.canonical == JOINED && w.observed.Keys == {CALL, RESULT}
    ensures Stands(w.observed, CALL, {}, Act(0)) && Stands(w.observed, RESULT, {CALL}, Inside)
    ensures forall s | s in w.observed[CALL].shapes :: s.facts == [1]
  {
    hide Classed, IsQuotient, Greedy, PlanKeys, Covers, Repositioned, Raw, AllAliases, SaysIn, AddScans;
    QuotientedRawIs(w, 2, 3);
    JoinedKeys();
    JoinedCanonical(w.canonical);
    JoinedClasses(w.observed);
  }

  // ----------------------------- the fork's result is a record of its own

  const APART: map<Key, Key> := map[CALL := CALL, RESULT := RESULT, CALL_COPY := CALL, RESULT_COPY := RESULT_COPY]

  const MOVED := COPIED.(parents := {CALL_COPY})

  function Replayed(): map<Key, Observation> {
    map[CALL := CALLED, RESULT := ShownTwice(3, 2), CALL_COPY := CALLED, RESULT_COPY := MOVED]
  }

  lemma ApartCanonical(canonical: map<Key, Key>)
    requires IsQuotient(KEYS, {CALL_LINK}, canonical)
    ensures canonical == APART
  {
    hide IsLeastOf;
    forall k | k in KEYS ensures canonical[k] == APART[k] {
      CanonicalHere({CALL_LINK}, canonical, k);
    }
  }

  lemma ApartKeys()
    ensures Repositioned(Raw(3, 2), {CALL_LINK}) == Replayed() && PlanKeys(Replayed(), {CALL_LINK}) == KEYS
  {
    var raw := Repositioned(Raw(3, 2), {CALL_LINK});
    assert CALL_LINK in {CALL_LINK};
    assert raw[CALL] == CALLED && raw[RESULT] == ShownTwice(3, 2);
    assert raw[CALL_COPY] == CALLED && raw[RESULT_COPY] == MOVED;
  }

  lemma InApart()
    ensures InClass(CALLED, APART) == CALLED && InClass(ShownTwice(3, 2), APART) == ShownTwice(3, 2)
    ensures InClass(MOVED, APART) == COPIED.(parents := {CALL}, replayParents := {})
  {
    assert forall o: Observation | o.parents <= {CALL} :: InClass(o, APART).parents == o.parents;
    assert APART[CALL_COPY] == CALL;
    assert InClass(MOVED, APART).parents == {CALL};
  }

  lemma ApartClasses(observed: map<Key, Observation>)
    requires Covers(Replayed(), APART) && Classed(Replayed(), APART, observed)
    ensures observed.Keys == {CALL, RESULT, RESULT_COPY}
    ensures Stands(observed, CALL, {}, Act(0)) && Stands(observed, RESULT, {CALL}, Inside)
    ensures Stands(observed, RESULT_COPY, {CALL}, Inside)
    ensures Shape([2], 0) in observed[RESULT].shapes && Shape([3], 0) in observed[RESULT].shapes
  {
    hide Sums;
    var raw := Replayed();
    assert APART[CALL] == CALL && APART[RESULT] == RESULT && APART[CALL_COPY] == CALL &&
        APART[RESULT_COPY] == RESULT_COPY;
    assert forall c :: c in observed <==> c in {CALL, RESULT, RESULT_COPY};
    InApart();
    assert ClassParts(raw, APART, CALL) == {CALLED};
    OnlyRecord(CALLED, observed[CALL]);
    assert ClassParts(raw, APART, RESULT) == {ShownTwice(3, 2)};
    OnlyRecord(ShownTwice(3, 2), observed[RESULT]);
    assert ShownTwice(3, 2).shapes[0] == Shape([3], 0) && ShownTwice(3, 2).shapes[1] == Shape([2], 0);
    var own := COPIED.(parents := {CALL}, replayParents := {});
    assert ClassParts(raw, APART, RESULT_COPY) == {own};
    OnlyRecord(own, observed[RESULT_COPY]);
  }

  lemma ApartQuotient(w: Work)
    requires Quotiented(Scans(3, 2), w)
    ensures w.canonical == APART && w.observed.Keys == {CALL, RESULT, RESULT_COPY}
    ensures Stands(w.observed, CALL, {}, Act(0)) && Stands(w.observed, RESULT, {CALL}, Inside)
    ensures Stands(w.observed, RESULT_COPY, {CALL}, Inside)
    ensures Shape([2], 0) in w.observed[RESULT].shapes && Shape([3], 0) in w.observed[RESULT].shapes
  {
    hide Classed, IsQuotient, Greedy, PlanKeys, Covers, Repositioned, Raw, Replayed, AllAliases, SaysIn, AddScans;
    QuotientedRawIs(w, 3, 2);
    ApartKeys();
    ApartCanonical(w.canonical);
    ApartClasses(w.observed);
  }

  // ----------------------------------------------------------- the outcomes

  /** Where every class has content and none is telemetry, contraction does nothing. */
  lemma NothingContracted(w: Work)
    requires forall k | k in w.observed :: w.observed[k].content && !w.observed[k].turnDuration
    ensures !Telemetric(w.observed) && !Looped(w)
    ensures HasContraction(w) ==>
              w.parents.Keys == w.observed.Keys && forall k | k in w.observed :: w.parents[k] == w.observed[k].parents
  {
    hide OnFrontier;
    var semantic, normalized := Semantic(w.observed), Normalize(w.observed);
    assert forall k :: k in semantic <==> k in w.observed;
    if HasContraction(w) {
      forall k | k in w.observed ensures w.parents[k] == w.observed[k].parents {
        assert ContractedAt(semantic, normalized, k, w.parents[k]);
        forall x ensures x in w.parents[k] <==> x in w.observed[k].parents {
          forall p ensures OnFrontier(semantic, normalized, p, x) <==> x == p {
            FrontierOfOpaque(semantic, normalized, p, x);
          }
        }
      }
    }
  }

  lemma OneParent(g: Graph, others: set<Key>)
    requires g.Keys == {CALL} + others && CALL !in others && g[CALL] == {}
    requires forall k | k in others :: g[k] == {CALL}
    ensures Acyclic(g) && Up(g, CALL) == {} && Children(g, CALL) == others
    ensures forall k | k in others :: Up(g, k) == {CALL} && Children(g, k) == {}
  {
    forall k | k in g ensures !Ancestor(g, k, k) {
      AncestorViaParent(g, k, k);
      AncestorViaParent(g, k, CALL);
    }
  }

  lemma JoinedOutcome(w: Work, r: Result<Plan, PlanError>)
    requires Comes(Scans(2, 3), w, r)
    ensures r.Ok? && RESULT in r.value.held && TwoFaced(w.raw, RESULT)
  {
    hide Quotiented, Telemetric, Looped, HasContraction, Ran, Clashes, Acyclic, Raw, Divided;
    JoinedQuotient(w);
    JoinedFaces(w);
    NothingContracted(w);
    if HasContraction(w) {
      OneParent(w.parents, {RESULT});
    }
    if Ran(Scans(2, 3), w) {
      JoinedRun(w);
      RanChainsFit(Scans(2, 3), w);
      ClashesIffDivided(Scans(2, 3), w);
    }
  }

  lemma JoinedFaces(w: Work)
    requires Quotiented(Scans(2, 3), w)
    ensures TwoFaced(w.raw, RESULT) && w.raw.Keys <= w.canonical.Keys
  {
    hide Quotiented;
    QuotientedRawIs(w, 2, 3);
    QuotientedRaw(Scans(2, 3), w);
    var shapes := ShownTwice(2, 3).shapes;
    assert shapes[0] in shapes && shapes[1] in shapes;
  }

  lemma JoinedRun(w: Work)
    requires Ran(Scans(2, 3), w) && w.canonical == JOINED
    requires w.parents == map[CALL := {}, RESULT := {CALL}] && w.observed.Keys == {CALL, RESULT}
    requires Stands(w.observed, CALL, {}, Act(0)) && Stands(w.observed, RESULT, {CALL}, Inside)
    requires forall s | s in w.observed[CALL].shapes :: s.facts == [1]
    ensures RESULT in w.run.held && !Divided(w.observed, w.run.placed.nodes.Keys)
  {
    hide RunAll, RunsThrough, LeastOrder, Topological, LinesCovered, Observes, Waits, Trailing, Settled;
    var scans := Scans(2, 3);
    var order := LeastOrder(w.parents, {});
    CorpusValid(scans, w.canonical, w.observed, w.parents);
    CorpusFlows(scans, w);
    var c := CorpusOf(scans, w.canonical, w.observed, w.parents);
    OneParent(w.parents, {RESULT});
    ResultWaits(c);
    JoinedTrails(w);
    HeldBack(c, order, RESULT);
    PlacedOrHeld(c, order);
    assert w.run.placed.nodes.Keys <= {CALL};
  }

  lemma CorpusFlows(scans: seq<PreScan>, w: Work)
    requires LinesCovered(scans, w.canonical) && Observes(w.observed, w.parents)
    ensures var c := CorpusOf(scans, w.canonical, w.observed, w.parents);
            && c.parents == w.parents && c.flow.Keys == w.parents.Keys
            && c.trailing == Trailing(scans, w.canonical, w.parents)
            && c.settled == Settled(scans, w.canonical, w.parents)
            && forall k | k in w.parents :: w.observed[k].flow.Some? && c.flow[k] == w.observed[k].flow.value
  {
    hide Trailing, Settled;
  }

  lemma ResultWaits(c: Corpus)
    requires c.flow.Keys == {CALL, RESULT} && c.flow[CALL] == Act(0) && c.flow[RESULT] == Inside
    requires Up(c.parents, RESULT) == {CALL} && Children(c.parents, CALL) == {RESULT}
    ensures Waits(c, RESULT, RESULT)
  {
    assert InRun(c, 0, 0, CALL, CALL);
    assert Open(c, 0, CALL);
    assert Linked(c, CALL, RESULT);
    OpenAfterInside(c, 0, RESULT);
    assert InRun(c, 0, 0, RESULT, RESULT);
  }

  lemma JoinedTrails(w: Work)
    requires w.canonical == JOINED && LinesCovered(Scans(2, 3), w.canonical)
    requires w.parents == map[CALL := {}, RESULT := {CALL}]
    requires Children(w.parents, CALL) == {RESULT} && Children(w.parents, RESULT) == {}
    ensures RESULT in Trailing(Scans(2, 3), w.canonical, w.parents)
    ensures RESULT !in Settled(Scans(2, 3), w.canonical, w.parents)
  {
    hide Children;
    var scans := Scans(2, 3);
    assert scans[0] == FIRST;
    assert FIRST in scans;
    assert WroteLast(FIRST, w.canonical, w.parents, RESULT);
    assert w.canonical[RESULT] == RESULT;
  }

  lemma ApartOutcome(w: Work, r: Result<Plan, PlanError>)
    requires Comes(Scans(3, 2), w, r)
    ensures r == Err(Conflict)
  {
    hide Quotiented, Telemetric, Looped, HasContraction, Ran, Clashes, Acyclic;
    ApartQuotient(w);
    NothingContracted(w);
    if HasContraction(w) {
      OneParent(w.parents, {RESULT, RESULT_COPY});
      assert w.parents == map[CALL := {}, RESULT := {CALL}, RESULT_COPY := {CALL}];
      if Ran(Scans(3, 2), w) {
        ApartClashes(w);
      }
    }
  }

  lemma ApartClashes(w: Work)
    requires Quotiented(Scans(3, 2), w) && Ran(Scans(3, 2), w)
    requires w.parents == map[CALL := {}, RESULT := {CALL}, RESULT_COPY := {CALL}]
    ensures Clashes(w)
  {
    hide Quotiented, Ran, Clashes, Divided, ChainsFit;
    ApartQuotient(w);
    QuotientedRaw(Scans(3, 2), w);
    ApartRun(w);
    ApartDivided(w);
    RanChainsFit(Scans(3, 2), w);
    ClashesIffDivided(Scans(3, 2), w);
  }

  lemma ApartDivided(w: Work)
    requires RESULT in w.run.placed.nodes && RESULT in w.observed
    requires Shape([2], 0) in w.observed[RESULT].shapes && Shape([3], 0) in w.observed[RESULT].shapes
    ensures Divided(w.observed, w.run.placed.nodes.Keys)
  {
    assert Shape([2], 0).facts != Shape([3], 0).facts;
  }

  lemma ApartRun(w: Work)
    requires Ran(Scans(3, 2), w)
    requires w.parents == map[CALL := {}, RESULT := {CALL}, RESULT_COPY := {CALL}]
    requires w.observed.Keys == {CALL, RESULT, RESULT_COPY}
    requires Stands(w.observed, CALL, {}, Act(0)) && Stands(w.observed, RESULT, {CALL}, Inside)
    ensures RESULT in w.run.placed.nodes
  {
    hide RunAll, RunsThrough, LeastOrder, Topological, LinesCovered, Observes, Waits, Trailing, Settled;
    var scans := Scans(3, 2);
    var order := LeastOrder(w.parents, {});
    CorpusValid(scans, w.canonical, w.observed, w.parents);
    CorpusFlows(scans, w);
    var c := CorpusOf(scans, w.canonical, w.observed, w.parents);
    OneParent(w.parents, {RESULT, RESULT_COPY});
    HeldBack(c, order, RESULT);
    PlacedOrHeld(c, order);
    forall k ensures !Waits(c, RESULT, k) {
      NothingWaits(c, k);
    }
    assert RESULT in w.run.placed.nodes.Keys + w.run.held;
  }

  lemma NothingWaits(c: Corpus, k: Key)
    requires RESULT in c.flow && c.flow[RESULT] == Inside
    requires Up(c.parents, RESULT) == {CALL} && Children(c.parents, CALL) == {RESULT, RESULT_COPY}
    ensures !Waits(c, RESULT, k)
  {
    forall m ensures !Open(c, m, RESULT) {
      OpenAfterInside(c, m, RESULT);
      assert RESULT_COPY in Children(c.parents, CALL);
    }
  }

  /** The order in which three readable files are scanned can decide whether
      planning succeeds, and a key seen saying two things does not always make it
      fail. */
  lemma OrderCanMatter(names: Naming, w: Work, w': Work, r: Result<Plan, PlanError>, r': Result<Plan, PlanError>)
    requires Comes([FIRST, SECOND, FORK], w, r) && Comes([SECOND, FIRST, FORK], w', r')
    ensures Reads(names, Session(2), FIRST) && Reads(names, Session(3), SECOND) && Reads(names, Forked(), FORK)
    ensures SameScans([FIRST, SECOND, FORK], [SECOND, FIRST, FORK])
    ensures r.Ok? && RESULT in r.value.held && TwoFaced(w.raw, RESULT)
    ensures r' == Err(Conflict)
  {
    hide Comes, TwoFaced, Reads;
    FilesScan(names);
    JoinedOutcome(w, r);
    ApartOutcome(w', r');
    var (a, b) := ([FIRST, SECOND, FORK], [SECOND, FIRST, FORK]);
    assert a[0] == b[1] && a[1] == b[0] && a[2] == b[2];
  }
}
