/** Projecting the lines that were scanned: the second pass gives every line the
    key the first gave it, and makes exactly the nodes that were planned. */
module SecondPass {
  import opened Base
  import opened Nodes
  import Graphs
  import TopoOrders
  import Quotients
  import Aliases
  import opened Observations
  import opened Plans
  import opened PlanResults
  import opened PreScans

  // ------------------------------------------------------------------ the keys

  /** Derived version keys tell versions apart, and are no provider's uuid. */
  ghost predicate Distinguishes(names: Naming, lines: seq<Line>) {
    && (forall k, f, k', f' :: names.version(k, f) == names.version(k', f') ==> k == k' && f == f')
    && (forall i, k, f | 0 <= i < |lines| && Keyed(lines[i]) :: names.version(k, f) != RawKey(lines[i]))
  }

  /** The key the second pass looks up for line i. */
  function LookedUp(scan: PreScan, line: Line, i: nat): Option<Key> {
    if line.Row? then
      if i + 1 in scan.versions then Some(scan.versions[i + 1]) else line.record.key
    else None
  }

  /** Every line recovers the key the first pass planned it under. */
  lemma SameKeyAgain(names: Naming, lines: seq<Line>, scan: PreScan, i: nat)
    requires Scanned(names, lines, |lines|, scan) && i < |lines|
    ensures LookedUp(scan, lines[i], i) == if Keyed(lines[i]) then Some(KeyAt(names, lines, i)) else None
  {
    hide KeyAt, SourcesOf, AliasesOf, LastLinesOf;
    assert FurtherVersion(names, lines, i) <==> i + 1 in scan.versions;
  }

  lemma {:induction false} FirstSaidStays(lines: seq<Line>, m: nat, n: nat, k: Key)
    requires m <= n <= |lines| && FirstSaid(lines, m, k).Some?
    ensures FirstSaid(lines, n, k) == FirstSaid(lines, m, k)
    decreases n
  {
    if m < n {
      FirstSaidStays(lines, m, n - 1, k);
    }
  }

  /** A line that speaks is planned by what its uuid says first in the whole file. */
  lemma SpokenKey(names: Naming, lines: seq<Line>, i: nat)
    requires i < |lines| && Speaks(lines[i])
    ensures var k := RawKey(lines[i]);
            && FirstSaid(lines, |lines|, k).Some?
            && KeyAt(names, lines, i) == VersionKey(names, FirstSaid(lines, |lines|, k), k, lines[i].record.shape.facts)
  {
    var k := RawKey(lines[i]);
    FirstSaidNext(lines, i, k);
    FirstSaidStays(lines, i + 1, |lines|, k);
  }

  /** Two lines with content are planned under one key exactly when they are
      versions of one uuid that say the same. */
  lemma OneKeyIffSameSaying(names: Naming, lines: seq<Line>, i: nat, j: nat)
    requires Distinguishes(names, lines)
    requires i < |lines| && j < |lines| && Speaks(lines[i]) && Speaks(lines[j])
    ensures KeyAt(names, lines, i) == KeyAt(names, lines, j) <==>
            RawKey(lines[i]) == RawKey(lines[j]) && lines[i].record.shape.facts == lines[j].record.shape.facts
  {
    hide FirstSaid, KeyAt;
    SpokenKey(names, lines, i);
    SpokenKey(names, lines, j);
  }

  // ---------------------------------------------------------------- the scan

  lemma LineWellObserved(names: Naming, lines: seq<Line>, n: nat, k: Key)
    requires n <= |lines|
    ensures forall o | o in Shows(names, lines, n, k) :: WellObserved(o)
  {
    hide KeyAt;
    forall o | o in Shows(names, lines, n, k) ensures WellObserved(o) {
      var i: nat :| i < n && PlannedUnder(names, lines, i, k) && LineShows(names, lines, i) == o;
    }
  }

  /** A key has content exactly when some line speaks for it. */
  lemma ContentIffSpoken(names: Naming, lines: seq<Line>, scan: PreScan, k: Key)
    requires Scanned(names, lines, |lines|, scan)
    ensures k in scan.sources && scan.sources[k].content <==>
            exists i: nat | i < |lines| :: SpeaksFor(names, lines, i, k)
  {
    hide KeyAt, AliasesOf, VersionsOf, LastLinesOf;
    if k in scan.sources && scan.sources[k].content {
      var o :| o in Shows(names, lines, |lines|, k) && o.content;
      var i: nat :| i < |lines| && PlannedUnder(names, lines, i, k) && LineShows(names, lines, i) == o;
      assert SpeaksFor(names, lines, i, k);
    }
    if i: nat :| i < |lines| && SpeaksFor(names, lines, i, k) {
      assert PlannedUnder(names, lines, i, k);
      assert LineShows(names, lines, i) in Shows(names, lines, |lines|, k);
    }
  }

  /** What planning relies on. */
  lemma ScanIsWell(names: Naming, lines: seq<Line>, scan: PreScan)
    requires Scanned(names, lines, |lines|, scan)
    ensures WellScanned(scan)
  {
    hide KeyAt, Sums, Shows, AliasesOf, VersionsOf, WellObserved, SpeaksFor;
    forall k | k in scan.sources ensures WellObserved(scan.sources[k]) {
      LineWellObserved(names, lines, |lines|, k);
      WellObservedSum(Shows(names, lines, |lines|, k), scan.sources[k]);
    }
    forall k ensures k in scan.lastLines <==> k in scan.sources && scan.sources[k].content {
      ContentIffSpoken(names, lines, scan, k);
    }
    forall k, k' | k in scan.lastLines && k' in scan.lastLines && k != k'
      ensures scan.lastLines[k] != scan.lastLines[k']
    {
      if scan.lastLines[k] == scan.lastLines[k'] {
        OneSpeaker(names, lines, scan.lastLines[k] - 1, k, k');
      }
    }
  }

  lemma OneSpeaker(names: Naming, lines: seq<Line>, i: nat, k: Key, k': Key)
    requires SpeaksFor(names, lines, i, k) && SpeaksFor(names, lines, i, k')
    ensures k == k'
  {
  }

  lemma ShapeShown(names: Naming, lines: seq<Line>, scan: PreScan, k: Key, s: Shape) returns (i: nat)
    requires Scanned(names, lines, |lines|, scan) && k in scan.sources && s in scan.sources[k].shapes
    ensures i < |lines| && SpeaksFor(names, lines, i, k) && lines[i].record.shape == s
  {
    hide KeyAt, AliasesOf, VersionsOf, LastLinesOf;
    var o :| o in Shows(names, lines, |lines|, k) && s in o.shapes;
    i :| i < |lines| && PlannedUnder(names, lines, i, k) && LineShows(names, lines, i) == o;
  }

  /** Within one file every key says one thing. */
  lemma OneSayingPerKey(names: Naming, lines: seq<Line>, scan: PreScan, k: Key, s: Shape, s': Shape)
    requires Distinguishes(names, lines) && Scanned(names, lines, |lines|, scan)
    requires k in scan.sources && s in scan.sources[k].shapes && s' in scan.sources[k].shapes
    ensures s.facts == s'.facts
  {
    hide Scanned, KeyAt, Distinguishes;
    var i := ShapeShown(names, lines, scan, k, s);
    var j := ShapeShown(names, lines, scan, k, s');
    OneKeyIffSameSaying(names, lines, i, j);
  }

  // ---------------------------------------------------------- the projection

  datatype ProjectError =
    | AbsentFromPlan
    | MaterializedDifferently(position: nat)
    | OutOfRange(position: nat)
    | Unscannable

  function ClassIn(plan: Plan, key: Key): Key {
    if key in plan.canonical then plan.canonical[key] else key
  }

  /** The nodes a record of `key` makes: what the plan lists for its class, made
      anew from the record's own facts. */
  ghost predicate Realised(plan: Plan, key: Key, facts: seq<Fact>, nodes: seq<Node>) {
    var class_ := ClassIn(plan, key);
    if class_ in plan.held || facts == [] then nodes == []
    else
      && class_ in plan.nodes && class_ in plan.firsts
      && nodes == Chain(plan.firsts[class_], facts) && nodes <= plan.nodes[class_]
  }

  /** Project one record; succeeds exactly when the plan lists the record's chain. */
  method ProjectRecord(r: Record, version: Option<Key>, plan: Plan) returns (result: Result<seq<Node>, ProjectError>)
    ensures var key := if version.Some? then version else r.key;
            if key.None? then result == Ok([])
            else if result.Ok? then Realised(plan, key.value, r.shape.facts, result.value)
            else forall nodes :: !Realised(plan, key.value, r.shape.facts, nodes)
  {
    var looked := if version.Some? then version else r.key;
    if looked.None? {
      return Ok([]);
    }
    var key := looked.value;
    var class_ := ClassIn(plan, key);
    if class_ in plan.held || Content(r).None? {
      return Ok([]);
    }
    if class_ !in plan.nodes || class_ !in plan.firsts {
      return Err(AbsentFromPlan);
    }
    var facts := r.shape.facts;
    var chain := plan.nodes[class_];
    var previous := plan.firsts[class_];
    var nodes: seq<Node> := [];
    for position := 0 to |facts|
      invariant nodes == Chain(plan.firsts[class_], facts[..position])
      invariant position <= |chain| && nodes == chain[..position]
      invariant previous == if position == 0 then plan.firsts[class_] else {Last(nodes)}
    {
      NextLink(plan.firsts[class_], facts, position);
      var node := Node(previous, facts[position]);
      if position >= |chain| {
        return Err(OutOfRange(position));
      }
      if chain[position] != node {
        return Err(MaterializedDifferently(position));
      }
      nodes := nodes + [node];
      previous := {node};
    }
    assert facts[..|facts|] == facts;
    result := Ok(nodes);
  }

  lemma NextLink(first: set<Node>, facts: seq<Fact>, i: nat)
    requires i < |facts|
    ensures var before := Chain(first, facts[..i]);
            var node := Node(if i == 0 then first else {Last(before)}, facts[i]);
            && |before| == i
            && Chain(first, facts[..i + 1]) == before + [node]
            && |Chain(first, facts)| == |facts| && Chain(first, facts)[i] == node
  {
    assert facts[..i + 1] == facts[..i] + [facts[i]];
    assert facts == facts[..i + 1] + facts[i + 1..];
    ChainAppend(first, facts[..i], [facts[i]]);
    ChainAppend(first, facts[..i + 1], facts[i + 1..]);
  }

  /** Line i makes `nodes`, or nothing where it has no record or no key. */
  ghost predicate LineRealised(plan: Plan, scan: PreScan, lines: seq<Line>, i: nat, nodes: seq<Node>)
    requires i < |lines|
  {
    !lines[i].Broken?
    && match LookedUp(scan, lines[i], i)
       case None => nodes == []
       case Some(key) => Realised(plan, key, lines[i].record.shape.facts, nodes)
  }

  /** No nodes fit line i. */
  ghost predicate Unrealisable(plan: Plan, scan: PreScan, lines: seq<Line>, i: nat)
    requires i < |lines|
  {
    forall nodes :: !LineRealised(plan, scan, lines, i, nodes)
  }

  /** Project a file; succeeds exactly when every line can be realised. */
  method ProjectFile(lines: seq<Line>, scan: PreScan, plan: Plan) returns (result: Result<seq<seq<Node>>, ProjectError>)
    ensures result.Ok? ==>
              |result.value| == |lines| && forall i | 0 <= i < |lines| ::
                  LineRealised(plan, scan, lines, i, result.value[i])
    ensures result.Err? ==> exists i | 0 <= i < |lines| :: Unrealisable(plan, scan, lines, i)
  {
    var emitted: seq<seq<Node>> := [];
    for i := 0 to |lines|
      invariant |emitted| == i && forall j | 0 <= j < i :: LineRealised(plan, scan, lines, j, emitted[j])
    {
      match lines[i] {
        case Broken =>
          assert Unrealisable(plan, scan, lines, i);
          return Err(Unscannable);
        case Blank =>
          emitted := emitted + [[]];
        case Row(record) =>
          var version := if i + 1 in scan.versions then Some(scan.versions[i + 1]) else None;
          var projected := ProjectRecord(record, version, plan);
          if projected.Err? {
            assert Unrealisable(plan, scan, lines, i);
            return Err(projected.error);
          }
          emitted := emitted + [projected.value];
      }
    }
    result := Ok(emitted);
  }

  // ------------------------------------------------------------ main results

  /** What line i makes under a plan of its own scan. */
  function Planned(names: Naming, lines: seq<Line>, plan: Plan, i: nat): seq<Node>
    requires i < |lines|
  {
    if !Speaks(lines[i]) then []
    else
      var class_ := ClassIn(plan, KeyAt(names, lines, i));
      if class_ in plan.nodes then plan.nodes[class_] else []
  }

  /** Every line of a planned file can be realised, and makes exactly the chain
      the plan lists for it; lines of one key make one chain. */
  lemma SecondPassRealises(names: Naming, lines: seq<Line>, scans: seq<PreScan>, w: Work, plan: Plan, scan: PreScan,
                           i: nat, nodes: seq<Node>)
    requires (forall s | s in scans :: WellScanned(s)) && Comes(scans, w, Ok(plan))
    requires scan in scans && Scanned(names, lines, |lines|, scan) && Readable(lines, |lines|) && i < |lines|
    ensures LineRealised(plan, scan, lines, i, nodes) <==> nodes == Planned(names, lines, plan, i)
  {
    hide Scanned, WellScanned, Comes, KeyAt, Realised;
    SameKeyAgain(names, lines, scan, i);
    if Keyed(lines[i]) {
      var key := KeyAt(names, lines, i);
      if Speaks(lines[i]) {
        SpokenRealised(names, lines, scans, w, plan, scan, i, nodes);
      } else {
        SilentRealised(plan, key, lines[i].record.shape.facts, nodes);
      }
    }
  }

  lemma SilentRealised(plan: Plan, key: Key, facts: seq<Fact>, nodes: seq<Node>)
    requires facts == []
    ensures Realised(plan, key, facts, nodes) <==> nodes == []
  {
  }

  lemma SpokenShape(names: Naming, lines: seq<Line>, scan: PreScan, i: nat)
    requires Scanned(names, lines, |lines|, scan) && i < |lines| && Speaks(lines[i])
    ensures var key := KeyAt(names, lines, i);
            key in scan.sources && scan.sources[key].content && lines[i].record.shape in scan.sources[key].shapes
  {
    hide KeyAt, AliasesOf, VersionsOf, LastLinesOf;
    var key := KeyAt(names, lines, i);
    assert SpeaksFor(names, lines, i, key);
    ContentIffSpoken(names, lines, scan, key);
    assert LineShows(names, lines, i) in Shows(names, lines, |lines|, key);
    assert lines[i].record.shape in LineShows(names, lines, i).shapes;
  }

  lemma SpokenRealised(names: Naming, lines: seq<Line>, scans: seq<PreScan>, w: Work, plan: Plan, scan: PreScan,
                       i: nat, nodes: seq<Node>)
    requires (forall s | s in scans :: WellScanned(s)) && Comes(scans, w, Ok(plan))
    requires scan in scans && Scanned(names, lines, |lines|, scan) && i < |lines| && Speaks(lines[i])
    ensures Realised(plan, KeyAt(names, lines, i), lines[i].record.shape.facts, nodes) <==>
            nodes == Planned(names, lines, plan, i)
  {
    hide Scanned, WellScanned, Comes, KeyAt;
    var key := KeyAt(names, lines, i);
    SpokenShape(names, lines, scan, i);
    EveryRecordPlanned(scans, w, plan, scan, key);
  }

  /** Every planned chain is that of a key some scan has content for. */
  lemma EveryNodeEmitted(scans: seq<PreScan>, w: Work, plan: Plan, c: Key) returns (s: PreScan, k: Key)
    requires Comes(scans, w, Ok(plan)) && c in plan.nodes
    ensures s in scans && k in s.sources && s.sources[k].content
    ensures k in plan.canonical && plan.canonical[k] == c
  {
    hide Quotiented, Clashes, Telemetric, Looped, Graphs.Acyclic, Placements.RunAll, Placements.RunsThrough,
      TopoOrders.LeastOrder, Graphs.Topological;
    k := ContentKeyOf(scans, w, c);
    s := ContentScanOf(scans, w, k);
  }

  lemma ContentKeyOf(scans: seq<PreScan>, w: Work, c: Key) returns (k: Key)
    requires Quotiented(scans, w) && c in w.observed && w.observed[c].content
    ensures k in w.raw && w.raw[k].content && k in w.canonical && w.canonical[k] == c
  {
    hide Gathered, Quotients.IsQuotient, Aliases.Greedy;
    var raw := Repositioned(w.raw, w.kept);
    var o :| o in ClassParts(raw, w.canonical, c) && o.content;
    k :| k in raw && w.canonical[k] == c && InClass(raw[k], w.canonical) == o;
  }

  lemma ContentScanOf(scans: seq<PreScan>, w: Work, k: Key) returns (s: PreScan)
    requires Quotiented(scans, w) && k in w.raw && w.raw[k].content
    ensures s in scans && k in s.sources && s.sources[k].content
  {
    hide Classed, Quotients.IsQuotient, Aliases.Greedy, Repositioned;
    var o :| o in Parts(scans, k) && o.content;
    s :| s in scans && k in s.sources && s.sources[k] == o;
  }
}
