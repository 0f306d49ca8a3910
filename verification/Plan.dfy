/** The canonical plan: from the scans of every file to the node chains. */
module Plans {
  import opened Base
  import opened Nodes
  import opened Graphs
  import opened Placements
  import opened PlacementRuns
  import opened Observations
  import opened Aliases
  import opened Quotients
  import opened Frontiers
  import opened DagChecks
  import opened TopoOrders
  import opened Placers
  import DisjointSets

  datatype PreScan = PreScan(
    sources: map<Key, Observation>,
    aliases: set<Edge>,
    finished: bool,
    versions: map<nat, Key>,
    lastLines: map<Key, nat>)

  /** What reading a file guarantees of its scan. */
  ghost predicate WellScanned(s: PreScan) {
    && (forall k | k in s.sources :: WellObserved(s.sources[k]))
    && (forall k :: k in s.lastLines <==> k in s.sources && s.sources[k].content)
    && (forall k, k' | k in s.lastLines && k' in s.lastLines && k != k' :: s.lastLines[k] != s.lastLines[k'])
  }

  datatype PlanError = Telemetry | TransparentCycle | SemanticCycle | Conflict

  datatype Plan = Plan(
    canonical: map<Key, Key>,
    parents: Graph,
    nodes: map<Key, seq<Node>>,
    firsts: map<Key, set<Node>>,
    followed: set<Node>,
    held: set<Key>)

  // -------------------------------------------------------- what is merged

  function Parts(scans: seq<PreScan>, k: Key): set<Observation> {
    set s | s in scans && k in s.sources :: s.sources[k]
  }

  ghost predicate Seen(scans: seq<PreScan>, k: Key) {
    exists s | s in scans :: k in s.sources
  }

  /** The scans added up one after the other; only the order in which the shapes
      of a key are met depends on their order. */
  ghost function AddScans(scans: seq<PreScan>): map<Key, Observation> {
    if scans == [] then map[] else AddScan(AddScans(scans[..|scans| - 1]), scans[|scans| - 1])
  }

  /** Every key any scan saw, with all the scans say about it. */
  ghost predicate Gathered(scans: seq<PreScan>, raw: map<Key, Observation>) {
    && raw == AddScans(scans)
    && (forall k :: k in raw <==> Seen(scans, k))
    && (forall k | k in raw :: Sums(Parts(scans, k), raw[k]))
  }

  function AddScan(raw: map<Key, Observation>, scan: PreScan): map<Key, Observation> {
    map k | k in raw.Keys + scan.sources.Keys ::
      if k in scan.sources then Add(if k in raw then raw[k] else UNSEEN, scan.sources[k]) else raw[k]
  }

  lemma PartsNext(scans: seq<PreScan>, scan: PreScan, k: Key)
    ensures Parts(scans + [scan], k) == Parts(scans, k) + (if k in scan.sources then {scan.sources[k]} else {})
    ensures Seen(scans + [scan], k) <==> Seen(scans, k) || k in scan.sources
    ensures !Seen(scans, k) ==> Parts(scans, k) == {}
  {
    assert scan in scans + [scan];
    assert forall s | s in scans :: s in scans + [scan];
  }

  lemma GatheredNext(scans: seq<PreScan>, raw: map<Key, Observation>, scan: PreScan)
    requires Gathered(scans, raw)
    ensures Gathered(scans + [scan], AddScan(raw, scan))
  {
    hide Sums, Parts, Seen, Add;
    NothingSums();
    AddScansNext(scans, scan);
    forall k
      ensures k in AddScan(raw, scan) <==> Seen(scans + [scan], k)
      ensures k in AddScan(raw, scan) ==> Sums(Parts(scans + [scan], k), AddScan(raw, scan)[k])
    {
      PartsNext(scans, scan, k);
      if k in scan.sources {
        SumsMore(Parts(scans, k), if k in raw then raw[k] else UNSEEN, scan.sources[k]);
      } else {
        assert Parts(scans, k) + {} == Parts(scans, k);
      }
    }
  }

  lemma AddScansNext(scans: seq<PreScan>, scan: PreScan)
    ensures AddScans(scans + [scan]) == AddScan(AddScans(scans), scan)
  {
    assert (scans + [scan])[..|scans|] == scans;
  }

  /** Add up the scans, in the order they come. */
  method Gather(scans: seq<PreScan>) returns (raw: map<Key, Observation>)
    ensures Gathered(scans, raw)
  {
    hide Gathered, AddScan;
    raw := map[];
    NothingGathered(scans[..0]);
    for i := 0 to |scans|
      invariant Gathered(scans[..i], raw)
    {
      GatheredNext(scans[..i], raw, scans[i]);
      TakeNext(scans, i);
      raw := AddScan(raw, scans[i]);
    }
    TakeAll(scans);
  }

  lemma NothingGathered(none: seq<PreScan>)
    requires none == []
    ensures Gathered(none, map[])
  {
  }

  // --------------------------------------------------------- the quotient

  function AllAliases(scans: seq<PreScan>): set<Edge> {
    set s, e | s in scans && e in s.aliases :: e
  }

  /** What each key says: the facts of its first shape. */
  function SaysIn(raw: map<Key, Observation>): Says {
    map k | k in raw && raw[k].shapes != [] :: raw[k].shapes[0].facts
  }

  /** A copy that says something else than its origin keeps the position its
      replay gave it. */
  function Repositioned(raw: map<Key, Observation>, kept: set<Edge>): map<Key, Observation> {
    var copies := set e | e in kept :: e.0;
    map k | k in raw :: if k in copies then raw[k] else raw[k].(parents := raw[k].parents + raw[k].replayParents)
  }

  function PlanKeys(raw: map<Key, Observation>, kept: set<Edge>): set<Key> {
    raw.Keys + (set k, p | k in raw && p in raw[k].parents :: p)
    + (set e | e in kept :: e.0) + (set e | e in kept :: e.1)
  }

  lemma PlanKeysHold(raw: map<Key, Observation>, kept: set<Edge>)
    ensures forall k | k in raw :: k in PlanKeys(raw, kept) && raw[k].parents <= PlanKeys(raw, kept)
    ensures forall e | e in kept :: e.0 in PlanKeys(raw, kept) && e.1 in PlanKeys(raw, kept)
  {
  }

  // ---------------------------------------------------------- the classes

  /** The canonical map covers every key that can be asked for. */
  ghost predicate Covers(raw: map<Key, Observation>, canonical: map<Key, Key>) {
    forall k | k in raw :: k in canonical && raw[k].parents <= canonical.Keys
  }

  function InClass(o: Observation, canonical: map<Key, Key>): Observation
    requires o.parents <= canonical.Keys
  {
    o.(parents := set p | p in o.parents :: canonical[p], replayParents := {})
  }

  function ClassParts(raw: map<Key, Observation>, canonical: map<Key, Key>, class_: Key): set<Observation>
    requires Covers(raw, canonical)
  {
    set k | k in raw && canonical[k] == class_ :: InClass(raw[k], canonical)
  }

  /** Every class, with all its keys say. */
  ghost predicate Classed(raw: map<Key, Observation>, canonical: map<Key, Key>, observed: map<Key, Observation>)
    requires Covers(raw, canonical)
  {
    && (forall c :: c in observed <==> exists k | k in raw :: canonical[k] == c)
    && (forall c | c in observed :: Sums(ClassParts(raw, canonical, c), observed[c]))
  }

  /** Add up the keys of every class, in any order. */
  method Classify(raw: map<Key, Observation>, canonical: map<Key, Key>) returns (observed: map<Key, Observation>)
    requires Covers(raw, canonical)
    ensures Classed(raw, canonical, observed)
  {
    hide Classed, Increasing, Sums, Add, InClass;
    observed := map[];
    var keys := Sorted(raw.Keys);
    ghost var done: map<Key, Observation> := map[];
    NothingClassed(canonical);
    for i := 0 to |keys|
      invariant (forall k :: k in done <==> k in keys[..i]) && forall k | k in done :: k in raw && done[k] == raw[k]
      invariant Covers(done, canonical) && Classed(done, canonical, observed)
    {
      var key := keys[i];
      assert key in keys;
      TakeNext(keys, i);
      var c := canonical[key];
      ClassedNext(done, canonical, observed, key, raw[key]);
      observed := observed[c := Add(if c in observed then observed[c] else UNSEEN, InClass(raw[key], canonical))];
      done := done[key := raw[key]];
    }
    TakeAll(keys);
    assert done == raw;
  }

  lemma NothingClassed(canonical: map<Key, Key>)
    ensures Classed(map[], canonical, map[])
  {
  }

  lemma NoParts(done: map<Key, Observation>, canonical: map<Key, Key>, c: Key)
    requires Covers(done, canonical) && forall k | k in done :: canonical[k] != c
    ensures ClassParts(done, canonical, c) == {}
  {
  }

  lemma ClassedNext(done: map<Key, Observation>, canonical: map<Key, Key>, observed: map<Key, Observation>,
                    key: Key, o: Observation)
    requires Covers(done, canonical) && Classed(done, canonical, observed)
    requires key !in done && key in canonical && o.parents <= canonical.Keys
    ensures var c := canonical[key];
            && Covers(done[key := o], canonical)
            && Classed(done[key := o], canonical,
                       observed[c := Add(if c in observed then observed[c] else UNSEEN, InClass(o, canonical))])
  {
    hide Sums, Add, ClassParts, InClass;
    var more := done[key := o];
    var c := canonical[key];
    if c !in observed {
      NoParts(done, canonical, c);
      NothingSums();
    }
    SumsMore(ClassParts(done, canonical, c), if c in observed then observed[c] else UNSEEN, InClass(o, canonical));
    forall x
      ensures Covers(more, canonical)
      ensures ClassParts(more, canonical, x) ==
              ClassParts(done, canonical, x) + (if x == c then {InClass(o, canonical)} else {})
    {
      ClassPartsNext(done, canonical, key, o, x);
    }
    forall x ensures x in observed || x == c <==> exists k | k in more :: canonical[k] == x {
      if x == c {
        assert canonical[key] == x && key in more;
      }
      if k :| k in done && canonical[k] == x {
        assert k in more;
      }
    }
    forall x | x in observed && x != c ensures Sums(ClassParts(more, canonical, x), observed[x]) {
      assert ClassParts(done, canonical, x) + {} == ClassParts(done, canonical, x);
    }
  }

  lemma ClassPartsNext(done: map<Key, Observation>, canonical: map<Key, Key>, key: Key, o: Observation, x: Key)
    requires Covers(done, canonical) && key !in done && key in canonical && o.parents <= canonical.Keys
    ensures Covers(done[key := o], canonical)
    ensures ClassParts(done[key := o], canonical, x) ==
            ClassParts(done, canonical, x) + (if canonical[key] == x then {InClass(o, canonical)} else {})
  {
    var more := done[key := o];
    forall p ensures p in ClassParts(more, canonical, x) <==>
                     p in ClassParts(done, canonical, x) || (canonical[key] == x && p == InClass(o, canonical)) {
      if p in ClassParts(more, canonical, x) {
        var k :| k in more && canonical[k] == x && InClass(more[k], canonical) == p;
      }
      if p in ClassParts(done, canonical, x) {
        var k :| k in done && canonical[k] == x && InClass(done[k], canonical) == p;
        assert more[k] == done[k];
      }
      if canonical[key] == x && p == InClass(o, canonical) {
        assert more[key] == o;
      }
    }
  }

  // ---------------------------------------------------------- the planning

  function Semantic(observed: map<Key, Observation>): set<Key> {
    set k | k in observed && observed[k].content
  }

  /** A key that is both content and turn-duration telemetry. */
  predicate Telemetric(observed: map<Key, Observation>) {
    exists k | k in observed :: observed[k].content && observed[k].turnDuration
  }

  /** Every class's parents, without the reciprocal backlinks of telemetry. */
  function Normalize(observed: map<Key, Observation>): Graph {
    map k | k in observed ::
      if observed[k].turnDuration && !observed[k].nonTurnDuration
      then set p | p in observed[k].parents && !(p in observed && k in observed[p].parents)
      else observed[k].parents
  }

  predicate IsLeaf(parents: Graph, c: Key) {
    c in parents && Children(parents, c) == {}
  }

  /** Of the branch ends in this file, the one whose content it wrote last. */
  predicate WroteLast(scan: PreScan, canonical: map<Key, Key>, parents: Graph, k: Key)
    requires scan.lastLines.Keys <= canonical.Keys
  {
    && k in scan.lastLines && IsLeaf(parents, canonical[k])
    && forall k' | k' in scan.lastLines && IsLeaf(parents, canonical[k']) :: scan.lastLines[k'] <= scan.lastLines[k]
  }

  ghost predicate LinesCovered(scans: seq<PreScan>, canonical: map<Key, Key>) {
    forall s | s in scans :: s.lastLines.Keys <= canonical.Keys && s.sources.Keys <= canonical.Keys
  }

  function Trailing(scans: seq<PreScan>, canonical: map<Key, Key>, parents: Graph): set<Key>
    requires LinesCovered(scans, canonical)
  {
    set s, k | s in scans && !s.finished && k in s.lastLines && WroteLast(s, canonical, parents, k) :: canonical[k]
  }

  /** Classes whose content only finished files hold. */
  function Settled(scans: seq<PreScan>, canonical: map<Key, Key>, parents: Graph): set<Key>
    requires LinesCovered(scans, canonical)
  {
    set c | c in parents &&
      forall s, k | s in scans && k in s.sources :: s.sources[k].content && canonical[k] == c ==> s.finished
  }

  ghost predicate Observes(observed: map<Key, Observation>, parents: Graph) {
    forall k | k in parents :: k in observed && observed[k].content && WellObserved(observed[k])
  }

  /** The classes with content, ready to be placed. */
  function CorpusOf(scans: seq<PreScan>, canonical: map<Key, Key>, observed: map<Key, Observation>,
                    parents: Graph): Corpus
    requires LinesCovered(scans, canonical) && Observes(observed, parents)
  {
    Corpus(
      parents,
      map k | k in parents :: observed[k].shapes[0].facts,
      map k | k in parents :: observed[k].flow.value,
      Trailing(scans, canonical, parents),
      Settled(scans, canonical, parents))
  }

  lemma CorpusValid(scans: seq<PreScan>, canonical: map<Key, Key>, observed: map<Key, Observation>, parents: Graph)
    requires LinesCovered(scans, canonical) && Observes(observed, parents)
    ensures CorpusOf(scans, canonical, observed, parents).Valid()
  {
    hide Trailing, Settled;
    forall k | k in parents ensures observed[k].shapes[0].facts != [] {
      assert observed[k].shapes[0] in observed[k].shapes;
    }
  }

  /** Some placed record says something else than what was placed for its class. */
  predicate Conflicting(raw: map<Key, Observation>, canonical: map<Key, Key>, observed: map<Key, Observation>,
                        nodes: map<Key, seq<Node>>)
    requires raw.Keys <= canonical.Keys
    requires forall c | c in nodes :: c in observed && observed[c].shapes != []
  {
    exists k, s | k in raw && s in raw[k].shapes ::
      var c := canonical[k];
      c in nodes && (s.facts != observed[c].shapes[0].facts || |nodes[c]| != |s.facts|)
  }

  /** Nodes some other node follows. */
  function Followed(nodes: map<Key, seq<Node>>, firsts: map<Key, set<Node>>): set<Node>
    requires nodes.Keys <= firsts.Keys
  {
    (set k, n | k in nodes && n in firsts[k] :: n)
    + (set k, i | k in nodes && 0 <= i < |nodes[k]| - 1 :: nodes[k][i])
  }

  // -------------------------------------------------------- what Build does

  /** The intermediate results of one planning. */
  datatype Work = Work(
    raw: map<Key, Observation>,
    kept: set<Edge>,
    canonical: map<Key, Key>,
    observed: map<Key, Observation>,
    parents: Graph,
    run: Run)

  ghost predicate Quotiented(scans: seq<PreScan>, w: Work) {
    && Gathered(scans, w.raw)
    && w.kept == Greedy(SaysIn(w.raw), SortedPairs(AllAliases(scans)))
    && var raw := Repositioned(w.raw, w.kept);
       && IsQuotient(PlanKeys(raw, w.kept), w.kept, w.canonical)
       && Covers(raw, w.canonical) && Classed(raw, w.canonical, w.observed)
  }

  ghost predicate HasContraction(w: Work) {
    IsContraction(Semantic(w.observed), Normalize(w.observed), w.parents)
  }

  ghost predicate Looped(w: Work) {
    exists k | k in Semantic(w.observed) :: LoopedAbove(Semantic(w.observed), Normalize(w.observed), k)
  }

  /** The classes were placed in their least topological order. */
  ghost predicate Ran(scans: seq<PreScan>, w: Work) {
    && LinesCovered(scans, w.canonical) && Observes(w.observed, w.parents)
    && var c := CorpusOf(scans, w.canonical, w.observed, w.parents);
       var order := LeastOrder(w.parents, {});
       && Topological(w.parents, order)
       && RunsThrough(c, EMPTY_RUN, order) && w.run == RunAll(c, EMPTY_RUN, order)
       && w.run.placed.nodes.Keys <= w.parents.Keys
       && w.run.placed.nodes.Keys == w.run.placed.firsts.Keys
  }

  function PlanIn(w: Work): Plan
    requires w.run.placed.nodes.Keys <= w.run.placed.firsts.Keys
  {
    var placed := w.run.placed;
    Plan(w.canonical, w.parents, placed.nodes, placed.firsts, Followed(placed.nodes, placed.firsts), w.run.held)
  }

  ghost predicate Clashes(w: Work) {
    && w.raw.Keys <= w.canonical.Keys
    && (forall c | c in w.run.placed.nodes :: c in w.observed && w.observed[c].shapes != [])
    && Conflicting(w.raw, w.canonical, w.observed, w.run.placed.nodes)
  }

  /** What planning these scans comes to, stage by stage. */
  ghost predicate Comes(scans: seq<PreScan>, w: Work, r: Result<Plan, PlanError>) {
    && Quotiented(scans, w)
    && match r
       case Err(Telemetry) => Telemetric(w.observed)
       case Err(TransparentCycle) => !Telemetric(w.observed) && Looped(w)
       case Err(SemanticCycle) =>
         !Telemetric(w.observed) && !Looped(w) && HasContraction(w) && !Acyclic(w.parents)
       case Err(Conflict) =>
         && !Telemetric(w.observed) && !Looped(w) && HasContraction(w) && Acyclic(w.parents)
         && Ran(scans, w) && Clashes(w)
       case Ok(plan) =>
         && !Telemetric(w.observed) && !Looped(w) && HasContraction(w) && Acyclic(w.parents)
         && Ran(scans, w) && !Clashes(w) && plan == PlanIn(w)
  }

  /** Everything the scans name. */
  function Named(scans: seq<PreScan>): set<Key> {
    (set s, k | s in scans && k in s.sources :: k)
    + (set s, k, p | s in scans && k in s.sources && p in s.sources[k].parents + s.sources[k].replayParents :: p)
    + (set s, e | s in scans && e in s.aliases :: e.0) + (set s, e | s in scans && e in s.aliases :: e.1)
  }

  lemma NamedHolds(scans: seq<PreScan>, raw: map<Key, Observation>, kept: set<Edge>)
    requires Gathered(scans, raw) && kept <= AllAliases(scans)
    ensures PlanKeys(Repositioned(raw, kept), kept) <= Named(scans)
  {
    hide Gathered, Named;
    forall k | k in raw ensures k in Named(scans) && raw[k].parents + raw[k].replayParents <= Named(scans) {
      NamedKey(scans, raw, k);
    }
    forall e | e in kept ensures e.0 in Named(scans) && e.1 in Named(scans) {
      NamedEnds(scans, e);
    }
  }

  lemma NamedEnds(scans: seq<PreScan>, e: Edge)
    requires e in AllAliases(scans)
    ensures e.0 in Named(scans) && e.1 in Named(scans)
  {
    var s :| s in scans && e in s.aliases;
  }

  lemma NamedKey(scans: seq<PreScan>, raw: map<Key, Observation>, k: Key)
    requires Gathered(scans, raw) && k in raw
    ensures k in Named(scans) && raw[k].parents + raw[k].replayParents <= Named(scans)
  {
    var s :| s in scans && k in s.sources;
    forall p | p in raw[k].parents + raw[k].replayParents ensures p in Named(scans) {
      var o :| o in Parts(scans, k) && p in o.parents + o.replayParents;
      var s' :| s' in scans && k in s'.sources && s'.sources[k] == o;
    }
  }

  lemma KeptAliases(says: Says, aliases: set<Edge>)
    ensures Greedy(says, SortedPairs(aliases)) <= aliases
  {
    GreedySound(says, SortedPairs(aliases));
  }

  lemma ObservedWell(scans: seq<PreScan>, w: Work)
    requires (forall s | s in scans :: WellScanned(s)) && Quotiented(scans, w)
    ensures forall k | k in w.raw :: WellObserved(w.raw[k])
    ensures forall c | c in w.observed :: WellObserved(w.observed[c])
    ensures LinesCovered(scans, w.canonical) && w.raw.Keys <= w.canonical.Keys
  {
    hide WellScanned, Gathered, IsQuotient, Classed, WellObserved, Covers, Repositioned, LinesCovered;
    var raw := Repositioned(w.raw, w.kept);
    RepositionedKeys(w.raw, w.kept, w.canonical);
    forall k | k in w.raw ensures WellObserved(w.raw[k]) {
      RawWell(scans, w.raw, k);
    }
    forall k | k in raw ensures WellObserved(raw[k]) {
      RepositionedWell(w.raw, w.kept, k);
    }
    forall c | c in w.observed ensures WellObserved(w.observed[c]) {
      ClassWell(raw, w.canonical, w.observed, c);
    }
    LinesOfScans(scans, w.raw, w.canonical);
  }

  lemma RepositionedKeys(raw: map<Key, Observation>, kept: set<Edge>, canonical: map<Key, Key>)
    ensures Repositioned(raw, kept).Keys == raw.Keys
    ensures Covers(Repositioned(raw, kept), canonical) ==> raw.Keys <= canonical.Keys
  {
  }

  lemma RawWell(scans: seq<PreScan>, raw: map<Key, Observation>, k: Key)
    requires (forall s | s in scans :: WellScanned(s)) && Gathered(scans, raw) && k in raw
    ensures WellObserved(raw[k])
  {
    hide Sums, WellObserved;
    forall o | o in Parts(scans, k) ensures WellObserved(o) {
      var s :| s in scans && k in s.sources && s.sources[k] == o;
      assert WellScanned(s);
    }
    WellObservedSum(Parts(scans, k), raw[k]);
  }

  lemma RepositionedWell(raw: map<Key, Observation>, kept: set<Edge>, k: Key)
    requires k in raw && WellObserved(raw[k])
    ensures WellObserved(Repositioned(raw, kept)[k])
  {
  }

  lemma ClassWell(raw: map<Key, Observation>, canonical: map<Key, Key>, observed: map<Key, Observation>, c: Key)
    requires Covers(raw, canonical) && Classed(raw, canonical, observed) && c in observed
    requires forall k | k in raw :: WellObserved(raw[k])
    ensures WellObserved(observed[c])
  {
    hide Sums;
    forall o | o in ClassParts(raw, canonical, c) ensures WellObserved(o) {
      var k :| k in raw && canonical[k] == c && InClass(raw[k], canonical) == o;
    }
    WellObservedSum(ClassParts(raw, canonical, c), observed[c]);
  }

  lemma LinesOfScans(scans: seq<PreScan>, raw: map<Key, Observation>, canonical: map<Key, Key>)
    requires (forall s | s in scans :: WellScanned(s)) && Gathered(scans, raw) && raw.Keys <= canonical.Keys
    ensures LinesCovered(scans, canonical)
  {
    hide Sums, WellObserved;
    forall s | s in scans ensures s.lastLines.Keys <= canonical.Keys && s.sources.Keys <= canonical.Keys {
      assert WellScanned(s);
      forall k | k in s.sources ensures k in canonical {
        assert Seen(scans, k);
      }
    }
  }

  /** What planning these scans may come to. */
  ghost predicate Outcome(scans: seq<PreScan>, r: Result<Plan, PlanError>) {
    exists w :: Comes(scans, w, r)
  }

  /** Plan the scans: quotient, contraction, cycle check, order, placement. */
  method Build(scans: seq<PreScan>) returns (r: Result<Plan, PlanError>)
    requires forall s | s in scans :: WellScanned(s)
    requires |Named(scans)| <= DisjointSets.USIZE_MAX
    ensures Outcome(scans, r)
  {
    hide Quotiented, WellScanned, Comes;
    var stage := Quotient(scans);
    ghost var w;
    r, w := PlanClasses(scans, stage);
  }

  /** The first stage: add up the scans, join the copies, class the keys. */
  method Quotient(scans: seq<PreScan>) returns (w: Work)
    requires |Named(scans)| <= DisjointSets.USIZE_MAX
    ensures Quotiented(scans, w)
  {
    hide Gathered, Classed, IsQuotient, Named, Greedy;
    var gathered := Gather(scans);
    var aliases := AllAliases(scans);
    var kept := EqualAliases(SaysIn(gathered), aliases);
    var raw := Repositioned(gathered, kept);
    var keys := PlanKeys(raw, kept);
    KeptAliases(SaysIn(gathered), aliases);
    NamedHolds(scans, gathered, kept);
    SubsetSize(keys, Named(scans));
    PlanKeysHold(raw, kept);
    var canonical := AliasQuotient(keys, kept);
    QuotientCovers(raw, kept, canonical);
    var observed := Classify(raw, canonical);
    w := Work(gathered, kept, canonical, observed, map[], EMPTY_RUN);
  }

  lemma QuotientCovers(raw: map<Key, Observation>, kept: set<Edge>, canonical: map<Key, Key>)
    requires IsQuotient(PlanKeys(raw, kept), kept, canonical)
    ensures Covers(raw, canonical)
  {
    hide IsLeastOf;
  }

  /** The middle stages: contract, check for cycles, order. */
  method PlanClasses(scans: seq<PreScan>, quotient: Work) returns (r: Result<Plan, PlanError>, ghost w: Work)
    requires (forall s | s in scans :: WellScanned(s)) && Quotiented(scans, quotient)
    ensures Comes(scans, w, r)
  {
    hide WellScanned, Quotiented, Normalize, Semantic, LoopedAbove, IsContraction, Telemetric, Ran, Clashes,
      Topological, Acyclic, LeastOrder;
    w := quotient;
    if Telemetric(quotient.observed) {
      return Err(Telemetry), w;
    }
    var contracted := Contract(Semantic(quotient.observed), Normalize(quotient.observed));
    if contracted.Err? {
      return Err(TransparentCycle), w;
    }
    var stage := quotient.(parents := contracted.value);
    w := stage;
    SameQuotient(scans, quotient, stage);
    var acyclic := ValidateSemanticDag(stage.parents);
    if !acyclic {
      return Err(SemanticCycle), w;
    }
    var order := TopologicalOrder(stage.parents);
    r, w := PlaceClasses(scans, stage, order.value);
  }

  lemma SameQuotient(scans: seq<PreScan>, w: Work, w': Work)
    requires Quotiented(scans, w) && w' == w.(parents := w'.parents)
    ensures Quotiented(scans, w')
  {
  }

  lemma WorkReady(scans: seq<PreScan>, w: Work)
    requires (forall s | s in scans :: WellScanned(s)) && Quotiented(scans, w) && HasContraction(w)
    ensures w.raw.Keys <= w.canonical.Keys && LinesCovered(scans, w.canonical) && Observes(w.observed, w.parents)
  {
    hide Gathered, IsQuotient, Classed, WellObserved, ContractedAt;
    ObservedWell(scans, w);
  }

  /** The last stage: place the classes, then compare all copies. */
  method PlaceClasses(scans: seq<PreScan>, before: Work, order: seq<Key>)
      returns (r: Result<Plan, PlanError>, ghost w: Work)
    requires (forall s | s in scans :: WellScanned(s)) && Quotiented(scans, before) && HasContraction(before)
    requires !Telemetric(before.observed) && !Looped(before) && Acyclic(before.parents)
    requires order == LeastOrder(before.parents, {}) && Topological(before.parents, order)
    ensures Comes(scans, w, r)
  {
    hide WellScanned, Quotiented, HasContraction, Telemetric, Looped, Acyclic, Topological, LinesCovered, Observes,
      CorpusOf, LeastOrder, RunsThrough, RunAll, Conflicting, Followed;
    WorkReady(scans, before);
    var c := CorpusOf(scans, before.canonical, before.observed, before.parents);
    CorpusValid(scans, before.canonical, before.observed, before.parents);
    CorpusParents(scans, before.canonical, before.observed, before.parents);
    var nodes, firsts, held := PlaceAll(c, order);
    w := before.(run := RunAll(c, EMPTY_RUN, order));
    SameStages(scans, before, w);
    PlacedClasses(c, order, before.observed);
    if Conflicting(before.raw, before.canonical, before.observed, nodes) {
      return Err(Conflict), w;
    }
    r := Ok(Plan(before.canonical, before.parents, nodes, firsts, Followed(nodes, firsts), held));
  }

  lemma CorpusParents(scans: seq<PreScan>, canonical: map<Key, Key>, observed: map<Key, Observation>, parents: Graph)
    requires LinesCovered(scans, canonical) && Observes(observed, parents)
    ensures CorpusOf(scans, canonical, observed, parents).parents == parents
  {
  }

  lemma SameStages(scans: seq<PreScan>, w: Work, w': Work)
    requires w' == w.(run := w'.run)
    ensures Quotiented(scans, w) <==> Quotiented(scans, w')
    ensures HasContraction(w) <==> HasContraction(w')
    ensures Looped(w) <==> Looped(w')
  {
  }

  lemma PlacedClasses(c: Corpus, order: seq<Key>, observed: map<Key, Observation>)
    requires c.Valid() && Topological(c.parents, order) && Observes(observed, c.parents)
    ensures RunsThrough(c, EMPTY_RUN, order)
    ensures var w := RunAll(c, EMPTY_RUN, order).placed;
            && w.nodes.Keys <= c.parents.Keys && w.nodes.Keys == w.firsts.Keys
            && forall k | k in w.nodes :: k in observed && observed[k].shapes != []
  {
    hide RunAll, RunsThrough;
    PlacedOrHeld(c, order);
    forall k {
      NodesFollowNothingElse(c, order, k, Node({}, 0));
    }
  }
}
