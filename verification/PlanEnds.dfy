/** What a plan holds back, read off the lines of the files, and what the first
    node of a planned record follows. */
module PlanEnds {
  import opened Base
  import opened Graphs
  import opened Placements
  import opened PlacementBooks
  import opened PlacementRuns
  import opened PlacementOrder
  import opened PlacementFollows
  import opened MessageRuns
  import opened TopoOrders
  import opened Plans
  import opened PlanResults

  // ------------------------------------------------------------ what is held

  /** A branch of the planned history ends at x. */
  ghost predicate BranchEnd(plan: Plan, x: Key) {
    x in plan.parents && Children(plan.parents, x) == {}
  }

  /** On this line, of a record of x, the file wrote later than it did of any other branch end. */
  ghost predicate LaterThanOthers(s: PreScan, plan: Plan, x: Key, line: nat) {
    forall k | k in s.lastLines && k in plan.canonical ::
      BranchEnd(plan, plan.canonical[k]) && plan.canonical[k] != x ==> s.lastLines[k] < line
  }

  /** An unfinished file whose lines reach further at the branch end x than at any other. */
  ghost predicate StillWriting(s: PreScan, plan: Plan, x: Key) {
    && !s.finished
    && exists k | k in s.lastLines && k in plan.canonical ::
         plan.canonical[k] == x && LaterThanOthers(s, plan, x, s.lastLines[k])
  }

  ghost predicate Written(scans: seq<PreScan>, plan: Plan, x: Key) {
    exists s | s in scans :: StillWriting(s, plan, x)
  }

  /** Some unfinished file has content of this class. */
  ghost predicate InUnfinished(scans: seq<PreScan>, plan: Plan, x: Key) {
    exists s, k | s in scans && k in s.sources ::
      !s.finished && s.sources[k].content && k in plan.canonical && plan.canonical[k] == x
  }

  /** Some key with x's content stands on the last of the lines the file has of x. */
  lemma {:induction false} LastLineOf(lines: map<Key, nat>, keys: set<Key>, k: Key) returns (last: Key)
    requires keys <= lines.Keys && k in keys
    ensures last in keys && forall k' | k' in keys :: lines[k'] <= lines[last]
  {
    last := k;
    if k' :| k' in keys && k' != k {
      var other := LastLineOf(lines, keys - {k}, k');
      last := if lines[k] <= lines[other] then other else k;
    }
  }

  lemma WrittenTrails(scans: seq<PreScan>, w: Work, plan: Plan, s: PreScan, x: Key)
    requires LinesCovered(scans, w.canonical) && plan.canonical == w.canonical && plan.parents == w.parents
    requires s in scans && StillWriting(s, plan, x) && BranchEnd(plan, x)
    ensures x in Trailing(scans, w.canonical, w.parents)
  {
    var k :| k in s.lastLines && plan.canonical[k] == x && LaterThanOthers(s, plan, x, s.lastLines[k]);
    var keys := set k' | k' in s.lastLines && plan.canonical[k'] == x;
    var last := LastLineOf(s.lastLines, keys, k);
    forall k' | k' in s.lastLines && IsLeaf(w.parents, w.canonical[k'])
      ensures s.lastLines[k'] <= s.lastLines[last]
    {
      if w.canonical[k'] != x {
        assert BranchEnd(plan, plan.canonical[k']);
      }
    }
    assert WroteLast(s, w.canonical, w.parents, last);
  }

  lemma TrailsWritten(scans: seq<PreScan>, w: Work, plan: Plan, x: Key)
    requires forall s | s in scans :: WellScanned(s)
    requires LinesCovered(scans, w.canonical) && plan.canonical == w.canonical && plan.parents == w.parents
    requires x in Trailing(scans, w.canonical, w.parents)
    ensures Written(scans, plan, x) && InUnfinished(scans, plan, x)
  {
    var s, k :| s in scans && !s.finished && k in s.lastLines && WroteLast(s, w.canonical, w.parents, k)
      && w.canonical[k] == x;
    assert WellScanned(s);
    forall k' | k' in s.lastLines && BranchEnd(plan, plan.canonical[k']) && plan.canonical[k'] != x
      ensures s.lastLines[k'] < s.lastLines[k]
    {
      assert IsLeaf(w.parents, w.canonical[k']);
    }
    assert LaterThanOthers(s, plan, x, s.lastLines[k]);
    assert StillWriting(s, plan, x);
    assert k in s.sources && s.sources[k].content;
  }

  lemma UnfinishedUnsettled(scans: seq<PreScan>, w: Work, plan: Plan, x: Key)
    requires LinesCovered(scans, w.canonical) && plan.canonical == w.canonical && InUnfinished(scans, plan, x)
    ensures x !in Settled(scans, w.canonical, w.parents)
  {
  }

  lemma SettlesIffUnwritten(scans: seq<PreScan>, w: Work, plan: Plan, x: Key)
    requires (forall s | s in scans :: WellScanned(s)) && Ran(scans, w)
    requires plan.canonical == w.canonical && plan.parents == w.parents && BranchEnd(plan, x)
    ensures !Settles(CorpusIn(scans, w), x) <==> Written(scans, plan, x)
    ensures Written(scans, plan, x) ==> InUnfinished(scans, plan, x)
  {
    hide Trailing, Settled, RunAll, RunsThrough, LeastOrder, Topological, Observes, StillWriting, InUnfinished,
      WellScanned, LinesCovered, Waits;
    if x in Trailing(scans, w.canonical, w.parents) {
      TrailsWritten(scans, w, plan, x);
      UnfinishedUnsettled(scans, w, plan, x);
    } else if s :| s in scans && StillWriting(s, plan, x) {
      WrittenTrails(scans, w, plan, s, x);
    }
  }

  /** A record is held back exactly if it waits at a branch end that some
      unfinished file wrote last: on a later line than all its lines of other
      branch ends. Such a file has content of that end itself, so whether the
      files of the waiting records are finished decides nothing more. */
  lemma HeldIffStillWritten(scans: seq<PreScan>, w: Work, plan: Plan, d: Key)
    requires (forall s | s in scans :: WellScanned(s)) && Comes(scans, w, Ok(plan))
    ensures Ran(scans, w)
    ensures d in plan.held <==>
            exists x | BranchEnd(plan, x) :: Waits(CorpusIn(scans, w), d, x) && Written(scans, plan, x)
    ensures forall x | BranchEnd(plan, x) && Written(scans, plan, x) :: InUnfinished(scans, plan, x)
  {
    hide Quotiented, Clashes, Telemetric, Looped, HasContraction, WellScanned, Written, InUnfinished, Settles, Waits,
      RunAll, RunsThrough, LeastOrder, LinesCovered, Observes, Trailing, Settled, Acyclic, Followed;
    var c := CorpusIn(scans, w);
    CorpusValid(scans, w.canonical, w.observed, w.parents);
    HeldBack(c, LeastOrder(w.parents, {}), d);
    forall x | BranchEnd(plan, x)
      ensures !Settles(c, x) <==> Written(scans, plan, x)
      ensures Written(scans, plan, x) ==> InUnfinished(scans, plan, x)
    {
      SettlesIffUnwritten(scans, w, plan, x);
    }
  }

  // ----------------------------------------------------- what a record follows

  /** The first node of every planned record follows, below each of its parents,
      the last node of the record that comes last of all that must come before it
      there: with a single parent, that one node. */
  lemma PlannedFollows(scans: seq<PreScan>, w: Work, plan: Plan, k: Key)
    requires Comes(scans, w, Ok(plan)) && k in plan.nodes
    ensures Ran(scans, w) && Shaped(CorpusIn(scans, w), w.run.placed) && k in plan.firsts
    ensures plan.nodes == w.run.placed.nodes && plan.firsts == w.run.placed.firsts
    ensures Follows(CorpusIn(scans, w), w.run.placed, k)
    ensures forall p, t | Up(plan.parents, k) == {p} ::
      plan.firsts[k] == {t} <==>
      EndsIn(CorpusIn(scans, w), w.run.placed, Predecessors(CorpusIn(scans, w), k, p), t)
  {
    hide Quotiented, Clashes, Telemetric, Looped, HasContraction, RunAll, RunsThrough, LeastOrder, LinesCovered,
      Observes, Trailing, Settled, Acyclic, Followed, Predecessors, EndsIn, Shaped, Follows, Up;
    var c := CorpusIn(scans, w);
    CorpusValid(scans, w.canonical, w.observed, w.parents);
    FollowsExactly(c, LeastOrder(w.parents, {}), k);
    forall p, t | Up(plan.parents, k) == {p}
      ensures plan.firsts[k] == {t} <==> EndsIn(c, w.run.placed, Predecessors(c, k, p), t)
    {
      FollowsOne(c, w.run.placed, k, p, t);
    }
  }
}
