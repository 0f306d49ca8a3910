/** What the scan of a file says of a key, read off the lines planned under it. */
module ScanLines {
  import opened Base
  import opened Placements
  import opened Observations
  import opened Plans
  import opened PreScans

  /** A line with content planned under k. */
  ghost predicate SaysOf(names: Naming, lines: seq<Line>, i: nat, k: Key) {
    PlannedUnder(names, lines, i, k) && lines[i].record.shape.facts != []
  }

  /** A line planned under k whose record was put under q, as a copy or not. */
  ghost predicate PutsUnder(names: Naming, lines: seq<Line>, i: nat, k: Key, copy: bool, q: Key) {
    && PlannedUnder(names, lines, i, k)
    && var r := lines[i].record;
       r.origin.Some? == copy && r.parent.Some? && Current(names, lines, i, r.parent.value) == q
  }

  /** The assistant wrote line i in message m: the one it names, or its own. */
  ghost predicate WritesIn(names: Naming, lines: seq<Line>, i: nat, k: Key, m: Message) {
    && SaysOf(names, lines, i, k)
    && var writer := lines[i].record.writer;
       writer == Assistant(Some(m)) || (writer == Assistant(None) && m == names.own(k))
  }

  /** Somebody wrote something under k, in these n lines. */
  ghost predicate Wrote(names: Naming, lines: seq<Line>, n: nat, k: Key, writer: Writer) {
    exists i: nat | i < n :: SaysOf(names, lines, i, k) && lines[i].record.writer == writer
  }

  /** k's record is an act of the least message the assistant wrote it in; if the
      assistant did not write it, it is inside a message as soon as the harness
      did, and a prompt where only the user did. */
  ghost predicate FlowByWriters(names: Naming, lines: seq<Line>, n: nat, k: Key, flow: Option<Flow>) {
    match flow
    case Some(Act(m)) =>
      && (exists i: nat | i < n :: WritesIn(names, lines, i, k, m))
      && (forall i: nat, m' | i < n && WritesIn(names, lines, i, k, m') :: m <= m')
    case Some(Inside) =>
      (forall i: nat, m | i < n :: !WritesIn(names, lines, i, k, m)) && Wrote(names, lines, n, k, Harness)
    case Some(Prompt) =>
      && (forall i: nat | i < n && SaysOf(names, lines, i, k) :: lines[i].record.writer == User)
      && Wrote(names, lines, n, k, User)
    case None =>
      forall i: nat | i < n :: !SaysOf(names, lines, i, k)
  }

  // ------------------------------------------------------------------ proofs

  /** What line i shows of k. */
  ghost predicate Showing(names: Naming, lines: seq<Line>, i: nat, k: Key, o: Observation) {
    && PlannedUnder(names, lines, i, k)
    && (o.content <==> SaysOf(names, lines, i, k))
    && (o.turnDuration <==> lines[i].record.turnDuration)
    && (o.nonTurnDuration <==> !lines[i].record.turnDuration)
    && (forall q :: q in o.parents <==> PutsUnder(names, lines, i, k, false, q))
    && (forall q :: q in o.replayParents <==> PutsUnder(names, lines, i, k, true, q))
    && (forall s :: s in o.shapes <==> SaysOf(names, lines, i, k) && lines[i].record.shape == s)
    && FlowOfLine(names, lines, i, k, o.flow)
  }

  ghost predicate FlowOfLine(names: Naming, lines: seq<Line>, i: nat, k: Key, flow: Option<Flow>)
    requires PlannedUnder(names, lines, i, k)
  {
    && (flow.Some? <==> SaysOf(names, lines, i, k))
    && (forall m :: flow == Some(Act(m)) <==> WritesIn(names, lines, i, k, m))
    && (flow == Some(Inside) <==> SaysOf(names, lines, i, k) && lines[i].record.writer == Harness)
    && (flow == Some(Prompt) <==> SaysOf(names, lines, i, k) && lines[i].record.writer == User)
  }

  lemma LineShowing(names: Naming, lines: seq<Line>, i: nat, k: Key)
    requires PlannedUnder(names, lines, i, k)
    ensures Showing(names, lines, i, k, LineShows(names, lines, i))
  {
    hide KeyAt, Current;
  }

  /** The parts are what the lines planned under k show, one by one. */
  ghost predicate PartsOfLines(names: Naming, lines: seq<Line>, n: nat, k: Key, parts: set<Observation>) {
    && (forall o | o in parts :: SomeLine(names, lines, n, k, o))
    && (forall i: nat | i < n && PlannedUnder(names, lines, i, k) ::
          exists o | o in parts :: Showing(names, lines, i, k, o))
  }

  ghost predicate SomeLine(names: Naming, lines: seq<Line>, n: nat, k: Key, o: Observation) {
    exists i: nat | i < n :: Showing(names, lines, i, k, o)
  }

  lemma ShowsLines(names: Naming, lines: seq<Line>, n: nat, k: Key)
    requires n <= |lines|
    ensures PartsOfLines(names, lines, n, k, Shows(names, lines, n, k))
  {
    hide LineShows, Showing, PlannedUnder;
    var parts := Shows(names, lines, n, k);
    forall o | o in parts ensures SomeLine(names, lines, n, k, o) {
      SomePart(names, lines, n, k, o);
    }
    forall i: nat | i < n && PlannedUnder(names, lines, i, k)
      ensures exists o | o in parts :: Showing(names, lines, i, k, o)
    {
      PlannedLine(names, lines, i, k);
      LineShowing(names, lines, i, k);
      assert LineShows(names, lines, i) in parts;
    }
  }

  lemma PlannedLine(names: Naming, lines: seq<Line>, i: nat, k: Key)
    requires PlannedUnder(names, lines, i, k)
    ensures i < |lines| && Keyed(lines[i])
  {
  }

  lemma SomePart(names: Naming, lines: seq<Line>, n: nat, k: Key, o: Observation)
    requires n <= |lines| && o in Shows(names, lines, n, k)
    ensures SomeLine(names, lines, n, k, o)
  {
    hide LineShows, Showing;
    var i: nat :| i < n && PlannedUnder(names, lines, i, k) && o == LineShows(names, lines, i);
    LineShowing(names, lines, i, k);
  }

  lemma FlowShown(names: Naming, lines: seq<Line>, n: nat, k: Key, parts: set<Observation>, flow: Option<Flow>)
    requires PartsOfLines(names, lines, n, k, parts) && LeastFlow(parts, flow)
    ensures FlowByWriters(names, lines, n, k, flow)
  {
    hide SaysOf, LeFlow, FlowByWriters, PartsOfLines, LeastFlow, AtMost, PlannedUnder;
    forall i: nat | i < n && SaysOf(names, lines, i, k)
      ensures flow.Some? && AtMost(names, lines, i, k, flow.value)
    {
      FlowBelow(names, lines, n, k, parts, flow, i);
    }
    if flow.Some? {
      var i := FlowLine(names, lines, n, k, parts, flow.value);
      LeastByWriters(names, lines, n, k, flow.value, i);
    } else {
      NoFlow(names, lines, n, k);
    }
  }

  lemma NoFlow(names: Naming, lines: seq<Line>, n: nat, k: Key)
    requires forall i: nat | i < n :: !SaysOf(names, lines, i, k)
    ensures FlowByWriters(names, lines, n, k, None)
  {
  }

  /** Line i shows no lesser flow. */
  ghost predicate AtMost(names: Naming, lines: seq<Line>, i: nat, k: Key, flow: Flow) {
    && PlannedUnder(names, lines, i, k)
    && exists f :: FlowOfLine(names, lines, i, k, Some(f)) && LeFlow(flow, f)
  }

  lemma FlowBelow(names: Naming, lines: seq<Line>, n: nat, k: Key, parts: set<Observation>, flow: Option<Flow>,
                  i: nat)
    requires PartsOfLines(names, lines, n, k, parts) && LeastFlow(parts, flow)
    requires i < n && SaysOf(names, lines, i, k)
    ensures flow.Some? && AtMost(names, lines, i, k, flow.value)
  {
    SaysPlanned(names, lines, i, k);
    hide SaysOf, LeFlow, PlannedUnder, SomeLine, Showing, FlowOfLine;
    var o :| o in parts && Showing(names, lines, i, k, o);
    ShowingFlow(names, lines, i, k, o);
  }

  lemma ShowingFlow(names: Naming, lines: seq<Line>, i: nat, k: Key, o: Observation)
    requires Showing(names, lines, i, k, o) && SaysOf(names, lines, i, k)
    ensures PlannedUnder(names, lines, i, k) && o.flow.Some? && FlowOfLine(names, lines, i, k, Some(o.flow.value))
  {
  }

  lemma FlowLine(names: Naming, lines: seq<Line>, n: nat, k: Key, parts: set<Observation>, flow: Flow)
      returns (i: nat)
    requires PartsOfLines(names, lines, n, k, parts) && LeastFlow(parts, Some(flow))
    ensures i < n && PlannedUnder(names, lines, i, k) && FlowOfLine(names, lines, i, k, Some(flow))
  {
    hide SaysOf, LeFlow, PlannedUnder, FlowOfLine;
    var o :| o in parts && o.flow == Some(flow);
    assert SomeLine(names, lines, n, k, o);
    i :| i < n && Showing(names, lines, i, k, o);
  }

  lemma SaysPlanned(names: Naming, lines: seq<Line>, i: nat, k: Key)
    requires SaysOf(names, lines, i, k)
    ensures PlannedUnder(names, lines, i, k)
  {
  }

  lemma LeastByWriters(names: Naming, lines: seq<Line>, n: nat, k: Key, flow: Flow, i: nat)
    requires i < n && PlannedUnder(names, lines, i, k) && FlowOfLine(names, lines, i, k, Some(flow))
    requires forall j: nat | j < n && SaysOf(names, lines, j, k) :: AtMost(names, lines, j, k, flow)
    ensures FlowByWriters(names, lines, n, k, Some(flow))
  {
    hide KeyAt, Current;
    forall j: nat | j < n && SaysOf(names, lines, j, k)
      ensures flow.Inside? ==> forall m :: !WritesIn(names, lines, j, k, m)
      ensures flow.Prompt? ==> lines[j].record.writer == User
      ensures forall m | WritesIn(names, lines, j, k, m) :: flow.Act? && flow.message <= m
    {
      assert AtMost(names, lines, j, k, flow);
      var f :| FlowOfLine(names, lines, j, k, Some(f)) && LeFlow(flow, f);
    }
  }

  /** The scan of a file says of each key exactly what the lines planned under it
      show: whether they have content, whether they are telemetry, where they were
      put and where their replay was, what they say, and who wrote them. */
  lemma ShownExactly(names: Naming, lines: seq<Line>, n: nat, scan: PreScan, k: Key)
    requires n <= |lines| && Scanned(names, lines, n, scan) && k in scan.sources
    ensures var o := scan.sources[k];
            && (o.content <==> exists i: nat | i < n :: SaysOf(names, lines, i, k))
            && (o.turnDuration <==>
                  exists i: nat | i < n :: PlannedUnder(names, lines, i, k) && lines[i].record.turnDuration)
            && (o.nonTurnDuration <==>
                  exists i: nat | i < n :: PlannedUnder(names, lines, i, k) && !lines[i].record.turnDuration)
            && (forall q :: q in o.parents <==> exists i: nat | i < n :: PutsUnder(names, lines, i, k, false, q))
            && (forall q :: q in o.replayParents <==> exists i: nat | i < n :: PutsUnder(names, lines, i, k, true, q))
            && (forall s :: s in o.shapes <==>
                  exists i: nat | i < n :: SaysOf(names, lines, i, k) && lines[i].record.shape == s)
            && FlowByWriters(names, lines, n, k, o.flow)
  {
    hide LineShows, Shows, SaysOf, PlannedUnder, PutsUnder, FlowByWriters, LeastFlow, PartsOfLines;
    var parts := Shows(names, lines, n, k);
    ShowsLines(names, lines, n, k);
    FlowShown(names, lines, n, k, parts, scan.sources[k].flow);
    FlagsShown(names, lines, n, parts, scan.sources[k], k);
    SetsShown(names, lines, n, parts, scan.sources[k], k);
  }

  lemma FlagsShown(names: Naming, lines: seq<Line>, n: nat, parts: set<Observation>, o: Observation, k: Key)
    requires Sums(parts, o) && PartsOfLines(names, lines, n, k, parts)
    ensures o.content <==> exists i: nat | i < n :: SaysOf(names, lines, i, k)
    ensures o.turnDuration <==>
              exists i: nat | i < n :: PlannedUnder(names, lines, i, k) && lines[i].record.turnDuration
    ensures o.nonTurnDuration <==>
              exists i: nat | i < n :: PlannedUnder(names, lines, i, k) && !lines[i].record.turnDuration
  {
    hide LeastFlow, PutsUnder, FlowOfLine;
    if i: nat :| i < n && SaysOf(names, lines, i, k) {
      assert PlannedUnder(names, lines, i, k);
    }
  }

  lemma SetsShown(names: Naming, lines: seq<Line>, n: nat, parts: set<Observation>, o: Observation, k: Key)
    requires Sums(parts, o) && PartsOfLines(names, lines, n, k, parts)
    ensures forall q :: q in o.parents <==> exists i: nat | i < n :: PutsUnder(names, lines, i, k, false, q)
    ensures forall q :: q in o.replayParents <==> exists i: nat | i < n :: PutsUnder(names, lines, i, k, true, q)
    ensures forall s :: s in o.shapes <==>
              exists i: nat | i < n :: SaysOf(names, lines, i, k) && lines[i].record.shape == s
  {
    hide LeastFlow, FlowOfLine;
    forall q ensures q in o.parents <==> exists i: nat | i < n :: PutsUnder(names, lines, i, k, false, q) {
      if i: nat :| i < n && PutsUnder(names, lines, i, k, false, q) {
        assert PlannedUnder(names, lines, i, k);
      }
    }
    forall q ensures q in o.replayParents <==> exists i: nat | i < n :: PutsUnder(names, lines, i, k, true, q) {
      if i: nat :| i < n && PutsUnder(names, lines, i, k, true, q) {
        assert PlannedUnder(names, lines, i, k);
      }
    }
    forall s ensures s in o.shapes <==>
                     exists i: nat | i < n :: SaysOf(names, lines, i, k) && lines[i].record.shape == s {
      if i: nat :| i < n && SaysOf(names, lines, i, k) && lines[i].record.shape == s {
        assert PlannedUnder(names, lines, i, k);
      }
    }
  }
}
