/** Importing a directory of transcripts: scan every file, plan once, project every
    file again. Once the plan stands, no projection can fail. */
module Imports {
  import opened Base
  import opened Nodes
  import opened Plans
  import opened PreScans
  import opened SecondPass
  import DisjointSets

  datatype SourceFile = SourceFile(lines: seq<Line>, finished: bool)

  /** What stops an import; there is no error of the second pass. */
  datatype ImportError = ScanFailed(file: nat, unreadable: ScanError) | PlanFailed(unplannable: PlanError)

  /** Each file's scan, in order. */
  ghost predicate ScansOf(names: Naming, files: seq<SourceFile>, scans: seq<PreScan>) {
    |scans| <= |files| && forall i | 0 <= i < |scans| :: ScanOf(names, files[i], scans[i])
  }

  ghost predicate ScanOf(names: Naming, file: SourceFile, scan: PreScan) {
    && Readable(file.lines, |file.lines|) && !MixesTelemetry(names, file.lines, |file.lines|)
    && Scanned(names, file.lines, |file.lines|, scan) && scan.finished == file.finished
  }

  /** Every line of every file makes what the plan lists for its class, or nothing. */
  ghost predicate Emits(names: Naming, files: seq<SourceFile>, plan: Plan, emitted: seq<seq<seq<Node>>>) {
    |emitted| == |files| && forall f | 0 <= f < |files| :: FileEmits(names, files[f].lines, plan, emitted[f])
  }

  ghost predicate FileEmits(names: Naming, lines: seq<Line>, plan: Plan, emitted: seq<seq<Node>>) {
    |emitted| == |lines| && forall i | 0 <= i < |lines| :: emitted[i] == Planned(names, lines, plan, i)
  }

  /** Nothing the scans name exceeds the machine's index range. */
  ghost predicate Fits(names: Naming, files: seq<SourceFile>) {
    forall scans | ScansOf(names, files, scans) :: |Named(scans)| <= DisjointSets.USIZE_MAX
  }

  ghost predicate PlanOf(names: Naming, files: seq<SourceFile>, scans: seq<PreScan>, r: Result<Plan, PlanError>) {
    |scans| == |files| && ScansOf(names, files, scans) && Outcome(scans, r)
  }

  /** The chain is what some line of some file makes. */
  ghost predicate EmittedSomewhere(emitted: seq<seq<seq<Node>>>, chain: seq<Node>) {
    exists f, i | 0 <= f < |emitted| && 0 <= i < |emitted[f]| :: emitted[f][i] == chain
  }

  /** Every line makes what the plan lists for it, and all the plan lists is made. */
  ghost predicate Imported(names: Naming, files: seq<SourceFile>, emitted: seq<seq<seq<Node>>>) {
    exists scans, plan :: PlanOf(names, files, scans, Ok(plan)) && Emits(names, files, plan, emitted)
      && forall c | c in plan.nodes :: EmittedSomewhere(emitted, plan.nodes[c])
  }

  /** Nothing that was planned is left out. */
  lemma ChainEmitted(names: Naming, files: seq<SourceFile>, scans: seq<PreScan>, plan: Plan,
                     emitted: seq<seq<seq<Node>>>, c: Key)
    requires PlanOf(names, files, scans, Ok(plan)) && Emits(names, files, plan, emitted) && c in plan.nodes
    ensures EmittedSomewhere(emitted, plan.nodes[c])
  {
    hide Comes, Scanned, KeyAt, Readable, MixesTelemetry;
    var w :| Comes(scans, w, Ok(plan));
    var s, k := EveryNodeEmitted(scans, w, plan, c);
    var f :| 0 <= f < |scans| && scans[f] == s;
    assert ScanOf(names, files[f], s);
    var lines := files[f].lines;
    ContentIffSpoken(names, lines, s, k);
    var i: nat :| i < |lines| && SpeaksFor(names, lines, i, k);
    assert FileEmits(names, lines, plan, emitted[f]);
    assert emitted[f][i] == Planned(names, lines, plan, i);
  }

  /** Scan every file. */
  method ScanFiles(names: Naming, files: seq<SourceFile>) returns (result: Result<seq<PreScan>, (nat, ScanError)>)
    ensures result.Ok? ==> |result.value| == |files| && ScansOf(names, files, result.value)
    ensures result.Err? ==> result.error.0 < |files| && CannotScan(names, files[result.error.0])
  {
    hide Scanned, Readable, MixesTelemetry;
    var scans: seq<PreScan> := [];
    for f := 0 to |files|
      invariant |scans| == f && ScansOf(names, files, scans)
    {
      var scanned := PrescanReader(names, files[f].lines, files[f].finished);
      if scanned.Err? {
        return Err((f, scanned.error));
      }
      scans := scans + [scanned.value];
    }
    result := Ok(scans);
  }

  ghost predicate CannotScan(names: Naming, file: SourceFile) {
    forall scan :: !ScanOf(names, file, scan)
  }

  /** Project every file under the plan. */
  method ProjectFiles(names: Naming, files: seq<SourceFile>, scans: seq<PreScan>, plan: Plan)
      returns (emitted: seq<seq<seq<Node>>>)
    requires PlanOf(names, files, scans, Ok(plan))
    ensures Emits(names, files, plan, emitted)
  {
    hide ScanOf, Outcome, WellScanned, FileEmits;
    ScansWell(names, files, scans);
    emitted := [];
    for f := 0 to |files|
      invariant |emitted| == f && forall g | 0 <= g < f :: FileEmits(names, files[g].lines, plan, emitted[g])
    {
      var nodes := ProjectPlanned(names, files[f], scans, f, plan);
      emitted := emitted + [nodes];
    }
  }

  /** Import a directory. */
  method ProjectDirectory(names: Naming, files: seq<SourceFile>)
      returns (result: Result<seq<seq<seq<Node>>>, ImportError>)
    requires Fits(names, files)
    ensures match result
            case Err(ScanFailed(f, _)) => f < |files| && CannotScan(names, files[f])
            case Err(PlanFailed(error)) => exists scans :: PlanOf(names, files, scans, Err(error))
            case Ok(emitted) => Imported(names, files, emitted)
  {
    hide Outcome, WellScanned, Emits, ScansOf, CannotScan, EmittedSomewhere;
    var scanned := ScanFiles(names, files);
    if scanned.Err? {
      return Err(ScanFailed(scanned.error.0, scanned.error.1));
    }
    var scans := scanned.value;
    ScansWell(names, files, scans);
    var planned := Build(scans);
    assert PlanOf(names, files, scans, planned);
    if planned.Err? {
      return Err(PlanFailed(planned.error));
    }
    var emitted := ProjectFiles(names, files, scans, planned.value);
    forall c | c in planned.value.nodes ensures EmittedSomewhere(emitted, planned.value.nodes[c]) {
      ChainEmitted(names, files, scans, planned.value, emitted, c);
    }
    assert Imported(names, files, emitted);
    result := Ok(emitted);
  }

  lemma ScansWell(names: Naming, files: seq<SourceFile>, scans: seq<PreScan>)
    requires ScansOf(names, files, scans)
    ensures forall s | s in scans :: WellScanned(s)
  {
    hide Scanned, WellScanned;
    forall s | s in scans ensures WellScanned(s) {
      var i :| 0 <= i < |scans| && scans[i] == s;
      ScanIsWell(names, files[i].lines, s);
    }
  }

  /** Project one planned file. */
  method ProjectPlanned(names: Naming, file: SourceFile, scans: seq<PreScan>, f: nat, plan: Plan)
      returns (emitted: seq<seq<Node>>)
    requires (forall s | s in scans :: WellScanned(s)) && Outcome(scans, Ok(plan))
    requires f < |scans| && ScanOf(names, file, scans[f])
    ensures FileEmits(names, file.lines, plan, emitted)
  {
    hide Scanned, WellScanned, Comes, LineRealised, Planned;
    ghost var w :| Comes(scans, w, Ok(plan));
    forall i: nat, nodes | i < |file.lines|
      ensures LineRealised(plan, scans[f], file.lines, i, nodes) <==> nodes == Planned(names, file.lines, plan, i)
    {
      SecondPassRealises(names, file.lines, scans, w, plan, scans[f], i, nodes);
    }
    forall i: nat | i < |file.lines| ensures !Unrealisable(plan, scans[f], file.lines, i) {
      assert LineRealised(plan, scans[f], file.lines, i, Planned(names, file.lines, plan, i));
    }
    var projected := ProjectFile(file.lines, scans[f], plan);
    emitted := projected.value;
  }
}
