/** Reading one transcript file before planning: which key every line is planned
    under, and what the scan says of each key. */
module PreScans {
  import opened Base
  import opened Nodes
  import opened Placements
  import opened Observations
  import opened Plans

  /** Who wrote a record: the assistant, in a message that may have an id; the
      user; or the harness (a user record that answers a tool call, too). */
  datatype Writer = Assistant(message: Option<Message>) | User | Harness

  datatype Record = Record(
    key: Option<Key>,      // absent without a session or a uuid
    parent: Option<Key>,
    origin: Option<Key>,   // the record a fork copied
    turnDuration: bool,
    shape: Shape,
    writer: Writer)

  datatype Line = Blank | Broken | Row(record: Record)

  /** The two derived names: of a further version of a uuid, from what it says;
      and of the message of an assistant record that names none. */
  datatype Naming = Naming(version: (Key, seq<Fact>) -> Key, own: Key -> Message)

  datatype ScanError = Unreadable(line: nat) | ContentTelemetry(key: Key)

  /** A record without facts has no content. */
  function Content(r: Record): Option<Shape> {
    if r.shape.facts == [] then None else Some(r.shape)
  }

  predicate Keyed(line: Line) {
    line.Row? && line.record.key.Some?
  }

  function RawKey(line: Line): Key
    requires Keyed(line)
  {
    line.record.key.value
  }

  predicate Speaks(line: Line) {
    Keyed(line) && Content(line.record).Some?
  }

  // ------------------------------------------------- the keys, by definition

  /** What the uuid said first, among the first n lines. */
  function FirstSaid(lines: seq<Line>, n: nat, k: Key): Option<seq<Fact>>
    requires n <= |lines|
  {
    if n == 0 then None
    else
      var before := FirstSaid(lines, n - 1, k);
      if before.None? && Speaks(lines[n - 1]) && RawKey(lines[n - 1]) == k then Some(lines[n - 1].record.shape.facts)
      else before
  }

  /** The key of a version: its uuid's own for the first, a derived one for every other. */
  function VersionKey(names: Naming, first: Option<seq<Fact>>, k: Key, facts: seq<Fact>): Key {
    if first.None? || first.value == facts then k else names.version(k, facts)
  }

  /** The key line i is planned under. */
  function KeyAt(names: Naming, lines: seq<Line>, i: nat): Key
    requires i < |lines| && Keyed(lines[i])
    decreases i, 1
  {
    var k := RawKey(lines[i]);
    if Speaks(lines[i]) then VersionKey(names, FirstSaid(lines, i, k), k, lines[i].record.shape.facts)
    else Current(names, lines, i, k)
  }

  /** What a reference to k means after n lines: the version written last. */
  function Current(names: Naming, lines: seq<Line>, n: nat, k: Key): Key
    requires n <= |lines|
    decreases n, 0
  {
    if n == 0 then k
    else if Keyed(lines[n - 1]) && RawKey(lines[n - 1]) == k then KeyAt(names, lines, n - 1)
    else Current(names, lines, n - 1, k)
  }

  function FlowOf(names: Naming, r: Record, key: Key): Flow {
    match r.writer
    case Assistant(Some(m)) => Act(m)
    case Assistant(None) => Act(names.own(key))
    case User => Prompt
    case Harness => Inside
  }

  /** What one line adds to the observation of its key. */
  function LineShows(names: Naming, lines: seq<Line>, i: nat): Observation
    requires i < |lines| && Keyed(lines[i])
  {
    var r := lines[i].record;
    var placed := if r.parent.Some? then {Current(names, lines, i, r.parent.value)} else {};
    Observation(
      Speaks(lines[i]),
      r.turnDuration,
      !r.turnDuration,
      if r.origin.None? then placed else {},
      if r.origin.Some? then placed else {},
      if Speaks(lines[i]) then [r.shape] else [],
      if Speaks(lines[i]) then Some(FlowOf(names, r, KeyAt(names, lines, i))) else None)
  }

  predicate PlannedUnder(names: Naming, lines: seq<Line>, i: nat, k: Key) {
    i < |lines| && Keyed(lines[i]) && KeyAt(names, lines, i) == k
  }

  /** All that the first n lines show of k. */
  ghost function Shows(names: Naming, lines: seq<Line>, n: nat, k: Key): set<Observation>
    requires n <= |lines|
  {
    set i: nat | i < n && PlannedUnder(names, lines, i, k) :: LineShows(names, lines, i)
  }

  ghost predicate Met(names: Naming, lines: seq<Line>, n: nat, k: Key) {
    exists i: nat | i < n :: PlannedUnder(names, lines, i, k)
  }

  ghost predicate SourcesOf(names: Naming, lines: seq<Line>, n: nat, sources: map<Key, Observation>)
    requires n <= |lines|
  {
    && (forall k :: k in sources <==> Met(names, lines, n, k))
    && (forall k | k in sources :: Sums(Shows(names, lines, n, k), sources[k]))
  }

  predicate Copies(names: Naming, lines: seq<Line>, i: nat, e: (Key, Key)) {
    && i < |lines| && Keyed(lines[i]) && lines[i].record.origin.Some?
    && e == (KeyAt(names, lines, i), Current(names, lines, i, lines[i].record.origin.value))
  }

  ghost predicate AliasesOf(names: Naming, lines: seq<Line>, n: nat, aliases: set<(Key, Key)>) {
    forall e :: e in aliases <==> exists i: nat | i < n :: Copies(names, lines, i, e)
  }

  /** Line i (counted from 1 in the scan) is a further version of its uuid. */
  predicate FurtherVersion(names: Naming, lines: seq<Line>, i: nat) {
    i < |lines| && Keyed(lines[i]) && KeyAt(names, lines, i) != RawKey(lines[i])
  }

  predicate VersionAt(names: Naming, lines: seq<Line>, i: nat, k: Key) {
    FurtherVersion(names, lines, i) && k == KeyAt(names, lines, i)
  }

  ghost predicate VersionsOf(names: Naming, lines: seq<Line>, n: nat, versions: map<nat, Key>) {
    && (forall v | v in versions :: 0 < v <= n && VersionAt(names, lines, v - 1, versions[v]))
    && (forall i: nat | i < n && FurtherVersion(names, lines, i) :: i + 1 in versions)
  }

  predicate SpeaksFor(names: Naming, lines: seq<Line>, i: nat, k: Key) {
    PlannedUnder(names, lines, i, k) && Speaks(lines[i])
  }

  ghost predicate LastLinesOf(names: Naming, lines: seq<Line>, n: nat, last: map<Key, nat>) {
    && (forall k | k in last :: 0 < last[k] <= n && SpeaksFor(names, lines, last[k] - 1, k))
    && (forall i: nat, k | i < n && SpeaksFor(names, lines, i, k) :: k in last && i < last[k])
  }

  /** What the scan of a file says of its first n lines. */
  ghost predicate Scanned(names: Naming, lines: seq<Line>, n: nat, scan: PreScan)
    requires n <= |lines|
  {
    && SourcesOf(names, lines, n, scan.sources)
    && AliasesOf(names, lines, n, scan.aliases)
    && VersionsOf(names, lines, n, scan.versions)
    && LastLinesOf(names, lines, n, scan.lastLines)
  }

  /** A key with both content and turn-duration telemetry. */
  ghost predicate MixesTelemetry(names: Naming, lines: seq<Line>, n: nat) {
    exists i: nat, j: nat, k | i < n && j < n ::
      SpeaksFor(names, lines, i, k) && TelemetryFor(names, lines, j, k)
  }

  ghost predicate MixesKey(names: Naming, lines: seq<Line>, n: nat, k: Key) {
    exists i: nat, j: nat | i < n && j < n :: SpeaksFor(names, lines, i, k) && TelemetryFor(names, lines, j, k)
  }

  /** The first line that cannot stand is line n: it is unreadable, or with it a key
      becomes both content and telemetry. */
  ghost predicate StopsAt(names: Naming, lines: seq<Line>, n: nat, error: ScanError) {
    && n < |lines| && Readable(lines, n) && !MixesTelemetry(names, lines, n)
    && match error
       case Unreadable(line) => lines[n].Broken? && line == n + 1
       case ContentTelemetry(k) => !lines[n].Broken? && MixesKey(names, lines, n + 1, k)
  }

  predicate TelemetryFor(names: Naming, lines: seq<Line>, i: nat, k: Key) {
    PlannedUnder(names, lines, i, k) && lines[i].record.turnDuration
  }

  ghost predicate Readable(lines: seq<Line>, n: nat)
    requires n <= |lines|
  {
    forall i | 0 <= i < n :: !lines[i].Broken?
  }

  // -------------------------------------------------------------- the reading

  /** A version the reader met: what it says, and its key. */
  type Version = (seq<Fact>, Key)

  ghost predicate KnownVersions(names: Naming, lines: seq<Line>, n: nat, versions: map<Key, seq<Version>>)
    requires n <= |lines|
  {
    && (forall k :: FirstSaid(lines, n, k).Some? <==> k in versions && versions[k] != [])
    && (forall k | k in versions && versions[k] != [] :: versions[k][0].0 == FirstSaid(lines, n, k).value)
    && (forall k, v | k in versions && v in versions[k] :: v.1 == VersionKey(names, FirstSaid(lines, n, k), k, v.0))
  }

  ghost predicate KnownCurrent(names: Naming, lines: seq<Line>, n: nat, current: map<Key, Key>)
    requires n <= |lines|
  {
    forall k :: Current(names, lines, n, k) == if k in current then current[k] else k
  }

  method FindVersion(seen: seq<Version>, facts: seq<Fact>) returns (found: Option<Key>)
    ensures found.Some? ==> (facts, found.value) in seen
    ensures found.None? ==> forall v | v in seen :: v.0 != facts
  {
    for i := 0 to |seen|
      invariant forall v | v in seen[..i] :: v.0 != facts
    {
      TakeNext(seen, i);
      if seen[i].0 == facts {
        return Some(seen[i].1);
      }
    }
    TakeAll(seen);
    found := None;
  }

  /** The key of a line with content, and the versions known after it. */
  method ChooseVersion(names: Naming, versions: map<Key, seq<Version>>, raw: Key, facts: seq<Fact>)
      returns (key: Key, known: map<Key, seq<Version>>)
    ensures var seen := if raw in versions then versions[raw] else [];
            if exists v | v in seen :: v.0 == facts then (facts, key) in seen && known == versions[raw := seen]
            else key == (if seen == [] then raw else names.version(raw, facts))
                 && known == versions[raw := seen + [(facts, key)]]
  {
    var seen := if raw in versions then versions[raw] else [];
    var found := FindVersion(seen, facts);
    if found.Some? {
      assert (facts, found.value).0 == facts;
      return found.value, versions[raw := seen];
    }
    key := if seen == [] then raw else names.version(raw, facts);
    known := versions[raw := seen + [(facts, key)]];
  }

  lemma FirstSaidNext(lines: seq<Line>, n: nat, k: Key)
    requires n < |lines|
    ensures FirstSaid(lines, n + 1, k) ==
            if FirstSaid(lines, n, k).None? && Speaks(lines[n]) && RawKey(lines[n]) == k
            then Some(lines[n].record.shape.facts)
            else FirstSaid(lines, n, k)
  {
  }

  lemma ChooseNext(names: Naming, lines: seq<Line>, n: nat, versions: map<Key, seq<Version>>, key: Key,
                   known: map<Key, seq<Version>>)
    requires n < |lines| && Speaks(lines[n]) && KnownVersions(names, lines, n, versions)
    requires var raw := RawKey(lines[n]);
             var facts := lines[n].record.shape.facts;
             var seen := if raw in versions then versions[raw] else [];
             if exists v | v in seen :: v.0 == facts then (facts, key) in seen && known == versions[raw := seen]
             else key == (if seen == [] then raw else names.version(raw, facts))
                  && known == versions[raw := seen + [(facts, key)]]
    ensures key == KeyAt(names, lines, n) && KnownVersions(names, lines, n + 1, known)
  {
    hide FirstSaid, Current;
    var raw := RawKey(lines[n]);
    var facts := lines[n].record.shape.facts;
    var seen := if raw in versions then versions[raw] else [];
    forall k ensures FirstSaid(lines, n + 1, k) ==
                     if FirstSaid(lines, n, k).None? && raw == k then Some(facts) else FirstSaid(lines, n, k) {
      FirstSaidNext(lines, n, k);
    }
    if seen != [] {
      assert seen[0] in seen;
    }
    assert forall k, v | k in known && v in known[k] && k != raw :: v in versions[k];
    forall v | v in known[raw] ensures v.1 == VersionKey(names, FirstSaid(lines, n + 1, raw), raw, v.0) {
      if v in seen {
        assert v in versions[raw];
      }
    }
  }

  // ------------------------------------------------------------- one more line

  lemma ShowsNext(names: Naming, lines: seq<Line>, n: nat, k: Key)
    requires n < |lines|
    ensures Shows(names, lines, n + 1, k) ==
            Shows(names, lines, n, k) + (if PlannedUnder(names, lines, n, k) then {LineShows(names, lines, n)} else {})
  {
    hide KeyAt, LineShows;
    forall o
      ensures o in Shows(names, lines, n + 1, k) <==>
              o in Shows(names, lines, n, k) || (PlannedUnder(names, lines, n, k) && o == LineShows(names, lines, n))
    {
      if o in Shows(names, lines, n + 1, k) {
        var i: nat :| i < n + 1 && PlannedUnder(names, lines, i, k) && LineShows(names, lines, i) == o;
      }
    }
  }

  lemma MetNext(names: Naming, lines: seq<Line>, n: nat, k: Key)
    ensures Met(names, lines, n + 1, k) <==> Met(names, lines, n, k) || PlannedUnder(names, lines, n, k)
  {
    hide PlannedUnder;
    if i: nat :| i < n + 1 && PlannedUnder(names, lines, i, k) {
      assert i < n || i == n;
    }
  }

  lemma SourcesNext(names: Naming, lines: seq<Line>, n: nat, sources: map<Key, Observation>)
    requires n < |lines| && Keyed(lines[n]) && SourcesOf(names, lines, n, sources)
    ensures var key := KeyAt(names, lines, n);
            SourcesOf(names, lines, n + 1,
                      sources[key := Add(if key in sources then sources[key] else UNSEEN, LineShows(names, lines, n))])
  {
    hide KeyAt, LineShows, Sums, Add, Shows, Met;
    var key := KeyAt(names, lines, n);
    var next := sources[key := Add(if key in sources then sources[key] else UNSEEN, LineShows(names, lines, n))];
    forall k ensures k in next <==> Met(names, lines, n + 1, k) {
      MetNext(names, lines, n, k);
    }
    forall k | k in next ensures Sums(Shows(names, lines, n + 1, k), next[k]) {
      ShowsNext(names, lines, n, k);
      MetNext(names, lines, n, k);
      if k == key {
        if k !in sources {
          NothingShown(names, lines, n, k);
          NothingSums();
        }
        SumsMore(Shows(names, lines, n, k), if k in sources then sources[k] else UNSEEN, LineShows(names, lines, n));
      } else {
        assert Shows(names, lines, n, k) + {} == Shows(names, lines, n, k);
      }
    }
  }

  lemma NothingShown(names: Naming, lines: seq<Line>, n: nat, k: Key)
    requires n <= |lines| && !Met(names, lines, n, k)
    ensures Shows(names, lines, n, k) == {}
  {
  }

  lemma AliasesNext(names: Naming, lines: seq<Line>, n: nat, aliases: set<(Key, Key)>, more: set<(Key, Key)>)
    requires n < |lines| && AliasesOf(names, lines, n, aliases)
    requires forall e :: e in more <==> e in aliases || Copies(names, lines, n, e)
    ensures AliasesOf(names, lines, n + 1, more)
  {
    hide Copies;
    forall e ensures e in more <==> exists i: nat | i < n + 1 :: Copies(names, lines, i, e) {
      if e in aliases {
        var i: nat :| i < n && Copies(names, lines, i, e);
      }
    }
  }

  lemma VersionAdded(names: Naming, lines: seq<Line>, n: nat, versions: map<nat, Key>)
    requires VersionsOf(names, lines, n, versions) && FurtherVersion(names, lines, n)
    ensures VersionsOf(names, lines, n + 1, versions[n + 1 := KeyAt(names, lines, n)])
  {
    var key := KeyAt(names, lines, n);
    assert VersionAt(names, lines, n, key);
    hide KeyAt, FurtherVersion, VersionAt;
  }

  lemma VersionKept(names: Naming, lines: seq<Line>, n: nat, versions: map<nat, Key>)
    requires VersionsOf(names, lines, n, versions) && !FurtherVersion(names, lines, n)
    ensures VersionsOf(names, lines, n + 1, versions)
  {
    hide FurtherVersion, VersionAt;
  }

  lemma SpeaksForAt(names: Naming, lines: seq<Line>, n: nat, k: Key)
    requires n < |lines|
    ensures SpeaksFor(names, lines, n, k) <==> Speaks(lines[n]) && k == KeyAt(names, lines, n)
  {
  }

  lemma LastLinesNext(names: Naming, lines: seq<Line>, n: nat, last: map<Key, nat>, more: map<Key, nat>)
    requires n < |lines| && LastLinesOf(names, lines, n, last)
    requires Speaks(lines[n]) ==> more == last[KeyAt(names, lines, n) := n + 1]
    requires !Speaks(lines[n]) ==> more == last
    ensures LastLinesOf(names, lines, n + 1, more)
  {
    hide KeyAt, SpeaksFor;
    forall k ensures SpeaksFor(names, lines, n, k) <==> Speaks(lines[n]) && k == KeyAt(names, lines, n) {
      SpeaksForAt(names, lines, n, k);
    }
    forall i: nat, k | i < n + 1 && SpeaksFor(names, lines, i, k) ensures k in more && i < more[k] {
      if i < n {
        assert k in last && i < last[k];
      }
    }
  }

  lemma CurrentNext(names: Naming, lines: seq<Line>, n: nat, current: map<Key, Key>)
    requires n < |lines| && Keyed(lines[n]) && KnownCurrent(names, lines, n, current)
    ensures KnownCurrent(names, lines, n + 1, current[RawKey(lines[n]) := KeyAt(names, lines, n)])
  {
    hide KeyAt;
  }

  /** What the reader knows after n lines. */
  ghost predicate ReadUpTo(names: Naming, lines: seq<Line>, n: nat, scan: PreScan, versions: map<Key, seq<Version>>,
                           current: map<Key, Key>)
    requires n <= |lines|
  {
    && Scanned(names, lines, n, scan)
    && KnownVersions(names, lines, n, versions)
    && KnownCurrent(names, lines, n, current)
    && Readable(lines, n)
    && forall k | k in scan.sources :: !(scan.sources[k].content && scan.sources[k].turnDuration)
  }

  lemma NothingRead(names: Naming, lines: seq<Line>, finished: bool)
    ensures ReadUpTo(names, lines, 0, PreScan(map[], {}, finished, map[], map[]), map[], map[])
  {
  }

  /** A line without a key changes nothing. */
  lemma SkipLine(names: Naming, lines: seq<Line>, n: nat, scan: PreScan, versions: map<Key, seq<Version>>,
                 current: map<Key, Key>)
    requires n < |lines| && !Keyed(lines[n]) && !lines[n].Broken?
    requires ReadUpTo(names, lines, n, scan, versions, current)
    ensures ReadUpTo(names, lines, n + 1, scan, versions, current)
  {
    hide Sums, Shows, AliasesOf, VersionsOf, LastLinesOf;
    AliasesNext(names, lines, n, scan.aliases, scan.aliases);
    VersionKept(names, lines, n, scan.versions);
    LastLinesNext(names, lines, n, scan.lastLines, scan.lastLines);
    SkipSources(names, lines, n, scan.sources);
    SkipKnown(names, lines, n, versions, current);
  }

  lemma SkipSources(names: Naming, lines: seq<Line>, n: nat, sources: map<Key, Observation>)
    requires n < |lines| && !Keyed(lines[n]) && SourcesOf(names, lines, n, sources)
    ensures SourcesOf(names, lines, n + 1, sources)
  {
    hide KeyAt, LineShows, Sums, Shows, Met;
    forall k ensures Met(names, lines, n + 1, k) <==> Met(names, lines, n, k) {
      MetNext(names, lines, n, k);
    }
    forall k | k in sources ensures Shows(names, lines, n + 1, k) == Shows(names, lines, n, k) {
      ShowsNext(names, lines, n, k);
    }
  }

  lemma SkipKnown(names: Naming, lines: seq<Line>, n: nat, versions: map<Key, seq<Version>>, current: map<Key, Key>)
    requires n < |lines| && !Keyed(lines[n])
    requires KnownVersions(names, lines, n, versions) && KnownCurrent(names, lines, n, current)
    ensures KnownVersions(names, lines, n + 1, versions) && KnownCurrent(names, lines, n + 1, current)
  {
    forall k ensures FirstSaid(lines, n + 1, k) == FirstSaid(lines, n, k) {
      FirstSaidNext(lines, n, k);
    }
  }

  lemma KeepVersions(names: Naming, lines: seq<Line>, n: nat, versions: map<Key, seq<Version>>)
    requires n < |lines| && !Speaks(lines[n]) && KnownVersions(names, lines, n, versions)
    ensures KnownVersions(names, lines, n + 1, versions)
  {
    hide Speaks;
    forall k ensures FirstSaid(lines, n + 1, k) == FirstSaid(lines, n, k) {
      FirstSaidNext(lines, n, k);
    }
  }

  /** What the observation of a keyed line comes to, from the reader's own maps. */
  function Seen(names: Naming, r: Record, key: Key, current: map<Key, Key>): Observation {
    var resolved := if r.parent.None? then {}
        else {if r.parent.value in current then current[r.parent.value] else r.parent.value};
    Observation(
      Content(r).Some?,
      r.turnDuration,
      !r.turnDuration,
      if r.origin.None? then resolved else {},
      if r.origin.Some? then resolved else {},
      if Content(r).Some? then [r.shape] else [],
      if Content(r).Some? then Some(FlowOf(names, r, key)) else None)
  }

  lemma SeenIsShown(names: Naming, lines: seq<Line>, n: nat, current: map<Key, Key>)
    requires n < |lines| && Keyed(lines[n]) && KnownCurrent(names, lines, n, current)
    ensures Seen(names, lines[n].record, KeyAt(names, lines, n), current) == LineShows(names, lines, n)
  {
    hide KeyAt, Current;
  }

  /** The scan with one more line of `key`. */
  function Observed(names: Naming, scan: PreScan, r: Record, key: Key, n: nat, current: map<Key, Key>): PreScan
    requires r.key.Some?
  {
    var origin := if r.origin.None? then {}
                  else {(key, if r.origin.value in current then current[r.origin.value] else r.origin.value)};
    scan.(
      sources := scan.sources[key := Add(if key in scan.sources then scan.sources[key] else UNSEEN,
                                         Seen(names, r, key, current))],
      aliases := scan.aliases + origin,
      versions := if key != r.key.value then scan.versions[n + 1 := key] else scan.versions,
      lastLines := if Content(r).Some? then scan.lastLines[key := n + 1] else scan.lastLines)
  }

  lemma ObservedNext(names: Naming, lines: seq<Line>, n: nat, scan: PreScan, current: map<Key, Key>)
    requires n < |lines| && Keyed(lines[n]) && Scanned(names, lines, n, scan) && KnownCurrent(names, lines, n, current)
    ensures Scanned(names, lines, n + 1, Observed(names, scan, lines[n].record, KeyAt(names, lines, n), n, current))
  {
    hide KeyAt, Current, SourcesOf, AliasesOf, VersionsOf, LastLinesOf, LineShows, Seen;
    var key := KeyAt(names, lines, n);
    var next := Observed(names, scan, lines[n].record, key, n, current);
    SeenIsShown(names, lines, n, current);
    SourcesNext(names, lines, n, scan.sources);
    if FurtherVersion(names, lines, n) {
      VersionAdded(names, lines, n, scan.versions);
    } else {
      VersionKept(names, lines, n, scan.versions);
    }
    LastLinesNext(names, lines, n, scan.lastLines, next.lastLines);
    forall e ensures e in next.aliases <==> e in scan.aliases || Copies(names, lines, n, e) {
    }
    AliasesNext(names, lines, n, scan.aliases, next.aliases);
  }

  /** Mixed keys show in the observations. */
  lemma MixedObservation(names: Naming, lines: seq<Line>, n: nat, sources: map<Key, Observation>)
    requires n <= |lines| && SourcesOf(names, lines, n, sources)
    ensures MixesTelemetry(names, lines, n) <==>
            exists k | k in sources :: sources[k].content && sources[k].turnDuration
  {
    hide KeyAt;
    if i: nat, j: nat, k :| i < n && j < n && SpeaksFor(names, lines, i, k) && TelemetryFor(names, lines, j, k) {
      assert LineShows(names, lines, i) in Shows(names, lines, n, k);
      assert LineShows(names, lines, j) in Shows(names, lines, n, k);
      assert k in sources;
    }
    if k :| k in sources && sources[k].content && sources[k].turnDuration {
      MixedKey(names, lines, n, sources, k);
      MixesSome(names, lines, n, k);
    }
  }

  lemma MixedKey(names: Naming, lines: seq<Line>, n: nat, sources: map<Key, Observation>, k: Key)
    requires n <= |lines| && SourcesOf(names, lines, n, sources)
    requires k in sources && sources[k].content && sources[k].turnDuration
    ensures MixesKey(names, lines, n, k)
  {
    hide KeyAt;
    var o :| o in Shows(names, lines, n, k) && o.content;
    var o' :| o' in Shows(names, lines, n, k) && o'.turnDuration;
    var i: nat :| i < n && PlannedUnder(names, lines, i, k) && LineShows(names, lines, i) == o;
    var j: nat :| j < n && PlannedUnder(names, lines, j, k) && LineShows(names, lines, j) == o';
    assert SpeaksFor(names, lines, i, k) && TelemetryFor(names, lines, j, k);
  }

  lemma MixesSome(names: Naming, lines: seq<Line>, n: nat, k: Key)
    requires MixesKey(names, lines, n, k)
    ensures MixesTelemetry(names, lines, n)
  {
    hide SpeaksFor, TelemetryFor;
  }

  lemma MixedStays(names: Naming, lines: seq<Line>, n: nat, m: nat)
    requires n <= m && MixesTelemetry(names, lines, n)
    ensures MixesTelemetry(names, lines, m)
  {
    hide SpeaksFor, TelemetryFor;
  }

  lemma KeyOfSilent(names: Naming, lines: seq<Line>, n: nat)
    requires n < |lines| && Keyed(lines[n]) && !Speaks(lines[n])
    ensures KeyAt(names, lines, n) == Current(names, lines, n, RawKey(lines[n]))
  {
  }

  /** Which key a keyed line goes under. */
  method ChooseKey(names: Naming, ghost lines: seq<Line>, ghost n: nat, r: Record, versions: map<Key, seq<Version>>,
                   current: map<Key, Key>)
      returns (key: Key, known: map<Key, seq<Version>>)
    requires n < |lines| && Keyed(lines[n]) && lines[n].record == r
    requires KnownVersions(names, lines, n, versions) && KnownCurrent(names, lines, n, current)
    ensures key == KeyAt(names, lines, n) && KnownVersions(names, lines, n + 1, known)
  {
    hide KnownVersions, KeyAt, Current;
    var raw := r.key.value;
    var shape := Content(r);
    if shape.Some? {
      key, known := ChooseVersion(names, versions, raw, shape.value.facts);
      ChooseNext(names, lines, n, versions, key, known);
    } else {
      KeyOfSilent(names, lines, n);
      KeepVersions(names, lines, n, versions);
      key, known := if raw in current then current[raw] else raw, versions;
    }
  }

  /** Read one line with a key. */
  method ReadKeyed(names: Naming, ghost lines: seq<Line>, n: nat, r: Record, before: PreScan,
                   versions: map<Key, seq<Version>>, current: map<Key, Key>)
      returns (mixed: Option<Key>, scan: PreScan, known: map<Key, seq<Version>>, now: map<Key, Key>)
    requires n < |lines| && Keyed(lines[n]) && lines[n].record == r &&
             ReadUpTo(names, lines, n, before, versions, current)
    ensures mixed.Some? ==> MixesKey(names, lines, n + 1, mixed.value)
    ensures mixed.None? ==> ReadUpTo(names, lines, n + 1, scan, known, now) && scan.finished == before.finished
  {
    hide Scanned, KnownVersions, KnownCurrent, MixesTelemetry, MixesKey, Observed, KeyAt, SourcesOf;
    var key;
    key, known := ChooseKey(names, lines, n, r, versions, current);
    ObservedNext(names, lines, n, before, current);
    ObservedKeeps(names, before, r, key, n, current);
    scan := Observed(names, before, r, key, n, current);
    SourcesScanned(names, lines, n + 1, scan);
    CurrentNext(names, lines, n, current);
    now := current[r.key.value := key];
    mixed := None;
    if scan.sources[key].content && scan.sources[key].turnDuration {
      MixedKey(names, lines, n + 1, scan.sources, key);
      mixed := Some(key);
    }
  }

  lemma ReadClean(names: Naming, lines: seq<Line>, n: nat, scan: PreScan, versions: map<Key, seq<Version>>,
                  current: map<Key, Key>)
    requires n <= |lines| && ReadUpTo(names, lines, n, scan, versions, current)
    ensures Readable(lines, n) && Scanned(names, lines, n, scan) && !MixesTelemetry(names, lines, n)
  {
    hide KnownVersions, KnownCurrent, MixesTelemetry, AliasesOf, VersionsOf, LastLinesOf;
    MixedObservation(names, lines, n, scan.sources);
  }

  /** Read a file before planning. Fails exactly on an unreadable line or on a
      key that is both content and telemetry, whichever comes first. */
  method PrescanReader(names: Naming, lines: seq<Line>, finished: bool) returns (result: Result<PreScan, ScanError>)
    ensures result.Ok? <==> Readable(lines, |lines|) && !MixesTelemetry(names, lines, |lines|)
    ensures result.Ok? ==> Scanned(names, lines, |lines|, result.value) && result.value.finished == finished
    ensures result.Err? ==> exists n :: StopsAt(names, lines, n, result.error)
  {
    hide ReadUpTo, MixesTelemetry, MixesKey, Scanned;
    var scan := PreScan(map[], {}, finished, map[], map[]);
    var versions: map<Key, seq<Version>> := map[];
    var current: map<Key, Key> := map[];
    NothingRead(names, lines, finished);
    for n := 0 to |lines|
      invariant ReadUpTo(names, lines, n, scan, versions, current) && scan.finished == finished
    {
      if lines[n].Broken? {
        ReadClean(names, lines, n, scan, versions, current);
        assert StopsAt(names, lines, n, Unreadable(n + 1));
        return Err(Unreadable(n + 1));
      }
      if !Keyed(lines[n]) {
        SkipLine(names, lines, n, scan, versions, current);
        continue;
      }
      ReadClean(names, lines, n, scan, versions, current);
      var mixed;
      mixed, scan, versions, current := ReadKeyed(names, lines, n, lines[n].record, scan, versions, current);
      if mixed.Some? {
        MixesSome(names, lines, n + 1, mixed.value);
        MixedStays(names, lines, n + 1, |lines|);
        assert StopsAt(names, lines, n, ContentTelemetry(mixed.value));
        return Err(ContentTelemetry(mixed.value));
      }
    }
    ReadClean(names, lines, |lines|, scan, versions, current);
    result := Ok(scan);
  }

  lemma SourcesScanned(names: Naming, lines: seq<Line>, n: nat, scan: PreScan)
    requires n <= |lines| && Scanned(names, lines, n, scan)
    ensures SourcesOf(names, lines, n, scan.sources)
  {
  }

  lemma ObservedKeeps(names: Naming, scan: PreScan, r: Record, key: Key, n: nat, current: map<Key, Key>)
    requires r.key.Some?
    ensures var next := Observed(names, scan, r, key, n, current);
            && next.sources.Keys == scan.sources.Keys + {key} && next.finished == scan.finished
            && forall k | k in scan.sources && k != key :: next.sources[k] == scan.sources[k]
  {
    hide Add, Seen;
  }
}
