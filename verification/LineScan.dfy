/** The two scanners of a Codex rollout's lines: one reads a file buffer by
    buffer, the other walks the newlines of a frozen mapping. */
module LineScans {
  import opened Base
  import opened Bytes

  const NEWLINE: byte := 10

  /** One delivered line: its number, from 1, and its bytes without the newline. */
  datatype Visit = Visit(line: nat, raw: seq<byte>)

  datatype LineScan = LineScan(completeBytes: nat, recordsSeen: nat)

  datatype ScanError = Shrank | Refused(visit: Visit)

  function TrimmedStart(raw: seq<byte>): seq<byte> {
    if raw != [] && Space(raw[0]) then TrimmedStart(raw[1..]) else raw
  }

  function TrimmedEnd(raw: seq<byte>): seq<byte> {
    if raw != [] && Space(raw[|raw| - 1]) then TrimmedEnd(raw[..|raw| - 1]) else raw
  }

  /** The bytes without whitespace at either end. */
  function Trimmed(raw: seq<byte>): seq<byte> {
    TrimmedEnd(TrimmedStart(raw))
  }

  predicate BlankLine(raw: seq<byte>) {
    Trimmed(raw) == []
  }

  /** Nothing but whitespace. */
  ghost predicate AllWhite(raw: seq<byte>) {
    forall b | b in raw :: b in {9, 10, 12, 13, 32}
  }

  /** No whitespace at either end. */
  ghost predicate Tight(raw: seq<byte>) {
    raw != [] ==> raw[0] !in {9, 10, 12, 13, 32} && raw[|raw| - 1] !in {9, 10, 12, 13, 32}
  }

  /** All before i and all from j on is whitespace, and what lies between is tight. */
  ghost predicate Trims(raw: seq<byte>, i: nat, j: nat) {
    i <= j <= |raw| && AllWhite(raw[..i]) && AllWhite(raw[j..]) && Tight(raw[i..j])
  }

  lemma {:induction false} StartTrimmed(raw: seq<byte>) returns (i: nat)
    ensures i <= |raw| && TrimmedStart(raw) == raw[i..] && AllWhite(raw[..i])
    ensures i < |raw| ==> !Space(raw[i])
  {
    i := 0;
    if raw != [] && Space(raw[0]) {
      var rest := StartTrimmed(raw[1..]);
      i := rest + 1;
      assert raw[..i] == [raw[0]] + raw[1..][..rest];
    }
  }

  lemma {:induction false} EndTrimmed(raw: seq<byte>) returns (j: nat)
    ensures j <= |raw| && TrimmedEnd(raw) == raw[..j] && AllWhite(raw[j..])
    ensures j > 0 ==> !Space(raw[j - 1])
    decreases |raw|
  {
    j := |raw|;
    hide AllWhite;
    if raw != [] && Space(raw[j - 1]) {
      var shorter := raw[..j - 1];
      j := EndTrimmed(shorter);
      WhiteToEnd(raw, j);
      assert raw[..j] == shorter[..j];
    } else {
      NoneWhite();
      assert raw[..j] == raw && raw[j..] == [];
    }
  }

  lemma NoneWhite()
    ensures AllWhite([])
  {
  }

  lemma WhiteToEnd(raw: seq<byte>, j: nat)
    requires raw != [] && Space(raw[|raw| - 1]) && j < |raw| && AllWhite(raw[..|raw| - 1][j..])
    ensures AllWhite(raw[j..])
  {
    var white := raw[..|raw| - 1][j..];
    assert raw[j..] == white + [raw[|raw| - 1]];
  }

  /** Trimming strips exactly the whitespace at the two ends. */
  lemma TrimsBothEnds(raw: seq<byte>) returns (i: nat, j: nat)
    ensures Trims(raw, i, j) && Trimmed(raw) == raw[i..j]
  {
    i := StartTrimmed(raw);
    var rest := raw[i..];
    var n := EndTrimmed(rest);
    j := i + n;
    assert rest[..n] == raw[i..j] && rest[n..] == raw[j..];
  }

  /** There is one way to do so. */
  lemma OneTrim(raw: seq<byte>, i: nat, j: nat, i': nat, j': nat)
    requires Trims(raw, i, j) && Trims(raw, i', j')
    ensures raw[i..j] == raw[i'..j']
  {
    if i < j && i' < j' {
      TrimStartsEarlier(raw, i, j, i', j');
      TrimStartsEarlier(raw, i', j', i, j);
    } else if i < j {
      TrimmedAway(raw, i, i', j');
    } else if i' < j' {
      TrimmedAway(raw, i', i, j);
    }
  }

  lemma TrimStartsEarlier(raw: seq<byte>, i: nat, j: nat, i': nat, j': nat)
    requires Trims(raw, i, j) && Trims(raw, i', j') && i < j && i' < j'
    ensures i <= i' && j' <= j
  {
    TightEnds(raw, i', j');
    hide Trims;
    if i' < i {
      TrimmedAway(raw, i', i, j);
    }
    if j < j' {
      TrimmedAway(raw, j' - 1, i, j);
    }
  }

  lemma TightEnds(raw: seq<byte>, i: nat, j: nat)
    requires Trims(raw, i, j) && i < j
    ensures j <= |raw| && raw[i] !in {9, 10, 12, 13, 32} && raw[j - 1] !in {9, 10, 12, 13, 32}
  {
    assert raw[i] == raw[i..j][0] && raw[j - 1] == raw[i..j][j - i - 1];
  }

  lemma TrimmedAway(raw: seq<byte>, k: nat, i: nat, j: nat)
    requires Trims(raw, i, j) && k < |raw| && (k < i || j <= k)
    ensures raw[k] in {9, 10, 12, 13, 32}
  {
    if k < i {
      assert raw[..i][k] in raw[..i];
    } else {
      assert raw[j..][k - j] in raw[j..];
    }
  }

  /** A line is blank exactly if it holds nothing but whitespace. */
  lemma BlankIffWhite(raw: seq<byte>)
    ensures BlankLine(raw) <==> AllWhite(raw)
  {
    var i, j := TrimsBothEnds(raw);
    if i >= j {
      forall b | b in raw ensures b in {9, 10, 12, 13, 32} {
        var k :| 0 <= k < |raw| && raw[k] == b;
        TrimmedAway(raw, k, i, j);
      }
    } else {
      assert raw[i] == raw[i..j][0] && raw[i] in raw;
    }
  }

  /** Strip whitespace first from the start and then from the end. */
  method TrimAsciiWhitespace(raw: seq<byte>) returns (trimmed: seq<byte>)
    ensures trimmed == Trimmed(raw)
    ensures trimmed == [] <==> BlankLine(raw)
    ensures trimmed == [] <==> AllWhite(raw)
  {
    BlankIffWhite(raw);
    trimmed := raw;
    while trimmed != [] && Space(trimmed[0])
      invariant TrimmedStart(trimmed) == TrimmedStart(raw)
      decreases |trimmed|
    {
      trimmed := trimmed[1..];
    }
    while trimmed != [] && Space(trimmed[|trimmed| - 1])
      invariant TrimmedEnd(trimmed) == Trimmed(raw)
      decreases |trimmed|
    {
      trimmed := trimmed[..|trimmed| - 1];
    }
  }

  /** The first newline from p on, or the end. */
  function NextNewline(bytes: seq<byte>, p: nat): (e: nat)
    requires p <= |bytes|
    ensures p <= e <= |bytes|
    ensures forall i | p <= i < e :: bytes[i] != NEWLINE
    ensures e < |bytes| ==> bytes[e] == NEWLINE
    decreases |bytes| - p
  {
    if p == |bytes| || bytes[p] == NEWLINE then p else NextNewline(bytes, p + 1)
  }

  /** The complete lines from p on, without their newlines. */
  function LinesFrom(bytes: seq<byte>, p: nat): seq<seq<byte>>
    requires p <= |bytes|
    decreases |bytes| - p
  {
    var e := NextNewline(bytes, p);
    if e == |bytes| then [] else [bytes[p..e]] + LinesFrom(bytes, e + 1)
  }

  /** Where the complete prefix ends. */
  function CompleteFrom(bytes: seq<byte>, p: nat): (c: nat)
    requires p <= |bytes|
    ensures p <= c <= |bytes|
    decreases |bytes| - p
  {
    var e := NextNewline(bytes, p);
    if e == |bytes| then p else CompleteFrom(bytes, e + 1)
  }

  /** The lines with their newlines, put together. */
  function Joined(lines: seq<seq<byte>>): seq<byte> {
    if lines == [] then [] else lines[0] + [NEWLINE] + Joined(lines[1..])
  }

  predicate NoNewline(raw: seq<byte>) {
    forall b | b in raw :: b != NEWLINE
  }

  lemma {:induction false} ReassembledFrom(bytes: seq<byte>, p: nat)
    requires p <= |bytes|
    ensures Joined(LinesFrom(bytes, p)) + bytes[CompleteFrom(bytes, p)..] == bytes[p..]
    decreases |bytes| - p
  {
    hide Joined;
    var e := NextNewline(bytes, p);
    if e < |bytes| {
      ReassembledFrom(bytes, e + 1);
      JoinedCons(bytes[p..e], LinesFrom(bytes, e + 1));
      PutBefore(bytes[p..e], Joined(LinesFrom(bytes, e + 1)), bytes[CompleteFrom(bytes, p)..]);
      CutAt(bytes, p, e);
    } else {
      NothingJoined(bytes[p..]);
    }
  }

  lemma PutBefore(line: seq<byte>, joined: seq<byte>, rest: seq<byte>)
    ensures line + [NEWLINE] + joined + rest == line + [NEWLINE] + (joined + rest)
  {
  }

  lemma CutAt(bytes: seq<byte>, p: nat, e: nat)
    requires p <= e < |bytes|
    ensures bytes[p..] == bytes[p..e] + [bytes[e]] + bytes[e + 1..]
  {
  }

  lemma NothingJoined(rest: seq<byte>)
    ensures Joined([]) + rest == rest
  {
  }

  lemma JoinedCons(line: seq<byte>, lines: seq<seq<byte>>)
    ensures Joined([line] + lines) == line + [NEWLINE] + Joined(lines)
  {
    assert ([line] + lines)[1..] == lines;
  }

  lemma {:induction false} CleanLines(bytes: seq<byte>, p: nat)
    requires p <= |bytes|
    ensures NoNewline(bytes[CompleteFrom(bytes, p)..])
    ensures forall line | line in LinesFrom(bytes, p) :: NoNewline(line)
    decreases |bytes| - p
  {
    hide NoNewline;
    UpToNewline(bytes, p);
    if NextNewline(bytes, p) < |bytes| {
      CleanLines(bytes, NextNewline(bytes, p) + 1);
    }
  }

  lemma UpToNewline(bytes: seq<byte>, p: nat)
    requires p <= |bytes|
    ensures NoNewline(bytes[p..NextNewline(bytes, p)])
    ensures NextNewline(bytes, p) == |bytes| ==> NoNewline(bytes[p..])
  {
  }

  /** Lines, newlines and trailing bytes reassemble the file. */
  lemma Reassembled(bytes: seq<byte>)
    ensures Joined(LinesFrom(bytes, 0)) + bytes[CompleteFrom(bytes, 0)..] == bytes
    ensures NoNewline(bytes[CompleteFrom(bytes, 0)..])
    ensures forall line | line in LinesFrom(bytes, 0) :: NoNewline(line)
  {
    ReassembledFrom(bytes, 0);
    CleanLines(bytes, 0);
    assert bytes[0..] == bytes;
  }

  lemma NewlineAt(bytes: seq<byte>, p: nat, line: seq<byte>)
    requires p + |line| < |bytes| && bytes[p..p + |line|] == line && NoNewline(line) && bytes[p + |line|] == NEWLINE
    ensures NextNewline(bytes, p) == p + |line|
  {
    forall i | p <= i < p + |line| ensures bytes[i] != NEWLINE {
      assert bytes[i] == bytes[p..p + |line|][i - p];
      assert bytes[i] in line;
    }
  }

  lemma FirstLine(bytes: seq<byte>, p: nat, lines: seq<seq<byte>>, rest: seq<byte>)
    requires p <= |bytes| && lines != [] && NoNewline(lines[0]) && Joined(lines) + rest == bytes[p..]
    ensures var e := p + |lines[0]|;
            && e < |bytes| && NextNewline(bytes, p) == e && bytes[p..e] == lines[0]
            && Joined(lines[1..]) + rest == bytes[e + 1..]
  {
    hide Joined, NoNewline;
    var line, more := lines[0], Joined(lines[1..]) + rest;
    FirstPart(lines, rest);
    SplitOff(line, more, bytes[p..]);
    TailSlices(bytes, p, p + |line|);
    NewlineAt(bytes, p, line);
  }

  lemma FirstPart(lines: seq<seq<byte>>, rest: seq<byte>)
    requires lines != []
    ensures Joined(lines) + rest == lines[0] + [NEWLINE] + (Joined(lines[1..]) + rest)
  {
    PutBefore(lines[0], Joined(lines[1..]), rest);
  }

  lemma SplitOff(line: seq<byte>, more: seq<byte>, tail: seq<byte>)
    requires tail == line + [NEWLINE] + more
    ensures |line| < |tail| && tail[..|line|] == line && tail[|line|] == NEWLINE && tail[|line| + 1..] == more
  {
  }

  lemma TailSlices(bytes: seq<byte>, p: nat, e: nat)
    requires p <= e < |bytes|
    ensures bytes[p..][..e - p] == bytes[p..e] && bytes[p..][e - p] == bytes[e] &&
            bytes[p..][e - p + 1..] == bytes[e + 1..]
  {
  }

  lemma NoLine(bytes: seq<byte>, p: nat)
    requires p <= |bytes| && NoNewline(bytes[p..])
    ensures NextNewline(bytes, p) == |bytes|
  {
    forall i | p <= i < |bytes| ensures bytes[i] != NEWLINE {
      assert bytes[i] == bytes[p..][i - p];
      assert bytes[i] in bytes[p..];
    }
  }

  lemma LastPart(bytes: seq<byte>, p: nat, rest: seq<byte>)
    requires p <= |bytes| && NoNewline(rest) && Joined([]) + rest == bytes[p..]
    ensures NextNewline(bytes, p) == |bytes| && rest == bytes[p..]
  {
    NothingJoined(rest);
    NoLine(bytes, p);
  }

  /** No other cut into lines without newlines reassembles it. */
  lemma {:induction false} OneSplit(bytes: seq<byte>, p: nat, lines: seq<seq<byte>>, rest: seq<byte>)
    requires p <= |bytes| && Joined(lines) + rest == bytes[p..]
    requires NoNewline(rest) && forall line | line in lines :: NoNewline(line)
    ensures lines == LinesFrom(bytes, p) && rest == bytes[CompleteFrom(bytes, p)..]
    decreases |lines|
  {
    hide NoNewline, Joined;
    if lines == [] {
      LastPart(bytes, p, rest);
    } else {
      FirstLine(bytes, p, lines, rest);
      assert [lines[0]] + lines[1..] == lines;
      OneSplit(bytes, p + |lines[0]| + 1, lines[1..], rest);
    }
  }

  // --------------------------------------------------------------- delivery

  datatype Delivery = Delivery(visits: seq<Visit>, refused: Option<Visit>)

  /** What the visitor sees of the lines, the first of them being line `number`:
      every line that is not blank, up to the first it refuses. */
  function Deliver(lines: seq<seq<byte>>, number: nat, accepts: Visit -> bool): Delivery {
    if lines == [] then Delivery([], None)
    else if BlankLine(lines[0]) then Deliver(lines[1..], number + 1, accepts)
    else
      var v := Visit(number, lines[0]);
      if !accepts(v) then Delivery([v], Some(v))
      else
        var more := Deliver(lines[1..], number + 1, accepts);
        Delivery([v] + more.visits, more.refused)
  }

  /** What a scan of these bytes comes to. */
  ghost predicate Scans(bytes: seq<byte>, accepts: Visit -> bool, visits: seq<Visit>,
                        result: Result<LineScan, ScanError>) {
    var delivered := Deliver(LinesFrom(bytes, 0), 1, accepts);
    && visits == delivered.visits
    && result == match delivered.refused
                 case Some(v) => Err(Refused(v))
                 case None => Ok(LineScan(CompleteFrom(bytes, 0), |visits|))
  }

  /** The visits already made and those to come make all the visits. */
  ghost predicate SoFar(bytes: seq<byte>, accepts: Visit -> bool, p: nat, line: nat, visits: seq<Visit>)
    requires p <= |bytes|
  {
    var all := Deliver(LinesFrom(bytes, 0), 1, accepts);
    var rest := Deliver(LinesFrom(bytes, p), line + 1, accepts);
    && all.visits == visits + rest.visits && all.refused == rest.refused
    && CompleteFrom(bytes, 0) == CompleteFrom(bytes, p)
  }

  lemma StepOver(bytes: seq<byte>, accepts: Visit -> bool, p: nat, line: nat, visits: seq<Visit>)
    requires p <= |bytes| && SoFar(bytes, accepts, p, line, visits) && NextNewline(bytes, p) < |bytes|
    ensures var e := NextNewline(bytes, p);
            var raw := bytes[p..e];
            var v := Visit(line + 1, raw);
            if BlankLine(raw) then SoFar(bytes, accepts, e + 1, line + 1, visits)
            else if accepts(v) then SoFar(bytes, accepts, e + 1, line + 1, visits + [v])
            else Scans(bytes, accepts, visits + [v], Err(Refused(v)))
  {
    hide BlankLine;
    var e := NextNewline(bytes, p);
    assert LinesFrom(bytes, p)[1..] == LinesFrom(bytes, e + 1);
  }

  lemma StepEnd(bytes: seq<byte>, accepts: Visit -> bool, p: nat, line: nat, visits: seq<Visit>)
    requires p <= |bytes| && SoFar(bytes, accepts, p, line, visits) && NextNewline(bytes, p) == |bytes|
    ensures Scans(bytes, accepts, visits, Ok(LineScan(p, |visits|)))
  {
    assert visits + [] == visits;
  }

  lemma StepStart(bytes: seq<byte>, accepts: Visit -> bool)
    ensures SoFar(bytes, accepts, 0, 0, [])
  {
  }

  /** Read up to and including the next newline. */
  method ReadUntilNewline(bytes: seq<byte>, p: nat) returns (buffer: seq<byte>)
    requires p <= |bytes|
    ensures var e := NextNewline(bytes, p);
            buffer == if e < |bytes| then bytes[p..e + 1] else bytes[p..]
  {
    buffer := [];
    var at := p;
    while at < |bytes|
      invariant p <= at <= |bytes| && buffer == bytes[p..at]
      invariant NextNewline(bytes, p) == NextNewline(bytes, at)
    {
      buffer := buffer + [bytes[at]];
      if bytes[at] == NEWLINE {
        return;
      }
      at := at + 1;
    }
  }

  /** Scan the first `limit` bytes of a file, buffer by buffer; `observed` is all
      that went into the digest. */
  method ScanPrefix(file: seq<byte>, limit: nat, accepts: Visit -> bool)
      returns (visits: seq<Visit>, result: Result<LineScan, ScanError>, observed: seq<byte>)
    ensures |file| < limit ==> result == Err(Shrank) && visits == []
    ensures |file| >= limit ==> Scans(file[..limit], accepts, visits, result)
    ensures result.Ok? ==> observed == file[..limit]
  {
    hide SoFar, Scans, BlankLine, LinesFrom, CompleteFrom;
    visits, observed := [], [];
    if |file| < limit {
      return [], Err(Shrank), [];
    }
    var bytes := file[..limit];
    var line, complete, seen := 0, 0, 0;
    var at := 0;
    StepStart(bytes, accepts);
    while true
      invariant complete == at <= |bytes| && observed == bytes[..at] && seen == |visits|
      invariant SoFar(bytes, accepts, at, line, visits)
      decreases |bytes| - at
    {
      var buffer := ReadUntilNewline(bytes, at);
      if buffer == [] {
        StepEnd(bytes, accepts, at, line, visits);
        break;
      }
      observed := observed + buffer;
      if buffer[|buffer| - 1] != NEWLINE {
        StepEnd(bytes, accepts, at, line, visits);
        break;
      }
      StepOver(bytes, accepts, at, line, visits);
      assert buffer[..|buffer| - 1] == bytes[at..NextNewline(bytes, at)];
      line := line + 1;
      complete := complete + |buffer|;
      at := complete;
      var raw := buffer[..|buffer| - 1];
      var trimmed := TrimAsciiWhitespace(raw);
      if trimmed == [] {
        continue;
      }
      seen := seen + 1;
      var v := Visit(line, raw);
      visits := visits + [v];
      if !accepts(v) {
        return visits, Err(Refused(v)), observed;
      }
    }
    result := Ok(LineScan(complete, seen));
  }

  /** The positions of the newlines from p on. */
  function Newlines(bytes: seq<byte>, p: nat): seq<nat>
    requires p <= |bytes|
    decreases |bytes| - p
  {
    var e := NextNewline(bytes, p);
    if e == |bytes| then [] else [e] + Newlines(bytes, e + 1)
  }

  /** Scan a frozen mapping, newline by newline. */
  method ScanFrozenPrefix(frozen: seq<byte>, accepts: Visit -> bool)
      returns (visits: seq<Visit>, result: Result<LineScan, ScanError>)
    ensures Scans(frozen, accepts, visits, result)
  {
    visits := [];
    var line, start, seen := 0, 0, 0;
    var newlines := Newlines(frozen, 0);
    StepStart(frozen, accepts);
    for i := 0 to |newlines|
      invariant start <= |frozen| && newlines[i..] == Newlines(frozen, start) && seen == |visits|
      invariant SoFar(frozen, accepts, start, line, visits)
    {
      hide SoFar, Scans, BlankLine;
      var newline := newlines[i];
      assert newline == newlines[i..][0] && newlines[i..][1..] == newlines[i + 1..];
      StepOver(frozen, accepts, start, line, visits);
      line := line + 1;
      var raw := frozen[start..newline];
      start := newline + 1;
      var trimmed := TrimAsciiWhitespace(raw);
      if trimmed == [] {
        continue;
      }
      seen := seen + 1;
      var v := Visit(line, raw);
      visits := visits + [v];
      if !accepts(v) {
        return visits, Err(Refused(v));
      }
    }
    StepEnd(frozen, accepts, start, line, visits);
    result := Ok(LineScan(start, seen));
  }

  /** One file, one scan: whatever fits the description is the same. */
  lemma ScannersAgree(bytes: seq<byte>, accepts: Visit -> bool, visits: seq<Visit>, result: Result<LineScan, ScanError>,
                      visits': seq<Visit>, result': Result<LineScan, ScanError>)
    requires Scans(bytes, accepts, visits, result) && Scans(bytes, accepts, visits', result')
    ensures visits == visits' && result == result'
  {
  }

  /** The first n lines are blank or accepted. */
  ghost predicate Passes(lines: seq<seq<byte>>, number: nat, accepts: Visit -> bool, n: int) {
    forall i: nat | i < n && i < |lines| :: BlankLine(lines[i]) || accepts(Visit(number + i, lines[i]))
  }

  lemma PassesCons(lines: seq<seq<byte>>, number: nat, accepts: Visit -> bool, n: int)
    requires lines != [] && n > 0
    ensures Passes(lines, number, accepts, n) <==>
            (BlankLine(lines[0]) || accepts(Visit(number, lines[0]))) && Passes(lines[1..], number + 1, accepts, n - 1)
  {
    hide BlankLine;
    if Passes(lines, number, accepts, n) {
      assert BlankLine(lines[0]) || accepts(Visit(number + 0, lines[0]));
      forall i: nat | i < n - 1 && i < |lines| - 1
        ensures BlankLine(lines[1..][i]) || accepts(Visit(number + 1 + i, lines[1..][i]))
      {
        assert lines[1..][i] == lines[i + 1];
      }
    }
    if (BlankLine(lines[0]) || accepts(Visit(number, lines[0]))) && Passes(lines[1..], number + 1, accepts, n - 1) {
      forall i: nat | i < n && i < |lines| ensures BlankLine(lines[i]) || accepts(Visit(number + i, lines[i])) {
        if i > 0 {
          assert lines[1..][i - 1] == lines[i];
        }
      }
    }
  }

  /** Exactly the lines that are not blank are delivered, each under its number,
      up to the first that is refused. */
  lemma {:induction false} DeliveredExactly(lines: seq<seq<byte>>, number: nat, accepts: Visit -> bool, v: Visit)
    ensures v in Deliver(lines, number, accepts).visits <==>
            && number <= v.line < number + |lines| && lines[v.line - number] == v.raw && !BlankLine(v.raw)
            && Passes(lines, number, accepts, v.line - number)
    decreases |lines|
  {
    hide BlankLine, Passes;
    if lines != [] {
      DeliveredExactly(lines[1..], number + 1, accepts, v);
      if v.line > number {
        PassesCons(lines, number, accepts, v.line - number);
      } else {
        NonePasses(lines, number, accepts, v.line - number);
      }
    }
  }

  lemma NonePasses(lines: seq<seq<byte>>, number: nat, accepts: Visit -> bool, n: int)
    requires n <= 0
    ensures Passes(lines, number, accepts, n)
  {
  }

  /** Visits in line order, none before line `number`. */
  ghost predicate InLineOrder(visits: seq<Visit>, number: nat) {
    && (forall v | v in visits :: number <= v.line)
    && (forall a, b | 0 <= a < b < |visits| :: visits[a].line < visits[b].line)
  }

  lemma InLineOrderCons(v: Visit, visits: seq<Visit>)
    requires InLineOrder(visits, v.line + 1)
    ensures InLineOrder([v] + visits, v.line)
  {
    forall a, b | 0 <= a < b < |[v] + visits| ensures ([v] + visits)[a].line < ([v] + visits)[b].line {
      assert ([v] + visits)[b] == visits[b - 1];
      assert visits[b - 1] in visits;
    }
  }

  lemma {:induction false} DeliveredInOrder(lines: seq<seq<byte>>, number: nat, accepts: Visit -> bool)
    ensures InLineOrder(Deliver(lines, number, accepts).visits, number)
    decreases |lines|
  {
    hide BlankLine, InLineOrder;
    if lines == [] {
      NoVisits(number);
    } else {
      var rest := Deliver(lines[1..], number + 1, accepts).visits;
      DeliveredInOrder(lines[1..], number + 1, accepts);
      InLineOrderCons(Visit(number, lines[0]), rest);
      InLineOrderEarlier(rest, number);
      NoVisits(number + 1);
      InLineOrderCons(Visit(number, lines[0]), []);
      assert [Visit(number, lines[0])] + [] == [Visit(number, lines[0])];
    }
  }

  lemma NoVisits(number: nat)
    ensures InLineOrder([], number)
  {
  }

  lemma InLineOrderEarlier(visits: seq<Visit>, number: nat)
    requires InLineOrder(visits, number + 1)
    ensures InLineOrder(visits, number)
  {
  }

  /** A delivery is refused by the first line that does not pass, and only then. */
  lemma {:induction false} RefusedFirst(lines: seq<seq<byte>>, number: nat, accepts: Visit -> bool)
    ensures var refused := Deliver(lines, number, accepts).refused;
            && (refused.None? ==> Passes(lines, number, accepts, |lines|))
            && (refused.Some? ==>
                  var n := refused.value.line - number;
                  && 0 <= n < |lines| && refused.value.raw == lines[n]
                  && !BlankLine(lines[n]) && !accepts(refused.value) && Passes(lines, number, accepts, n))
    decreases |lines|
  {
    hide BlankLine, Passes;
    NonePasses(lines, number, accepts, 0);
    if lines != [] {
      RefusedFirst(lines[1..], number + 1, accepts);
      var more := Deliver(lines[1..], number + 1, accepts).refused;
      PassesCons(lines, number, accepts, if more.Some? then more.value.line - number else |lines|);
    }
  }

  /** The last line a scan came to. */
  function LastLine(lines: seq<seq<byte>>, result: Result<LineScan, ScanError>): nat {
    match result
    case Ok(_) => |lines|
    case Err(Refused(v)) => v.line
    case Err(Shrank) => 0
  }

  lemma PassesUpTo(lines: seq<seq<byte>>, number: nat, accepts: Visit -> bool, m: nat, n: nat)
    requires Passes(lines, number, accepts, n) && (m <= n || |lines| <= n)
    ensures Passes(lines, number, accepts, m)
  {
    hide BlankLine;
  }

  lemma PassesAt(lines: seq<seq<byte>>, number: nat, accepts: Visit -> bool, n: nat, i: nat)
    requires Passes(lines, number, accepts, n) && i < n && i < |lines|
    ensures BlankLine(lines[i]) || accepts(Visit(number + i, lines[i]))
  {
    hide BlankLine;
  }

  /** The lines before line n + 1 pass exactly if the scan came to it. */
  lemma PassesIff(lines: seq<seq<byte>>, accepts: Visit -> bool, refused: Option<Visit>, n: nat)
    requires n < |lines| && refused == Deliver(lines, 1, accepts).refused
    ensures Passes(lines, 1, accepts, n) <==> refused.None? || n < refused.value.line
  {
    hide BlankLine, Passes, Deliver;
    RefusedFirst(lines, 1, accepts);
    if refused.None? {
      PassesUpTo(lines, 1, accepts, n, |lines|);
    } else {
      var last := refused.value.line - 1;
      assert refused.value == Visit(1 + last, lines[last]);
      if n <= last {
        PassesUpTo(lines, 1, accepts, n, last);
      } else if Passes(lines, 1, accepts, n) {
        PassesAt(lines, 1, accepts, n, last);
      }
    }
  }

  /** A scan visits, in order and each under its number, every complete line that
      holds more than whitespace, and no other line: all of them where no visitor
      refuses, and otherwise those up to the one refused. */
  lemma VisitsExactly(bytes: seq<byte>, accepts: Visit -> bool, visits: seq<Visit>, result: Result<LineScan, ScanError>)
    requires Scans(bytes, accepts, visits, result)
    ensures var lines := LinesFrom(bytes, 0);
            && (forall v :: v in visits <==>
                  && 1 <= v.line <= LastLine(lines, result) && v.line <= |lines|
                  && v.raw == lines[v.line - 1] && !AllWhite(v.raw))
            && (forall a, b | 0 <= a < b < |visits| :: visits[a].line < visits[b].line)
            && (forall v | v in visits :: accepts(v) <==> result != Err(Refused(v)))
            && (result.Ok? ==> result.value == LineScan(CompleteFrom(bytes, 0), |visits|))
  {
    hide LinesFrom, CompleteFrom, AllWhite, BlankLine, Passes, Deliver;
    var lines := LinesFrom(bytes, 0);
    DeliveredInOrder(lines, 1, accepts);
    RefusedFirst(lines, 1, accepts);
    forall v ensures v in visits <==>
      && 1 <= v.line <= LastLine(lines, result) && v.line <= |lines|
      && v.raw == lines[v.line - 1] && !AllWhite(v.raw)
    {
      BlankIffWhite(v.raw);
      DeliveredExactly(lines, 1, accepts, v);
      if 1 <= v.line <= |lines| {
        PassesIff(lines, accepts, Deliver(lines, 1, accepts).refused, v.line - 1);
      }
    }
    forall v | v in visits ensures accepts(v) <==> result != Err(Refused(v)) {
      VisitAccepted(lines, accepts, v);
    }
  }

  lemma VisitAccepted(lines: seq<seq<byte>>, accepts: Visit -> bool, v: Visit)
    requires v in Deliver(lines, 1, accepts).visits
    ensures accepts(v) <==> Deliver(lines, 1, accepts).refused != Some(v)
  {
    hide BlankLine, Deliver, Passes;
    RefusedFirst(lines, 1, accepts);
    DeliveredExactly(lines, 1, accepts, v);
    var refused, i := Deliver(lines, 1, accepts).refused, v.line - 1;
    assert v == Visit(1 + i, lines[i]);
    if refused.None? {
      PassesAt(lines, 1, accepts, |lines|, i);
    } else if refused != Some(v) {
      PassesIff(lines, accepts, refused, i);
      assert i != refused.value.line - 1;
      PassesAt(lines, 1, accepts, refused.value.line - 1, i);
    }
  }
}
