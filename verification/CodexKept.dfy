/** Which lines of a Codex rollout its main chain keeps, read off the lines. */
module CodexKept {
  import opened Base
  import opened CodexChains

  /** The parts of the record on this line. */
  function RecordParts(line: Line, hasEvents: bool): seq<Part> {
    match line.body
    case Nothing => []
    case Other(parts) => parts
    case Event(parts, _) => parts
    case Response(spoken, rest, _) => if hasEvents then rest else spoken + rest
  }

  /** Some response item shows the model this text. */
  ghost predicate Shown(lines: seq<Line>, t: Text) {
    exists line | line in lines :: line.body.Response? && t in line.body.says
  }

  ghost predicate HasText(parts: seq<Part>, t: Text) {
    exists p | p in parts :: p.text == Some(t)
  }

  /** A user-message event with text. */
  ghost predicate TextPrompt(line: Line) {
    line.body.Event? && line.body.prompt && exists p | p in line.body.parts :: p.text.Some?
  }

  /** Some text of this prompt is in no response item. */
  ghost predicate Untold(lines: seq<Line>, line: Line) {
    TextPrompt(line) && exists t: Text :: HasText(line.body.parts, t) && !Shown(lines, t)
  }

  /** A prompt with text, all of which the response items show. */
  ghost predicate Repeated(lines: seq<Line>, line: Line) {
    TextPrompt(line) && !Untold(lines, line)
  }

  ghost predicate HasOutput(line: Line, hasEvents: bool) {
    exists p | p in RecordParts(line, hasEvents) :: p.out
  }

  ghost predicate OutputAfter(lines: seq<Line>, hasEvents: bool, i: nat) {
    exists k | i < k < |lines| :: HasOutput(lines[k], hasEvents)
  }

  /** A prompt not told yet, with no output after it. */
  ghost predicate Waiting(lines: seq<Line>, hasEvents: bool, i: nat)
    requires i < |lines|
  {
    Untold(lines, lines[i]) && !OutputAfter(lines, hasEvents, i)
  }

  /** A waiting prompt, or what comes after one, in a live file with response items. */
  ghost predicate InLiveTail(lines: seq<Line>, hasEvents: bool, finished: bool, i: nat)
    requires i < |lines|
  {
    && !finished && (exists line | line in lines :: line.body.Response?)
    && exists j: nat | j <= i :: Waiting(lines, hasEvents, j)
  }

  /** The file has events, or some line's bytes speak of one. */
  ghost predicate SpeaksOfEvents(lines: seq<Line>) {
    exists line | line in lines :: line.mention || line.body.Event?
  }

  // ------------------------------------------------------------ line by line

  lemma {:induction false} TextsOfParts(parts: seq<Part>)
    ensures forall t :: t in PromptTexts(parts) <==> HasText(parts, t)
  {
    if parts != [] {
      TextsOfParts(parts[1..]);
      forall t ensures t in PromptTexts(parts) <==> HasText(parts, t) {
        assert parts == [parts[0]] + parts[1..];
        assert HasText(parts, t) <==> parts[0].text == Some(t) || HasText(parts[1..], t);
      }
    }
  }

  lemma PromptIff(line: Line, hasEvents: bool)
    ensures var e := EntryOf(line.body, hasEvents);
            && e.parts == RecordParts(line, hasEvents)
            && (Prompts(e) <==> TextPrompt(line))
            && (Prompts(e) ==> line.body.Event? && forall t :: t in e.prompt.value <==> HasText(line.body.parts, t))
  {
    hide HasText, PromptTexts;
    if line.body.Event? {
      var parts, texts := line.body.parts, PromptTexts(line.body.parts);
      TextsOfParts(parts);
      SomeText(parts);
      if texts != [] {
        assert texts[0] in texts;
      }
    }
  }

  lemma SomeText(parts: seq<Part>)
    ensures (exists p | p in parts :: p.text.Some?) <==> exists t :: HasText(parts, t)
  {
    if p :| p in parts && p.text.Some? {
      assert HasText(parts, p.text.value);
    }
  }

  lemma MirroredIff(lines: seq<Line>, line: Line, hasEvents: bool)
    ensures var e := EntryOf(line.body, hasEvents);
            && (Mirrored(e, Answers(lines)) <==> Repeated(lines, line))
            && (Prompts(e) && !Mirrored(e, Answers(lines)) <==> Untold(lines, line))
  {
    hide HasText, EntryOf;
    PromptIff(line, hasEvents);
    forall t ensures t in Answers(lines) <==> Shown(lines, t) {
    }
    hide Shown, Answers, TextPrompt, Prompts;
  }

  lemma OutputIff(lines: seq<Line>, hasEvents: bool, k: nat)
    requires k < |Entries(lines, hasEvents)| == |LineNumbers(lines, hasEvents)|
    requires LineNumbers(lines, hasEvents)[k] < |lines|
    ensures ProducedAfter(Entries(lines, hasEvents), k) <==>
            OutputAfter(lines, hasEvents, LineNumbers(lines, hasEvents)[k])
  {
    hide Entries, LineNumbers, EntryOf, RecordParts;
    NumbersHold(lines, hasEvents);
    var entries, numbers := Entries(lines, hasEvents), LineNumbers(lines, hasEvents);
    if j :| k < j < |entries| && Produces(entries[j]) {
      PromptIff(lines[numbers[j]], hasEvents);
      assert HasOutput(lines[numbers[j]], hasEvents);
    }
    if i :| numbers[k] < i < |lines| && HasOutput(lines[i], hasEvents) {
      var j := RecordOf(lines, hasEvents, i);
      PromptIff(lines[i], hasEvents);
      assert Produces(entries[j]);
      assert k < j;
    }
  }

  /** The number of the record on line i. */
  lemma RecordOf(lines: seq<Line>, hasEvents: bool, i: nat) returns (k: nat)
    requires i < |lines| && RecordParts(lines[i], hasEvents) != []
    ensures k < |Entries(lines, hasEvents)| == |LineNumbers(lines, hasEvents)|
    ensures LineNumbers(lines, hasEvents)[k] == i
  {
    hide Entries, LineNumbers, EntryOf, RecordParts;
    PromptIff(lines[i], hasEvents);
    EveryLineNumbered(lines, hasEvents, i);
    NumbersHold(lines, hasEvents);
    var numbers := LineNumbers(lines, hasEvents);
    k :| 0 <= k < |numbers| && numbers[k] == i;
  }

  lemma WaitingIff(lines: seq<Line>, hasEvents: bool, k: nat)
    requires k < |Entries(lines, hasEvents)| == |LineNumbers(lines, hasEvents)|
    requires LineNumbers(lines, hasEvents)[k] < |lines|
    ensures Undecided(Entries(lines, hasEvents), Answers(lines), k) <==>
            Waiting(lines, hasEvents, LineNumbers(lines, hasEvents)[k])
  {
    hide Entries, LineNumbers, EntryOf, Untold, OutputAfter, ProducedAfter, Mirrored, Prompts, Answers;
    NumbersHold(lines, hasEvents);
    OutputIff(lines, hasEvents, k);
    MirroredIff(lines, lines[LineNumbers(lines, hasEvents)[k]], hasEvents);
  }

  /** Some undecided prompt up to record k, exactly if some waiting one up to its line. */
  lemma TailIff(lines: seq<Line>, hasEvents: bool, finished: bool, k: nat)
    requires k < |Entries(lines, hasEvents)| == |LineNumbers(lines, hasEvents)|
    requires LineNumbers(lines, hasEvents)[k] < |lines|
    ensures k < HeldFrom(lines, hasEvents, finished) <==>
            !InLiveTail(lines, hasEvents, finished, LineNumbers(lines, hasEvents)[k])
  {
    hide Entries, LineNumbers, EntryOf, Undecided, Waiting, Answers, FirstUndecided;
    NumbersHold(lines, hasEvents);
    var entries, numbers := Entries(lines, hasEvents), LineNumbers(lines, hasEvents);
    var h := HeldFrom(lines, hasEvents, finished);
    if h <= k {
      WaitingIff(lines, hasEvents, h);
      assert Waiting(lines, hasEvents, numbers[h]);
    }
    if InLiveTail(lines, hasEvents, finished, numbers[k]) {
      var j: nat :| j <= numbers[k] && Waiting(lines, hasEvents, j);
      WaitingRecorded(lines, hasEvents, j);
      var r := RecordOf(lines, hasEvents, j);
      WaitingIff(lines, hasEvents, r);
      assert Undecided(entries, Answers(lines), r) && r <= k;
    }
  }

  lemma WaitingRecorded(lines: seq<Line>, hasEvents: bool, j: nat)
    requires j < |lines| && Waiting(lines, hasEvents, j)
    ensures RecordParts(lines[j], hasEvents) != []
  {
  }

  /** Line i is kept: its record is in the main chain. */
  ghost predicate KeepsLine(records: seq<KeptRecord>, i: nat) {
    exists r | r in records :: r.line == i
  }

  lemma RecordKept(lines: seq<Line>, hasEvents: bool, finished: bool, k: nat)
    requires k < |Entries(lines, hasEvents)| == |LineNumbers(lines, hasEvents)|
    ensures KeepsLine(Chained(lines, hasEvents, finished), LineNumbers(lines, hasEvents)[k]) <==>
            k < HeldFrom(lines, hasEvents, finished) && !Mirrored(Entries(lines, hasEvents)[k], Answers(lines))
  {
    hide Entries, LineNumbers, Mirrored, HeldFrom, Answers, Unmirrored, EntryOf;
    NumbersHold(lines, hasEvents);
    KeptInRange(lines, hasEvents, finished);
    var kept, numbers := Kept(lines, hasEvents, finished), LineNumbers(lines, hasEvents);
    var records := Chained(lines, hasEvents, finished);
    UnmirroredExactly(Entries(lines, hasEvents), Answers(lines), HeldFrom(lines, hasEvents, finished));
    if k in kept {
      var a :| 0 <= a < |kept| && kept[a] == k;
      assert records[a] in records && records[a].line == numbers[k];
    }
    if r :| r in records && r.line == numbers[k] {
      var a :| 0 <= a < |records| && records[a] == r;
      assert numbers[kept[a]] == numbers[k];
      assert kept[a] == k && kept[a] in kept;
    }
  }

  lemma KeptLineSays(lines: seq<Line>, finished: bool, r: KeptRecord)
    requires r in MainChain(lines, finished)
    ensures r.line < |lines| && r.parts == RecordParts(lines[r.line], HasEvents(lines)) && r.parts != []
  {
    hide Chained, HasEvents, RecordParts, EntryOf;
    ChainedOfLines(lines, HasEvents(lines), finished);
    PromptIff(lines[r.line], HasEvents(lines));
  }

  lemma KeptInOrder(lines: seq<Line>, finished: bool)
    ensures var records := MainChain(lines, finished);
            forall a, b | 0 <= a < b < |records| :: records[a].line < records[b].line
  {
    hide Entries, LineNumbers, Mirrored, HeldFrom, Answers, Unmirrored, EntryOf, HasEvents;
    var hasEvents := HasEvents(lines);
    NumbersHold(lines, hasEvents);
    KeptInRange(lines, hasEvents, finished);
    UnmirroredExactly(Entries(lines, hasEvents), Answers(lines), HeldFrom(lines, hasEvents, finished));
  }

  /** Of any rollout, finished or live, the main chain keeps a line with content
      exactly if the line is no prompt that response items show whole and lies
      outside the live tail: in a live file with response items, from the first
      prompt on that has a text no response item shows and no output after it.
      Each kept record says what its line says, in the order of the lines. */
  lemma KeptExactly(lines: seq<Line>, finished: bool, i: nat)
    requires i < |lines|
    ensures var records, hasEvents := MainChain(lines, finished), SpeaksOfEvents(lines);
            && (KeepsLine(records, i) <==>
                  RecordParts(lines[i], hasEvents) != [] && !Repeated(lines, lines[i])
                  && !InLiveTail(lines, hasEvents, finished, i))
            && (forall r | r in records :: r.line < |lines| && r.parts == RecordParts(lines[r.line], hasEvents))
            && (forall a, b | 0 <= a < b < |records| :: records[a].line < records[b].line)
  {
    assert HasEvents(lines) == SpeaksOfEvents(lines);
    hide Chained, HasEvents, SpeaksOfEvents, RecordParts, Repeated, InLiveTail, Entries, LineNumbers, HeldFrom,
      Mirrored, EntryOf;
    var hasEvents := HasEvents(lines);
    var records := MainChain(lines, finished);
    KeptInOrder(lines, finished);
    forall r | r in records
      ensures r.line < |lines| && r.parts == RecordParts(lines[r.line], hasEvents) && r.parts != []
    {
      KeptLineSays(lines, finished, r);
    }
    if RecordParts(lines[i], hasEvents) != [] {
      var k := RecordOf(lines, hasEvents, i);
      NumbersHold(lines, hasEvents);
      RecordKept(lines, hasEvents, finished, k);
      TailIff(lines, hasEvents, finished, k);
      MirroredIff(lines, lines[i], hasEvents);
    }
  }
}
