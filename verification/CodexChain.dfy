/** The main chain of a Codex rollout: mirrored prompts are dropped, a live tail
    is held back, and a longer rollout appends. */
module CodexChains {
  import opened Base
  import opened Nodes

  type Text = string

  /** One part of a record; `text` is the trimmed text of a text part. */
  datatype Part = Part(out: bool, fact: Fact, text: Option<Text>)

  datatype Body =
    | Event(parts: seq<Part>, prompt: bool)
    | Response(spoken: seq<Part>, rest: seq<Part>, says: set<Text>)
      // a response item: the parts that a file with events takes from the events
      // instead, its other parts, and the prompt texts it shows the model
    | Other(parts: seq<Part>)
    | Nothing

  /** One complete line, and whether its bytes mention events without being one. */
  datatype Line = Line(mention: bool, body: Body)

  /** A record with content; a user-message event carries its prompt's texts. */
  datatype Entry = Entry(parts: seq<Part>, prompt: Option<seq<Text>>)

  predicate MentionsEvents(line: Line) {
    line.mention || line.body.Event?
  }

  predicate HasEvents(lines: seq<Line>) {
    exists line | line in lines :: MentionsEvents(line)
  }

  function PromptTexts(parts: seq<Part>): seq<Text> {
    if parts == [] then []
    else (if parts[0].text.Some? then [parts[0].text.value] else []) + PromptTexts(parts[1..])
  }

  function EntryOf(body: Body, hasEvents: bool): Entry {
    match body
    case Event(parts, prompt) => Entry(parts, if prompt then Some(PromptTexts(parts)) else None)
    case Response(spoken, rest, says) => Entry(if hasEvents then rest else spoken + rest, None)
    case Other(parts) => Entry(parts, None)
    case Nothing => Entry([], None)
  }

  /** The records with content, in file order. */
  function Entries(lines: seq<Line>, hasEvents: bool): seq<Entry> {
    if lines == [] then []
    else
      var e := EntryOf(lines[|lines| - 1].body, hasEvents);
      Entries(lines[..|lines| - 1], hasEvents) + (if e.parts == [] then [] else [e])
  }

  /** The prompt texts response items carry. */
  function Answers(lines: seq<Line>): set<Text> {
    set line, t | line in lines && line.body.Response? && t in line.body.says :: t
  }

  predicate Responds(lines: seq<Line>) {
    exists line | line in lines :: line.body.Response?
  }

  predicate Prompts(e: Entry) {
    e.prompt.Some? && e.prompt.value != []
  }

  /** Response items carry the whole prompt: the event only repeats it. */
  predicate Mirrored(e: Entry, answers: set<Text>) {
    Prompts(e) && forall t | t in e.prompt.value :: t in answers
  }

  predicate Produces(e: Entry) {
    exists p | p in e.parts :: p.out
  }

  predicate ProducedAfter(entries: seq<Entry>, i: nat) {
    exists j | i < j < |entries| :: Produces(entries[j])
  }

  /** A prompt that may yet turn out to be mirrored. */
  predicate Undecided(entries: seq<Entry>, answers: set<Text>, i: nat)
    requires i < |entries|
  {
    Prompts(entries[i]) && !Mirrored(entries[i], answers) && !ProducedAfter(entries, i)
  }

  /** The first undecided prompt from i on, or the end. */
  function FirstUndecided(entries: seq<Entry>, answers: set<Text>, i: nat): (h: nat)
    requires i <= |entries|
    ensures i <= h <= |entries|
    ensures forall j: nat | i <= j < h :: !Undecided(entries, answers, j)
    ensures h < |entries| ==> Undecided(entries, answers, h)
    decreases |entries| - i
  {
    if i == |entries| || Undecided(entries, answers, i) then i else FirstUndecided(entries, answers, i + 1)
  }

  /** Where the live tail begins. */
  function HeldFrom(lines: seq<Line>, hasEvents: bool, finished: bool): (h: nat)
    ensures h <= |Entries(lines, hasEvents)|
  {
    var entries := Entries(lines, hasEvents);
    if Responds(lines) && !finished then FirstUndecided(entries, Answers(lines), 0) else |entries|
  }

  /** Of the first n records, those that are not mirrored prompts. */
  function Unmirrored(entries: seq<Entry>, answers: set<Text>, n: nat): seq<nat>
    requires n <= |entries|
  {
    if n == 0 then []
    else Unmirrored(entries, answers, n - 1) + (if Mirrored(entries[n - 1], answers) then [] else [n - 1])
  }

  lemma {:induction false} UnmirroredExactly(entries: seq<Entry>, answers: set<Text>, n: nat)
    requires n <= |entries|
    ensures var kept := Unmirrored(entries, answers, n);
            && (forall i :: i in kept <==> 0 <= i < n && !Mirrored(entries[i], answers))
            && (forall a, b | 0 <= a < b < |kept| :: kept[a] < kept[b])
  {
    hide Mirrored;
    if n > 0 {
      UnmirroredExactly(entries, answers, n - 1);
      var before := Unmirrored(entries, answers, n - 1);
      assert forall a | 0 <= a < |before| :: before[a] in before;
    }
  }

  /** The main chain, by record number. */
  function Kept(lines: seq<Line>, hasEvents: bool, finished: bool): seq<nat> {
    Unmirrored(Entries(lines, hasEvents), Answers(lines), HeldFrom(lines, hasEvents, finished))
  }

  // ----------------------------------------------------------------- growth

  lemma {:induction false} EntriesGrow(lines: seq<Line>, n: nat, hasEvents: bool)
    requires n <= |lines|
    ensures Entries(lines[..n], hasEvents) <= Entries(lines, hasEvents)
    decreases |lines|
  {
    if n == |lines| {
      assert lines[..n] == lines;
    } else {
      EntriesGrow(lines[..|lines| - 1], n, hasEvents);
      assert lines[..|lines| - 1][..n] == lines[..n];
    }
  }

  lemma AnswersGrow(lines: seq<Line>, n: nat)
    requires n <= |lines|
    ensures Answers(lines[..n]) <= Answers(lines)
    ensures Responds(lines[..n]) ==> Responds(lines)
    ensures !Responds(lines) ==> Answers(lines) == {}
  {
  }

  /** Records below m kept under fewer answers and, more of them, under more. */
  lemma {:induction false} KeptAlike(entries: seq<Entry>, more: seq<Entry>, answers: set<Text>,
                                     moreAnswers: set<Text>, m: nat)
    requires entries <= more && m <= |entries|
    requires forall i | 0 <= i < m :: Mirrored(entries[i], answers) <==> Mirrored(more[i], moreAnswers)
    ensures Unmirrored(entries, answers, m) == Unmirrored(more, moreAnswers, m)
  {
    if m > 0 {
      KeptAlike(entries, more, answers, moreAnswers, m - 1);
    }
  }

  lemma {:induction false} KeptGrows(entries: seq<Entry>, answers: set<Text>, m: nat, n: nat)
    requires m <= n <= |entries|
    ensures Unmirrored(entries, answers, m) <= Unmirrored(entries, answers, n)
    decreases n
  {
    hide Mirrored;
    if m < n {
      KeptGrows(entries, answers, m, n - 1);
    }
  }

  /** Prompt i of the cut keeps its place in the whole: it does not turn out
      mirrored, nor does it start the whole's live tail. */
  ghost predicate KeepsPlace(whole: seq<Entry>, answers: set<Text>, live: bool, i: nat)
    requires i < |whole|
  {
    !Mirrored(whole[i], answers) && !(live && Undecided(whole, answers, i))
  }

  /** The cut's chain is a prefix of the whole's exactly when every prompt it
      shows keeps its place. */
  lemma PrefixIff(cut: seq<Entry>, whole: seq<Entry>, answers: set<Text>, moreAnswers: set<Text>, h: nat, live: bool)
    requires cut <= whole && answers <= moreAnswers && h <= |cut|
    ensures var h' := if live then FirstUndecided(whole, moreAnswers, 0) else |whole|;
            Unmirrored(cut, answers, h) <= Unmirrored(whole, moreAnswers, h') <==>
            forall i: nat | i < h && Prompts(cut[i]) && !Mirrored(cut[i], answers) ::
              KeepsPlace(whole, moreAnswers, live, i)
  {
    hide Undecided;
    var h' := if live then FirstUndecided(whole, moreAnswers, 0) else |whole|;
    if forall i: nat | i < h && Prompts(cut[i]) && !Mirrored(cut[i], answers) ::
         KeepsPlace(whole, moreAnswers, live, i)
    {
      MirroredAlike(cut, whole, answers, moreAnswers, h, live);
      KeptAlike(cut, whole, answers, moreAnswers, h);
      if h' < h {
        Displaced(cut, whole, answers, moreAnswers, h');
      }
      KeptGrows(whole, moreAnswers, h, h');
    }
    if Unmirrored(cut, answers, h) <= Unmirrored(whole, moreAnswers, h') {
      forall i: nat | i < h && Prompts(cut[i]) && !Mirrored(cut[i], answers)
        ensures KeepsPlace(whole, moreAnswers, live, i)
      {
        KeptPlace(cut, whole, answers, moreAnswers, h, h', live, i);
      }
    }
  }

  lemma MirroredAlike(cut: seq<Entry>, whole: seq<Entry>, answers: set<Text>, more: set<Text>, h: nat, live: bool)
    requires cut <= whole && answers <= more && h <= |cut|
    requires forall i: nat | i < h && Prompts(cut[i]) && !Mirrored(cut[i], answers) :: KeepsPlace(whole, more, live, i)
    ensures forall i | 0 <= i < h :: Mirrored(cut[i], answers) <==> Mirrored(whole[i], more)
  {
    forall i: nat | i < h ensures Mirrored(cut[i], answers) <==> Mirrored(whole[i], more) {
      if Prompts(cut[i]) && !Mirrored(cut[i], answers) {
        assert KeepsPlace(whole, more, live, i);
      }
    }
  }

  /** The start of the whole's live tail is a prompt the cut had not decided. */
  lemma Displaced(cut: seq<Entry>, whole: seq<Entry>, answers: set<Text>, more: set<Text>, i: nat)
    requires cut <= whole && answers <= more && i < |cut| && Undecided(whole, more, i)
    ensures Prompts(cut[i]) && !Mirrored(cut[i], answers) && !KeepsPlace(whole, more, true, i)
  {
  }

  lemma KeptPlace(cut: seq<Entry>, whole: seq<Entry>, answers: set<Text>, more: set<Text>, h: nat, h': nat,
                  live: bool, i: nat)
    requires cut <= whole && h <= |cut| && i < h && !Mirrored(cut[i], answers)
    requires h' == if live then FirstUndecided(whole, more, 0) else |whole|
    requires Unmirrored(cut, answers, h) <= Unmirrored(whole, more, h')
    ensures KeepsPlace(whole, more, live, i)
  {
    hide Undecided, Mirrored, Unmirrored;
    UnmirroredExactly(cut, answers, h);
    UnmirroredExactly(whole, more, h');
    var kept := Unmirrored(cut, answers, h);
    assert i in kept;
    assert i in Unmirrored(whole, more, h');
  }

  /** Every prompt of the first n lines that something produced follows there, and
      that the whole rollout answers, is answered there already. */
  ghost predicate AnsweredInTime(lines: seq<Line>, n: nat, hasEvents: bool)
    requires n <= |lines|
  {
    var entries := Entries(lines[..n], hasEvents);
    forall i: nat | i < |entries| && ProducedAfter(entries, i) && Mirrored(entries[i], Answers(lines)) ::
      Mirrored(entries[i], Answers(lines[..n]))
  }

  /** By record number, where the cut tells of response items if the whole has some. */
  lemma KeptAppends(lines: seq<Line>, n: nat, hasEvents: bool, finished: bool)
    requires n <= |lines| && Responds(lines[..n]) == Responds(lines)
    ensures Kept(lines[..n], hasEvents, false) <= Kept(lines, hasEvents, finished) <==>
            AnsweredInTime(lines, n, hasEvents)
  {
    hide Unmirrored, FirstUndecided, Entries, Mirrored, Prompts, ProducedAfter, Answers, Responds;
    var cut, whole := Entries(lines[..n], hasEvents), Entries(lines, hasEvents);
    EntriesGrow(lines, n, hasEvents);
    AnswersGrow(lines, n);
    var h := HeldFrom(lines[..n], hasEvents, false);
    PrefixIff(cut, whole, Answers(lines[..n]), Answers(lines), h, Responds(lines) && !finished);
    if Responds(lines) {
      forall i: nat | i < |cut|
        ensures i < h && Prompts(cut[i]) && !Mirrored(cut[i], Answers(lines[..n])) ==>
                  (KeepsPlace(whole, Answers(lines), !finished, i) <==> !Mirrored(cut[i], Answers(lines)))
                  && ProducedAfter(cut, i)
        ensures ProducedAfter(cut, i) && Mirrored(cut[i], Answers(lines)) && !Mirrored(cut[i], Answers(lines[..n])) ==>
                  i < h && Prompts(cut[i])
      {
        PlaceInCut(cut, whole, Answers(lines[..n]), Answers(lines), !finished, i);
      }
    } else {
      NothingMirrored(lines);
      NothingMirrored(lines[..n]);
    }
  }

  lemma NothingMirrored(lines: seq<Line>)
    requires !Responds(lines)
    ensures forall e: Entry :: !Mirrored(e, Answers(lines))
  {
    AnswersGrow(lines, |lines|);
    forall e: Entry | Prompts(e) ensures !Mirrored(e, {}) {
      assert e.prompt.value[0] in e.prompt.value;
    }
  }

  lemma PlaceInCut(cut: seq<Entry>, whole: seq<Entry>, answers: set<Text>, more: set<Text>, live: bool, i: nat)
    requires cut <= whole && i < |cut|
    ensures var h := FirstUndecided(cut, answers, 0);
            && (i < h && Prompts(cut[i]) && !Mirrored(cut[i], answers) ==>
                  (KeepsPlace(whole, more, live, i) <==> !Mirrored(cut[i], more)) && ProducedAfter(cut, i))
            && (ProducedAfter(cut, i) && Mirrored(cut[i], more) && !Mirrored(cut[i], answers) ==>
                  i < h && Prompts(cut[i]))
  {
    hide Mirrored, Produces;
    var h := FirstUndecided(cut, answers, 0);
    assert i < h ==> !Undecided(cut, answers, i);
    if ProducedAfter(cut, i) {
      var j :| i < j < |cut| && Produces(cut[j]);
      assert Produces(whole[j]);
      assert ProducedAfter(whole, i);
      ProducedEarlier(cut, i);
    }
    MirroredPrompts(cut[i], more);
  }

  lemma ProducedEarlier(entries: seq<Entry>, i: nat)
    requires ProducedAfter(entries, i)
    ensures forall h: nat | h <= i :: ProducedAfter(entries, h)
  {
  }

  lemma MirroredPrompts(e: Entry, answers: set<Text>)
    ensures Mirrored(e, answers) ==> Prompts(e)
  {
  }

  /** Every prompt of the first n lines stays unanswered in the whole, which has
      more to say after it unless it is finished. */
  ghost predicate StaysUnanswered(lines: seq<Line>, n: nat, hasEvents: bool, finished: bool)
    requires n <= |lines|
  {
    var (cut, whole) := (Entries(lines[..n], hasEvents), Entries(lines, hasEvents));
    forall i: nat | i < |cut| && i < |whole| && Prompts(cut[i]) ::
      !Mirrored(cut[i], Answers(lines)) && (finished || ProducedAfter(whole, i))
  }

  /** By record number, where response items appear only after the cut. */
  lemma KeptAppendsBeforeResponses(lines: seq<Line>, n: nat, hasEvents: bool, finished: bool)
    requires n <= |lines| && !Responds(lines[..n]) && Responds(lines)
    ensures Kept(lines[..n], hasEvents, false) <= Kept(lines, hasEvents, finished) <==>
            StaysUnanswered(lines, n, hasEvents, finished)
  {
    hide Unmirrored, FirstUndecided, Entries, Mirrored, Prompts, ProducedAfter, Answers, Responds;
    EntriesGrow(lines, n, hasEvents);
    AnswersGrow(lines, n);
    NothingMirrored(lines[..n]);
    var (cut, whole) := (Entries(lines[..n], hasEvents), Entries(lines, hasEvents));
    PrefixIff(cut, whole, Answers(lines[..n]), Answers(lines), HeldFrom(lines[..n], hasEvents, false), !finished);
    forall i: nat | i < |cut|
      ensures Prompts(cut[i]) ==>
                (KeepsPlace(whole, Answers(lines), !finished, i) <==>
                 !Mirrored(cut[i], Answers(lines)) && (finished || ProducedAfter(whole, i)))
    {
      PlaceBeforeResponses(cut, whole, Answers(lines), finished, i);
    }
    assert forall i: nat | i < |cut| :: !Mirrored(cut[i], Answers(lines[..n]));
  }

  lemma PlaceBeforeResponses(cut: seq<Entry>, whole: seq<Entry>, more: set<Text>, finished: bool, i: nat)
    requires cut <= whole && i < |cut|
    ensures Prompts(cut[i]) ==>
              (KeepsPlace(whole, more, !finished, i) <==>
               !Mirrored(cut[i], more) && (finished || ProducedAfter(whole, i)))
  {
    hide Prompts, Mirrored, ProducedAfter;
    assert cut[i] == whole[i];
  }

  // ------------------------------------------------------- by line and content

  /** The line each record with content is on. */
  function LineNumbers(lines: seq<Line>, hasEvents: bool): seq<nat> {
    if lines == [] then []
    else
      var n := |lines| - 1;
      LineNumbers(lines[..n], hasEvents) + (if EntryOf(lines[n].body, hasEvents).parts == [] then [] else [n])
  }

  lemma {:induction false} NumbersGrow(lines: seq<Line>, n: nat, hasEvents: bool)
    requires n <= |lines|
    ensures LineNumbers(lines[..n], hasEvents) <= LineNumbers(lines, hasEvents)
    decreases |lines|
  {
    if n == |lines| {
      assert lines[..n] == lines;
    } else {
      NumbersGrow(lines[..|lines| - 1], n, hasEvents);
      assert lines[..|lines| - 1][..n] == lines[..n];
    }
  }

  /** Record k is what line numbers[k] says. */
  ghost predicate Numbered(lines: seq<Line>, hasEvents: bool, numbers: seq<nat>, entries: seq<Entry>) {
    && |numbers| == |entries|
    && (forall k | 0 <= k < |numbers| ::
          numbers[k] < |lines| && entries[k] == EntryOf(lines[numbers[k]].body, hasEvents))
    && (forall j, k | 0 <= j < k < |numbers| :: numbers[j] < numbers[k])
  }

  lemma {:induction false} NumbersHold(lines: seq<Line>, hasEvents: bool)
    ensures Numbered(lines, hasEvents, LineNumbers(lines, hasEvents), Entries(lines, hasEvents))
    decreases |lines|
  {
    hide EntryOf, Numbered;
    if lines != [] {
      var n := |lines| - 1;
      NumbersHold(lines[..n], hasEvents);
      var numbers, entries := LineNumbers(lines[..n], hasEvents), Entries(lines[..n], hasEvents);
      NumberedMore(lines, hasEvents, numbers, entries);
      assert numbers + [] == numbers && entries + [] == entries;
    } else {
      NothingNumbered(hasEvents);
    }
  }

  lemma NothingNumbered(hasEvents: bool)
    ensures Numbered([], hasEvents, [], [])
  {
  }

  lemma NumberedMore(lines: seq<Line>, hasEvents: bool, numbers: seq<nat>, entries: seq<Entry>)
    requires lines != [] && Numbered(lines[..|lines| - 1], hasEvents, numbers, entries)
    ensures Numbered(lines, hasEvents, numbers, entries)
    ensures var n := |lines| - 1;
            Numbered(lines, hasEvents, numbers + [n], entries + [EntryOf(lines[n].body, hasEvents)])
  {
    hide EntryOf;
    var n := |lines| - 1;
    forall k | 0 <= k < |numbers| ensures numbers[k] < n && entries[k] == EntryOf(lines[numbers[k]].body, hasEvents) {
      assert lines[..n][numbers[k]] == lines[numbers[k]];
    }
  }

  lemma {:induction false} EveryLineNumbered(lines: seq<Line>, hasEvents: bool, i: nat)
    requires i < |lines| && EntryOf(lines[i].body, hasEvents).parts != []
    ensures i in LineNumbers(lines, hasEvents)
    decreases |lines|
  {
    hide EntryOf;
    var n := |lines| - 1;
    if i < n {
      EveryLineNumbered(lines[..n], hasEvents, i);
    }
  }

  /** One record of the main chain: the line it is on, and what it says. */
  datatype KeptRecord = KeptRecord(line: nat, parts: seq<Part>)

  predicate AllBelow(kept: seq<nat>, n: nat) {
    forall a | 0 <= a < |kept| :: kept[a] < n
  }

  function Located(numbers: seq<nat>, entries: seq<Entry>, kept: seq<nat>): seq<KeptRecord>
    requires |numbers| == |entries| && AllBelow(kept, |entries|)
  {
    seq(|kept|, a requires 0 <= a < |kept| => KeptRecord(numbers[kept[a]], entries[kept[a]].parts))
  }

  lemma KeptInRange(lines: seq<Line>, hasEvents: bool, finished: bool)
    ensures |LineNumbers(lines, hasEvents)| == |Entries(lines, hasEvents)|
    ensures AllBelow(Kept(lines, hasEvents, finished), |Entries(lines, hasEvents)|)
  {
    NumbersHold(lines, hasEvents);
    UnmirroredExactly(Entries(lines, hasEvents), Answers(lines), HeldFrom(lines, hasEvents, finished));
    var kept := Kept(lines, hasEvents, finished);
    assert forall a | 0 <= a < |kept| :: kept[a] in kept;
  }

  /** The main chain, read with or without the events' dialogue. */
  function Chained(lines: seq<Line>, hasEvents: bool, finished: bool): seq<KeptRecord> {
    KeptInRange(lines, hasEvents, finished);
    Located(LineNumbers(lines, hasEvents), Entries(lines, hasEvents), Kept(lines, hasEvents, finished))
  }

  /** The main chain of a rollout, by line and content. */
  function MainChain(lines: seq<Line>, finished: bool): seq<KeptRecord> {
    Chained(lines, HasEvents(lines), finished)
  }

  /** Lines of one numbering are the same lines exactly where the records are. */
  lemma LocatedAlike(numbers: seq<nat>, entries: seq<Entry>, kept: seq<nat>,
                     moreNumbers: seq<nat>, more: seq<Entry>, moreKept: seq<nat>)
    requires |numbers| == |entries| && |moreNumbers| == |more| && numbers <= moreNumbers && entries <= more
    requires AllBelow(kept, |entries|) && AllBelow(moreKept, |more|)
    requires forall j, k | 0 <= j < k < |moreNumbers| :: moreNumbers[j] < moreNumbers[k]
    ensures Located(numbers, entries, kept) <= Located(moreNumbers, more, moreKept) <==> kept <= moreKept
  {
    var located, moreLocated := Located(numbers, entries, kept), Located(moreNumbers, more, moreKept);
    if kept <= moreKept {
      assert forall a | 0 <= a < |kept| :: located[a] == moreLocated[a];
    }
    if located <= moreLocated {
      forall a | 0 <= a < |kept| ensures kept[a] == moreKept[a] {
        assert located[a] == moreLocated[a];
      }
    }
  }

  lemma ChainedAlike(lines: seq<Line>, n: nat, hasEvents: bool, finished: bool)
    requires n <= |lines|
    ensures Chained(lines[..n], hasEvents, false) <= Chained(lines, hasEvents, finished) <==>
            Kept(lines[..n], hasEvents, false) <= Kept(lines, hasEvents, finished)
  {
    hide Kept, Entries, LineNumbers, Located;
    KeptInRange(lines[..n], hasEvents, false);
    KeptInRange(lines, hasEvents, finished);
    EntriesGrow(lines, n, hasEvents);
    NumbersGrow(lines, n, hasEvents);
    NumbersHold(lines, hasEvents);
    LocatedAlike(LineNumbers(lines[..n], hasEvents), Entries(lines[..n], hasEvents), Kept(lines[..n], hasEvents, false),
                 LineNumbers(lines, hasEvents), Entries(lines, hasEvents), Kept(lines, hasEvents, finished));
  }

  // ------------------------------------------------- before the first event

  /** Nothing the response items say is taken from events instead. */
  ghost predicate NothingSpoken(lines: seq<Line>) {
    forall line | line in lines :: line.body.Response? ==> line.body.spoken == []
  }

  lemma {:induction false} SpeechlessAlike(lines: seq<Line>)
    requires NothingSpoken(lines)
    ensures Entries(lines, false) == Entries(lines, true) && LineNumbers(lines, false) == LineNumbers(lines, true)
    decreases |lines|
  {
    if lines != [] {
      var n := |lines| - 1;
      assert lines[n] in lines;
      SpeechlessAlike(lines[..n]);
      assert lines[n].body.Response? ==> [] + lines[n].body.rest == lines[n].body.rest;
    }
  }

  lemma {:induction false} NoPrompts(lines: seq<Line>, hasEvents: bool)
    requires !HasEvents(lines)
    ensures forall e | e in Entries(lines, hasEvents) :: !Prompts(e)
    decreases |lines|
  {
    if lines != [] {
      var n := |lines| - 1;
      NoPrompts(lines[..n], hasEvents);
      assert lines[n] in lines && !MentionsEvents(lines[n]);
    }
  }

  /** Without prompts everything is kept. */
  lemma {:induction false} AllUnmirrored(entries: seq<Entry>, answers: set<Text>, n: nat)
    requires n <= |entries| && forall e | e in entries :: !Prompts(e)
    ensures Unmirrored(entries, answers, n) == seq(n, i => i)
  {
    if n > 0 {
      AllUnmirrored(entries, answers, n - 1);
      assert entries[n - 1] in entries;
    }
  }

  lemma AllKept(lines: seq<Line>, hasEvents: bool, finished: bool)
    requires !HasEvents(lines)
    ensures var entries := Entries(lines, hasEvents);
            Kept(lines, hasEvents, finished) == seq(|entries|, i => i)
  {
    hide Unmirrored, Entries, Prompts;
    NoPrompts(lines, hasEvents);
    var entries := Entries(lines, hasEvents);
    var h := HeldFrom(lines, hasEvents, finished);
    if h < |entries| {
      assert entries[h] in entries;
    }
    AllUnmirrored(entries, Answers(lines), |entries|);
  }

  /** Where nothing is spoken, a cut without events reads like one with events. */
  lemma SpeechlessAppends(lines: seq<Line>, n: nat, finished: bool)
    requires n <= |lines| && !HasEvents(lines[..n]) && NothingSpoken(lines[..n])
    ensures Chained(lines[..n], false, false) <= Chained(lines, true, finished)
  {
    hide Kept, Entries, LineNumbers, Unmirrored, FirstUndecided, Prompts, HasEvents, NothingSpoken, Chained;
    var cut := lines[..n];
    SpeechlessAlike(cut);
    AllKept(cut, false, false);
    AllKept(cut, true, false);
    SameChained(cut);
    ChainedAlike(lines, n, true, finished);
    NothingDecides(lines, n, finished);
  }

  lemma SameChained(lines: seq<Line>)
    requires Entries(lines, false) == Entries(lines, true) && LineNumbers(lines, false) == LineNumbers(lines, true)
    ensures Chained(lines, false, false) == Chained(lines, true, false)
  {
    hide Entries, LineNumbers, Unmirrored, FirstUndecided;
  }

  lemma NothingDecides(lines: seq<Line>, n: nat, finished: bool)
    requires n <= |lines| && !HasEvents(lines[..n])
    ensures Kept(lines[..n], true, false) <= Kept(lines, true, finished)
  {
    hide Unmirrored, FirstUndecided, Entries, Mirrored, Prompts, Answers, Responds, KeepsPlace;
    EntriesGrow(lines, n, true);
    AnswersGrow(lines, n);
    NoPrompts(lines[..n], true);
    PrefixIff(Entries(lines[..n], true), Entries(lines, true), Answers(lines[..n]), Answers(lines),
              HeldFrom(lines[..n], true, false), Responds(lines) && !finished);
  }

  /** What the cut showed of line i is not what the whole shows. */
  lemma SpokenTakenBack(lines: seq<Line>, n: nat, finished: bool, i: nat)
    requires i < n <= |lines| && !HasEvents(lines[..n]) && lines[i].body.Response? && lines[i].body.spoken != []
    ensures !(Chained(lines[..n], false, false) <= Chained(lines, true, finished))
  {
    hide Kept, Entries, LineNumbers, HasEvents;
    var cut := lines[..n];
    var body := lines[i].body;
    NumbersHold(cut, false);
    NumbersHold(lines, true);
    KeptInRange(cut, false, false);
    KeptInRange(lines, true, finished);
    AllKept(cut, false, false);
    var numbers, entries := LineNumbers(cut, false), Entries(cut, false);
    assert cut[i].body == body;
    EveryLineNumbered(cut, false, i);
    var k :| 0 <= k < |numbers| && numbers[k] == i;
    var chained, more := Chained(cut, false, false), Chained(lines, true, finished);
    assert chained[k] == KeptRecord(i, body.spoken + body.rest);
    if k < |more| && more[k].line == i {
      assert more[k].parts == body.rest;
      assert |body.spoken + body.rest| > |body.rest|;
    }
  }

  /** A cut before the first event shows what the whole shows exactly where no
      response item in it says what events say. */
  lemma AppendsBeforeEvents(lines: seq<Line>, n: nat, finished: bool)
    requires n <= |lines| && !HasEvents(lines[..n])
    ensures Chained(lines[..n], false, false) <= Chained(lines, true, finished) <==> NothingSpoken(lines[..n])
  {
    hide Chained, HasEvents;
    if NothingSpoken(lines[..n]) {
      SpeechlessAppends(lines, n, finished);
    } else {
      var line :| line in lines[..n] && line.body.Response? && line.body.spoken != [];
      var i :| 0 <= i < n && lines[..n][i] == line;
      SpokenTakenBack(lines, n, finished, i);
    }
  }

  // ----------------------------------------------------------- main results

  /** What the lines after a cut at n leave of it: where the first event comes later,
      nothing may have been said that events say; where the first response item
      comes later, no prompt may be answered by it or held back for it; otherwise
      no answer may come late. */
  ghost predicate Appends(lines: seq<Line>, n: nat, finished: bool)
    requires n <= |lines|
  {
    var hasEvents := HasEvents(lines);
    if HasEvents(lines[..n]) != hasEvents then NothingSpoken(lines[..n])
    else if Responds(lines[..n]) != Responds(lines) then StaysUnanswered(lines, n, hasEvents, finished)
    else AnsweredInTime(lines, n, hasEvents)
  }

  lemma MoreLines(lines: seq<Line>, n: nat)
    requires n <= |lines|
    ensures HasEvents(lines[..n]) ==> HasEvents(lines)
    ensures Responds(lines[..n]) ==> Responds(lines)
  {
  }

  /** At every cut of every rollout: the main chain of a live cut is a prefix of
      the longer rollout's, record by record with all it says, exactly where the
      lines that follow leave the cut as it was. */
  lemma LongerRolloutAppends(lines: seq<Line>, n: nat, finished: bool)
    requires n <= |lines|
    ensures MainChain(lines[..n], false) <= MainChain(lines, finished) <==> Appends(lines, n, finished)
  {
    hide Chained, Kept, NothingSpoken, StaysUnanswered, AnsweredInTime, HasEvents, Responds;
    var hasEvents := HasEvents(lines);
    MoreLines(lines, n);
    if HasEvents(lines[..n]) != hasEvents {
      AppendsBeforeEvents(lines, n, finished);
    } else {
      ChainedAlike(lines, n, hasEvents, finished);
      if Responds(lines[..n]) != Responds(lines) {
        KeptAppendsBeforeResponses(lines, n, hasEvents, finished);
      } else {
        KeptAppends(lines, n, hasEvents, finished);
      }
    }
  }

  /** Where the first event comes late, an answer shown before it is taken back:
      a session header, an answer, and then an event. */
  lemma LateEventsTakeBack()
    ensures var header := Line(false, Nothing);
            var answer := Line(false, Response([Part(true, 0, None)], [], {}));
            var lines := [header, answer, Line(false, Event([], false))];
            !Appends(lines, 2, false) && !(MainChain(lines[..2], false) <= MainChain(lines, false))
  {
    hide MainChain, StaysUnanswered, AnsweredInTime;
    var header := Line(false, Nothing);
    var answer := Line(false, Response([Part(true, 0, None)], [], {}));
    var event := Line(false, Event([], false));
    var lines := [header, answer, event];
    assert lines[..2] == [header, answer];
    assert [header, answer][1] == answer && answer in lines[..2];
    assert lines[2] == event && event in lines && MentionsEvents(event);
    LongerRolloutAppends(lines, 2, false);
  }

  // ------------------------------------------------------------------ nodes

  function FactsIn(parts: seq<Part>): seq<Fact> {
    seq(|parts|, i requires 0 <= i < |parts| => parts[i].fact)
  }

  /** Everything the records say, in order. */
  function Said(records: seq<KeptRecord>): seq<Fact> {
    if records == [] then [] else Said(records[..|records| - 1]) + FactsIn(records[|records| - 1].parts)
  }

  lemma {:induction false} SaidGrows(records: seq<KeptRecord>, more: seq<KeptRecord>)
    requires records <= more
    ensures Said(records) <= Said(more)
    decreases |more|
  {
    if records != more {
      SaidGrows(records, more[..|more| - 1]);
    }
  }

  lemma ChainGrows(previous: set<Node>, facts: seq<Fact>, more: seq<Fact>)
    requires facts <= more
    ensures Chain(previous, facts) <= Chain(previous, more)
  {
    assert more == facts + more[|facts|..];
    ChainAppend(previous, facts, more[|facts|..]);
  }

  /** The nodes of the main chain, each after the one before it. */
  function NodesOf(lines: seq<Line>, finished: bool): seq<Node> {
    Chain({}, Said(MainChain(lines, finished)))
  }

  /** Then growth only ever appends nodes. */
  lemma LongerRolloutAppendsNodes(lines: seq<Line>, n: nat, finished: bool)
    requires n <= |lines| && Appends(lines, n, finished)
    ensures NodesOf(lines[..n], false) <= NodesOf(lines, finished)
  {
    hide MainChain, Appends, Said;
    LongerRolloutAppends(lines, n, finished);
    SaidGrows(MainChain(lines[..n], false), MainChain(lines, finished));
    ChainGrows({}, Said(MainChain(lines[..n], false)), Said(MainChain(lines, finished)));
  }

  // ------------------------------------------------- nodes that tell records

  lemma {:induction false} SaidCons(records: seq<KeptRecord>)
    requires records != []
    ensures Said(records) == FactsIn(records[0].parts) + Said(records[1..])
    decreases |records|
  {
    var n := |records| - 1;
    if n > 0 {
      SaidCons(records[..n]);
      assert records[..n][1..] == records[1..][..n - 1];
      assert Said(records[1..]) == Said(records[1..][..n - 1]) + FactsIn(records[n].parts);
    } else {
      assert records[1..] == [] && records[..0] == [];
    }
  }

  /** What a chain says first tells which record says it. */
  ghost predicate FirstFactsTell(records: seq<KeptRecord>, more: seq<KeptRecord>) {
    && (forall a | a in records :: a.parts != [])
    && (forall b | b in more :: b.parts != [])
    && (forall a, b | a in records && b in more :: a.parts[0].fact == b.parts[0].fact ==> a == b)
  }

  lemma SaidNothing(records: seq<KeptRecord>)
    requires forall a | a in records :: a.parts != []
    ensures records != [] ==> Said(records) != [] && Said(records)[0] == records[0].parts[0].fact
    ensures records == [] ==> Said(records) == []
  {
    if records != [] {
      SaidCons(records);
      assert records[0] in records;
    }
  }

  /** Then the facts are a prefix only where the records are. */
  lemma {:induction false} SaidTells(records: seq<KeptRecord>, more: seq<KeptRecord>)
    requires FirstFactsTell(records, more) && Said(records) <= Said(more)
    ensures records <= more
    decreases |records|
  {
    hide Said;
    if records != [] {
      SaidNothing(records);
      SaidNothing(more);
      assert Said(more)[0] == Said(records)[0];
      assert records[0] in records && more[0] in more;
      SaidCons(records);
      SaidCons(more);
      SamePrefix(FactsIn(records[0].parts), Said(records[1..]), Said(more[1..]));
      SaidTells(records[1..], more[1..]);
      assert records == [records[0]] + records[1..] && more == [more[0]] + more[1..];
    }
  }

  lemma SamePrefix(head: seq<Fact>, a: seq<Fact>, b: seq<Fact>)
    requires head + a <= head + b
    ensures a <= b
  {
    forall i | 0 <= i < |a| ensures a[i] == b[i] {
      assert (head + a)[|head| + i] == (head + b)[|head| + i];
    }
  }

  lemma {:induction false} ChainTells(previous: set<Node>, facts: seq<Fact>, more: seq<Fact>)
    requires Chain(previous, facts) <= Chain(previous, more)
    ensures facts <= more
    decreases |facts|
  {
    if facts != [] {
      var chain, longer := Chain(previous, facts), Chain(previous, more);
      assert chain[0] == longer[0];
      var first := Node(previous, facts[0]);
      assert first == Node(previous, more[0]);
      var rest, longerRest := Chain({first}, facts[1..]), Chain({first}, more[1..]);
      forall i | 0 <= i < |rest| ensures rest[i] == longerRest[i] {
        assert chain[i + 1] == longer[i + 1];
      }
      ChainTells({first}, facts[1..], more[1..]);
      assert facts == [facts[0]] + facts[1..] && more == [more[0]] + more[1..];
    }
  }

  /** All a line says, whatever the events say. */
  function AllParts(line: Line): seq<Part> {
    EntryOf(line.body, false).parts
  }

  /** No fact is said twice in the rollout. */
  ghost predicate SaysOnce(lines: seq<Line>) {
    forall i, p, j, q | 0 <= i < |lines| && 0 <= p < |AllParts(lines[i])|
                        && 0 <= j < |lines| && 0 <= q < |AllParts(lines[j])| ::
      AllParts(lines[i])[p].fact == AllParts(lines[j])[q].fact ==> i == j && p == q
  }

  /** Where on its line a record's parts begin. */
  function PartsFrom(line: Line, hasEvents: bool): nat {
    if hasEvents && line.body.Response? then |line.body.spoken| else 0
  }

  lemma PartsAt(line: Line, hasEvents: bool)
    ensures PartsFrom(line, hasEvents) <= |AllParts(line)|
    ensures EntryOf(line.body, hasEvents).parts == AllParts(line)[PartsFrom(line, hasEvents)..]
  {
  }

  /** Every record of a chain is a line's. */
  ghost predicate OfLines(lines: seq<Line>, hasEvents: bool, records: seq<KeptRecord>) {
    forall a | a in records :: OfLine(lines, hasEvents, a)
  }

  ghost predicate OfLine(lines: seq<Line>, hasEvents: bool, a: KeptRecord) {
    a.line < |lines| && a.parts != [] && a.parts == EntryOf(lines[a.line].body, hasEvents).parts
  }

  lemma {:induction false} EntriesSay(lines: seq<Line>, hasEvents: bool)
    ensures forall e | e in Entries(lines, hasEvents) :: e.parts != []
    decreases |lines|
  {
    if lines != [] {
      EntriesSay(lines[..|lines| - 1], hasEvents);
    }
  }

  lemma ChainedOfLines(lines: seq<Line>, hasEvents: bool, finished: bool)
    ensures OfLines(lines, hasEvents, Chained(lines, hasEvents, finished))
  {
    hide Kept, Entries, LineNumbers, EntryOf;
    EntriesSay(lines, hasEvents);
    NumbersHold(lines, hasEvents);
    KeptInRange(lines, hasEvents, finished);
  }

  lemma OfMoreLines(lines: seq<Line>, n: nat, hasEvents: bool, records: seq<KeptRecord>)
    requires n <= |lines| && OfLines(lines[..n], hasEvents, records)
    ensures OfLines(lines, hasEvents, records)
  {
    hide EntryOf;
  }

  lemma OneRecord(lines: seq<Line>, early: bool, late: bool, a: KeptRecord, b: KeptRecord)
    requires SaysOnce(lines) && OfLine(lines, early, a) && OfLine(lines, late, b)
    requires a.parts[0].fact == b.parts[0].fact
    ensures a == b
  {
    hide AllParts, EntryOf, PartsFrom;
    PartsAt(lines[a.line], early);
    PartsAt(lines[b.line], late);
    var p, q := PartsFrom(lines[a.line], early), PartsFrom(lines[b.line], late);
    assert AllParts(lines[a.line])[p] == a.parts[0] && AllParts(lines[b.line])[q] == b.parts[0];
  }

  lemma FactsTell(lines: seq<Line>, early: bool, late: bool, records: seq<KeptRecord>, more: seq<KeptRecord>)
    requires SaysOnce(lines) && OfLines(lines, early, records) && OfLines(lines, late, more)
    ensures FirstFactsTell(records, more)
  {
    hide SaysOnce, EntryOf;
    forall a, b | a in records && b in more && a.parts[0].fact == b.parts[0].fact ensures a == b {
      OneRecord(lines, early, late, a, b);
    }
  }

  /** Where no fact is said twice, the nodes are exact too: growth appends nodes
      exactly where it appends records. */
  lemma LongerRolloutAppendsNodesIff(lines: seq<Line>, n: nat, finished: bool)
    requires n <= |lines| && SaysOnce(lines)
    ensures NodesOf(lines[..n], false) <= NodesOf(lines, finished) <==> Appends(lines, n, finished)
  {
    hide Appends, Said, Chained, SaysOnce, HasEvents;
    var records, more := MainChain(lines[..n], false), MainChain(lines, finished);
    if Appends(lines, n, finished) {
      LongerRolloutAppendsNodes(lines, n, finished);
    }
    if NodesOf(lines[..n], false) <= NodesOf(lines, finished) {
      ChainTells({}, Said(records), Said(more));
      ChainedOfLines(lines[..n], HasEvents(lines[..n]), false);
      OfMoreLines(lines, n, HasEvents(lines[..n]), records);
      ChainedOfLines(lines, HasEvents(lines), finished);
      FactsTell(lines, HasEvents(lines[..n]), HasEvents(lines), records, more);
      SaidTells(records, more);
      LongerRolloutAppends(lines, n, finished);
    }
  }
}
