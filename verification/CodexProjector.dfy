/** The projector of a Codex rollout: it collects records line by line and then
    drains them into the main chain. */
module CodexProjectors {
  import opened Base
  import opened CodexChains

  /** One record of the chain; locators are record numbers. */
  datatype SourceRecord = SourceRecord(locator: nat, predecessors: seq<nat>, parts: seq<Part>)

  class Projector {
    const hasEvents: bool
    const finished: bool
    var records: seq<SourceRecord>
    var eventPrompts: seq<Option<seq<Text>>>
    var responsePrompts: set<Text>
    var responseItems: bool
    var heldBackRecords: nat
    var heldBackFacts: nat
    var mirroredPrompts: nat
    var skippedRecords: nat

    /** Every record is still unlinked and has its prompt slot. */
    ghost predicate Valid()
      reads this
    {
      |records| == |eventPrompts| && forall i | 0 <= i < |records| ::
          records[i] == SourceRecord(i, [], records[i].parts)
    }

    ghost function Contents(): seq<Entry>
      reads this
      requires Valid()
    {
      seq(|records|, i requires 0 <= i < |records| && |records| == |eventPrompts| reads this =>
        Entry(records[i].parts, eventPrompts[i]))
    }

    /** The projector has read exactly these lines, and counted those without content. */
    ghost predicate HasRead(lines: seq<Line>)
      reads this
    {
      && Valid() && Contents() == Entries(lines, hasEvents)
      && skippedRecords + |Contents()| == |lines|
      && responsePrompts == Answers(lines) && responseItems == Responds(lines)
    }

    constructor (hasEvents: bool, finished: bool)
      ensures HasRead([]) && this.hasEvents == hasEvents && this.finished == finished
      ensures heldBackRecords == heldBackFacts == mirroredPrompts == 0
    {
      this.hasEvents, this.finished := hasEvents, finished;
      records, eventPrompts, responsePrompts, responseItems := [], [], {}, false;
      heldBackRecords, heldBackFacts, mirroredPrompts, skippedRecords := 0, 0, 0, 0;
    }

    /** Put one record with content on the chain; returns whether it had any. */
    method Push(parts: seq<Part>) returns (pushed: bool)
      requires Valid()
      modifies this`records, this`eventPrompts, this`skippedRecords
      ensures Valid() && pushed == (parts != [])
      ensures Contents() == old(Contents()) + (if parts == [] then [] else [Entry(parts, None)])
      ensures pushed ==> records == old(records) + [SourceRecord(|old(records)|, [], parts)]
      ensures pushed ==> eventPrompts == old(eventPrompts) + [None]
      ensures skippedRecords == old(skippedRecords) + (if parts == [] then 1 else 0)
    {
      if parts == [] {
        skippedRecords := skippedRecords + 1;
        return false;
      }
      records := records + [SourceRecord(|records|, [], parts)];
      eventPrompts := eventPrompts + [None];
      pushed := true;
    }

    /** Read one line. */
    method ProjectRecord(line: Line, ghost before: seq<Line>)
      requires HasRead(before)
      modifies this`records, this`eventPrompts, this`responsePrompts, this`responseItems, this`skippedRecords
      ensures HasRead(before + [line])
    {
      hide Entries, Answers, Responds, PromptTexts;
      EntriesNext(before, line, hasEvents);
      AnswersNext(before, line);
      match line.body {
        case Event(parts, prompt) =>
          var pushed := Push(parts);
          if pushed {
            eventPrompts := eventPrompts[|eventPrompts| - 1 := if prompt then Some(PromptTexts(parts)) else None];
            assert Contents() == old(Contents()) + [EntryOf(line.body, hasEvents)];
          }
        case Response(spoken, rest, says) =>
          responseItems := true;
          responsePrompts := responsePrompts + says;
          var _ := Push(if hasEvents then rest else spoken + rest);
        case Other(parts) =>
          var _ := Push(parts);
        case Nothing =>
          skippedRecords := skippedRecords + 1;
      }
    }

    /** Where the live tail begins, if there is one. */
    method FindHeld() returns (held: Option<nat>)
      requires Valid()
      ensures var entries := Contents();
              var h := if responseItems && !finished then FirstUndecided(entries, responsePrompts, 0) else |entries|;
              held == if h < |entries| then Some(h) else None
    {
      if !responseItems || finished {
        return None;
      }
      ghost var entries := Contents();
      for index := 0 to |eventPrompts|
        invariant FirstUndecided(entries, responsePrompts, 0) == FirstUndecided(entries, responsePrompts, index)
      {
        var after := false;
        for j := index + 1 to |records|
          invariant after <==> exists i | index < i < j :: Produces(entries[i])
        {
          assert entries[j] == Entry(records[j].parts, eventPrompts[j]);
          after := after || Produces(Entry(records[j].parts, eventPrompts[j]));
        }
        assert after == ProducedAfter(entries, index);
        var entry := Entry(records[index].parts, eventPrompts[index]);
        assert entry == entries[index];
        if Prompts(entry) && !Mirrored(entry, responsePrompts) && !after {
          return Some(index);
        }
      }
      held := None;
    }

    /** Drain the records into the main chain: every kept record after the one
        before it, the live tail held back, mirrored prompts dropped. */
    method Chain() returns (chained: seq<SourceRecord>)
      requires Valid()
      modifies this
      ensures records == [] && eventPrompts == [] && responsePrompts == {} && Valid()
      ensures var entries := old(Contents());
              var h := if old(responseItems) && !finished then FirstUndecided(entries, old(responsePrompts), 0)
                  else |entries|;
              var kept := Unmirrored(entries, old(responsePrompts), h);
              && Linked(chained, kept, entries)
              && heldBackRecords == old(heldBackRecords) + |entries| - h
              && heldBackFacts == old(heldBackFacts) + TotalParts(entries[h..])
              && mirroredPrompts == old(mirroredPrompts) + h - |kept|
              && skippedRecords == old(skippedRecords) + h - |kept|
    {
      hide FirstUndecided, Unmirrored, TotalParts;
      ghost var entries := Contents();
      var held := FindHeld();
      var taken, prompts, answers := records, eventPrompts, responsePrompts;
      records, eventPrompts, responsePrompts := [], [], {};
      var h := if held.Some? then held.value else |taken|;
      var heldFacts := CountParts(taken, h, entries);
      heldBackRecords := heldBackRecords + |taken| - h;
      heldBackFacts := heldBackFacts + heldFacts;
      var dropped;
      chained, dropped := LinkRecords(taken, prompts, answers, h, entries);
      mirroredPrompts := mirroredPrompts + dropped;
      skippedRecords := skippedRecords + dropped;
    }
  }

  /** The facts of the records from h on. */
  method CountParts(taken: seq<SourceRecord>, h: nat, ghost entries: seq<Entry>) returns (total: nat)
    requires h <= |taken| == |entries| && forall i | 0 <= i < |taken| :: entries[i].parts == taken[i].parts
    ensures total == TotalParts(entries[h..])
  {
    total := 0;
    for i := h to |taken|
      invariant total == TotalParts(entries[h..i])
    {
      TotalPartsNext(entries, h, i);
      total := total + |taken[i].parts|;
    }
    assert entries[h..] == entries[h..|taken|];
  }

  lemma LinkNext(entries: seq<Entry>, answers: set<Text>, i: nat, chained: seq<SourceRecord>)
    requires i < |entries| && Linked(chained, Unmirrored(entries, answers, i), entries)
    ensures Mirrored(entries[i], answers) ==> Linked(chained, Unmirrored(entries, answers, i + 1), entries)
    ensures !Mirrored(entries[i], answers) ==>
              var previous := if chained == [] then [] else [chained[|chained| - 1].locator];
              Linked(chained + [SourceRecord(i, previous, entries[i].parts)], Unmirrored(entries, answers, i + 1),
                     entries)
  {
    hide Mirrored, Linked;
    var kept := Unmirrored(entries, answers, i);
    assert kept + [] == kept;
    LinkedMore(chained, kept, entries, i);
  }

  lemma LinkedMore(chained: seq<SourceRecord>, kept: seq<nat>, entries: seq<Entry>, i: nat)
    requires Linked(chained, kept, entries) && i < |entries|
    ensures var previous := if chained == [] then [] else [chained[|chained| - 1].locator];
            Linked(chained + [SourceRecord(i, previous, entries[i].parts)], kept + [i], entries)
  {
    var n := |chained|;
    var previous: seq<nat> := if chained == [] then [] else [chained[n - 1].locator];
    var more := chained + [SourceRecord(i, previous, entries[i].parts)];
    var keptMore := kept + [i];
    forall k: nat | k < |more| ensures LinkedAt(more, keptMore, entries, k) {
      if k < n {
        assert LinkedAt(chained, kept, entries, k);
      } else if n > 0 {
        assert LinkedAt(chained, kept, entries, n - 1);
      }
    }
  }

  /** Link the first h records, each after the one before it, but for mirrored prompts. */
  method LinkRecords(taken: seq<SourceRecord>, prompts: seq<Option<seq<Text>>>, answers: set<Text>, h: nat,
                     ghost entries: seq<Entry>)
      returns (chained: seq<SourceRecord>, dropped: nat)
    requires h <= |taken| == |prompts| == |entries|
    requires forall i | 0 <= i < |taken| ::
               taken[i] == SourceRecord(i, [], taken[i].parts) && entries[i] == Entry(taken[i].parts, prompts[i])
    ensures Linked(chained, Unmirrored(entries, answers, h), entries) && dropped == h - |chained|
  {
    hide Mirrored;
    chained, dropped := [], 0;
    for i := 0 to h
      invariant Linked(chained, Unmirrored(entries, answers, i), entries)
      invariant dropped == i - |chained|
    {
      LinkNext(entries, answers, i, chained);
      if Mirrored(Entry(taken[i].parts, prompts[i]), answers) {
        dropped := dropped + 1;
        continue;
      }
      var previous := if chained == [] then [] else [chained[|chained| - 1].locator];
      chained := chained + [taken[i].(predecessors := previous)];
    }
  }

  function TotalParts(entries: seq<Entry>): nat {
    if entries == [] then 0 else TotalParts(entries[..|entries| - 1]) + |entries[|entries| - 1].parts|
  }

  lemma TotalPartsNext(entries: seq<Entry>, h: nat, i: nat)
    requires h <= i < |entries|
    ensures TotalParts(entries[h..i + 1]) == TotalParts(entries[h..i]) + |entries[i].parts|
  {
    assert entries[h..i + 1][..i - h] == entries[h..i];
  }

  /** The kept records in order, each naming the one before it. */
  ghost predicate Linked(chained: seq<SourceRecord>, kept: seq<nat>, entries: seq<Entry>) {
    |chained| == |kept| && forall i: nat | i < |chained| :: LinkedAt(chained, kept, entries, i)
  }

  ghost predicate LinkedAt(chained: seq<SourceRecord>, kept: seq<nat>, entries: seq<Entry>, i: nat)
    requires i < |chained| == |kept|
  {
    && kept[i] < |entries| && chained[i].locator == kept[i] && chained[i].parts == entries[kept[i]].parts
    && (i == 0 ==> chained[i].predecessors == [])
    && (i > 0 ==> chained[i].predecessors == [kept[i - 1]])
  }

  lemma EntriesNext(lines: seq<Line>, line: Line, hasEvents: bool)
    ensures var e := EntryOf(line.body, hasEvents);
            Entries(lines + [line], hasEvents) == Entries(lines, hasEvents) + (if e.parts == [] then [] else [e])
  {
    assert (lines + [line])[..|lines|] == lines;
  }

  lemma AnswersNext(lines: seq<Line>, line: Line)
    ensures Answers(lines + [line]) == Answers(lines) + (if line.body.Response? then line.body.says else {})
    ensures Responds(lines + [line]) <==> Responds(lines) || line.body.Response?
  {
    assert line in lines + [line];
    assert forall l | l in lines :: l in lines + [line];
  }

  /** Project a whole rollout; every line is on the chain, held back or skipped. */
  method ProjectRollout(lines: seq<Line>, finished: bool)
      returns (chained: seq<SourceRecord>, heldBack: nat, skipped: nat)
    ensures |chained| + heldBack + skipped == |lines|
    ensures heldBack == |Entries(lines, HasEvents(lines))| - HeldFrom(lines, HasEvents(lines), finished)
    ensures Linked(chained, Kept(lines, HasEvents(lines), finished), Entries(lines, HasEvents(lines)))
    ensures SaysAlike(chained, MainChain(lines, finished))
  {
    var hasEvents := false;
    for i := 0 to |lines|
      invariant hasEvents == HasEvents(lines[..i])
    {
      TakeNext(lines, i);
      hasEvents := hasEvents || MentionsEvents(lines[i]);
    }
    TakeAll(lines);
    var projector := new Projector(hasEvents, finished);
    for i := 0 to |lines|
      invariant projector.HasRead(lines[..i])
      invariant projector.hasEvents == hasEvents && projector.finished == finished && projector.heldBackRecords == 0
      invariant fresh(projector)
    {
      TakeNext(lines, i);
      projector.ProjectRecord(lines[i], lines[..i]);
    }
    chained := projector.Chain();
    heldBack, skipped := projector.heldBackRecords, projector.skippedRecords;
    LinkedSaysAlike(lines, finished, chained);
  }

  /** Record by record, the chain says what the main chain says. */
  ghost predicate SaysAlike(chained: seq<SourceRecord>, records: seq<KeptRecord>) {
    |chained| == |records| && forall i | 0 <= i < |chained| :: chained[i].parts == records[i].parts
  }

  lemma LinkedSaysAlike(lines: seq<Line>, finished: bool, chained: seq<SourceRecord>)
    requires Linked(chained, Kept(lines, HasEvents(lines), finished), Entries(lines, HasEvents(lines)))
    ensures SaysAlike(chained, MainChain(lines, finished))
  {
    hide Kept, Entries, LineNumbers;
    KeptInRange(lines, HasEvents(lines), finished);
    forall i: nat | i < |chained| ensures chained[i].parts == MainChain(lines, finished)[i].parts {
      assert LinkedAt(chained, Kept(lines, HasEvents(lines), finished), Entries(lines, HasEvents(lines)), i);
    }
  }
}
