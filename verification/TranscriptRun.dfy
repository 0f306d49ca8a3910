/** The placing machine on an unbranched corpus does what reading the
    transcript says, and a longer transcript only appends nodes. */
module TranscriptRuns {
  import opened Base
  import opened Nodes
  import opened Graphs
  import opened Placements
  import T = Transcripts

  /** One record after another. */
  ghost predicate Linear(c: Corpus, order: seq<Key>) {
    && c.Valid() && Distinct(order) && Elements(order) == c.parents.Keys
    && forall i | 0 <= i < |order| :: Up(c.parents, order[i]) == if i == 0 then {} else {order[i - 1]}
  }

  lemma LinearChildren(c: Corpus, order: seq<Key>, i: nat)
    requires Linear(c, order) && i < |order|
    ensures Children(c.parents, order[i]) == if i + 1 < |order| then {order[i + 1]} else {}
  {
    forall k ensures k in Children(c.parents, order[i]) <==> i + 1 < |order| && k == order[i + 1] {
      if k in c.parents {
        assert k in Elements(order);
        var j :| 0 <= j < |order| && order[j] == k;
        if j > 0 && order[j - 1] == order[i] {
          assert j - 1 == i;
        }
      }
      if i + 1 < |order| && k == order[i + 1] {
        assert k in Elements(order);
      }
    }
  }

  // --------------------------------------------------------------- threads

  /** The facts of a list of records, in order. */
  function Facts(c: Corpus, keys: seq<Key>): seq<Fact>
    requires c.Valid() && Known(c, keys)
    decreases |keys|
  {
    if keys == [] then [] else Facts(c, keys[..|keys| - 1]) + c.facts[keys[|keys| - 1]]
  }

  /** The nodes of a list of records, in order. */
  function Thread(nodes: map<Key, seq<Node>>, keys: seq<Key>): seq<Node>
    requires forall k | k in keys :: k in nodes
    decreases |keys|
  {
    if keys == [] then [] else Thread(nodes, keys[..|keys| - 1]) + nodes[keys[|keys| - 1]]
  }

  function TailOf(chain: seq<Node>): set<Node> {
    if chain == [] then {} else {Last(chain)}
  }

  /** What is placed is one unbranched thread, in the order of `log`. */
  ghost predicate Emits(c: Corpus, w: Placed, log: seq<Key>) {
    && c.Valid() && w.log == log && Known(c, log)
    && w.nodes.Keys == Elements(log)
    && Thread(w.nodes, log) == Chain({}, Facts(c, log))
  }

  ghost predicate Threaded(c: Corpus, w: Placed, tail: set<Node>, log: seq<Key>) {
    Emits(c, w, log) && tail == TailOf(Chain({}, Facts(c, log)))
  }

  lemma {:induction false} ThreadSame(nodes: map<Key, seq<Node>>, nodes': map<Key, seq<Node>>, keys: seq<Key>)
    requires forall k | k in keys :: k in nodes && k in nodes' && nodes[k] == nodes'[k]
    ensures Thread(nodes, keys) == Thread(nodes', keys)
    decreases |keys|
  {
    if keys != [] {
      ThreadSame(nodes, nodes', keys[..|keys| - 1]);
    }
  }

  /** Going on with a thread: its next nodes follow its last one. */
  lemma ThreadGoesOn(facts: seq<Fact>, more: seq<Fact>)
    requires more != []
    ensures var tail := TailOf(Chain({}, facts));
            && Chain({}, facts + more) == Chain({}, facts) + Chain(tail, more)
            && TailOf(Chain({}, facts + more)) == {Last(Chain(tail, more))}
  {
    ChainAppend({}, facts, more);
    assert Chain({}, facts) == [] <==> facts == [];
  }

  lemma FactsAppend(c: Corpus, log: seq<Key>, k: Key)
    requires c.Valid() && Known(c, log) && k in c.parents
    ensures Known(c, log + [k]) && Facts(c, log + [k]) == Facts(c, log) + c.facts[k]
  {
    assert (log + [k])[..|log|] == log;
  }

  lemma ThreadAppend(nodes: map<Key, seq<Node>>, log: seq<Key>, k: Key, chain: seq<Node>)
    requires (forall x | x in log :: x in nodes) && k !in log
    ensures (forall x | x in log + [k] :: x in nodes[k := chain])
            && Thread(nodes[k := chain], log + [k]) == Thread(nodes, log) + chain
  {
    assert (log + [k])[..|log|] == log;
    ThreadSame(nodes, nodes[k := chain], log);
  }

  lemma PutThreaded(c: Corpus, w: Placed, tail: set<Node>, log: seq<Key>, k: Key)
    requires Threaded(c, w, tail, log) && k in c.parents && k !in log
    ensures var put := Put(c, w, k, tail); Threaded(c, put.placed, put.tail, log + [k])
  {
    hide Facts, Thread, Chain, TailOf;
    FactsAppend(c, log, k);
    ThreadGoesOn(Facts(c, log), c.facts[k]);
    ThreadAppend(w.nodes, log, k, Chain(tail, c.facts[k]));
    ElementsAppend(log, k);
  }

  lemma FirstApart(log: seq<Key>, deferred: seq<Key>)
    requires Distinct(log + deferred) && deferred != []
    ensures deferred[0] !in log && log + [deferred[0]] + deferred[1..] == log + deferred
  {
    assert (log + deferred)[|log|] == deferred[0];
    assert forall i | 0 <= i < |log| :: (log + deferred)[i] == log[i];
  }

  lemma {:induction false} CloseThreaded(c: Corpus, w: Placed, tail: set<Node>, log: seq<Key>, deferred: seq<Key>)
    requires c.Valid() && Threaded(c, w, tail, log) && Known(c, deferred) && Distinct(log + deferred)
    ensures var closed := Close(c, w, tail, deferred); Threaded(c, closed.placed, closed.tail, log + deferred)
    decreases |deferred|
  {
    hide Threaded, Put, Distinct;
    if deferred == [] {
      assert log + deferred == log;
    } else {
      FirstApart(log, deferred);
      assert deferred[0] in deferred;
      PutThreaded(c, w, tail, log, deferred[0]);
      var put := Put(c, w, deferred[0], tail);
      CloseThreaded(c, put.placed, put.tail, log + [deferred[0]], deferred[1..]);
    }
  }

  // ------------------------------------------------------------ refinement

  /** The machine stands where reading `keys` says. */
  ghost predicate Reads(c: Corpus, keys: seq<Key>, w: Placed, pl: Placement) {
    && c.Valid() && Known(c, keys) && Distinct(keys)
    && pl.message == T.OpenMessage(c.flow, keys)
    && pl.deferred == T.Pending(c.flow, keys)
    && Threaded(c, w, pl.tail, T.Unfinished(c.flow, keys))
  }

  lemma ReadsParts(c: Corpus, keys: seq<Key>, w: Placed, pl: Placement)
    requires Reads(c, keys, w, pl)
    ensures c.Valid() && Known(c, keys) && Known(c, pl.deferred)
    ensures Distinct(T.Unfinished(c.flow, keys) + pl.deferred)
    ensures forall k :: k in T.Unfinished(c.flow, keys) || k in pl.deferred <==> k in keys
  {
    hide Threaded, T.OpenMessage, T.Pending, T.Unfinished, T.Closed;
    T.ClosedIsUnfinishedAndPending(c.flow, keys);
    T.ClosedPermutes(c.flow, keys);
    var out := T.Closed(c.flow, keys);
    T.DistinctPermuted(keys, out);
    forall k ensures k in out <==> k in keys {
      assert k in multiset(out) <==> k in multiset(keys);
    }
  }

  lemma CloseReads(c: Corpus, keys: seq<Key>, w: Placed, pl: Placement)
    requires Reads(c, keys, w, pl) && Known(c, pl.deferred)
    ensures var closed := Close(c, w, pl.tail, pl.deferred);
            Threaded(c, closed.placed, closed.tail, T.Closed(c.flow, keys))
  {
    hide Threaded, Close, T.OpenMessage, T.Pending, T.Unfinished, T.Closed;
    ReadsParts(c, keys, w, pl);
    CloseThreaded(c, w, pl.tail, T.Unfinished(c.flow, keys), pl.deferred);
    T.ClosedIsUnfinishedAndPending(c.flow, keys);
  }

  lemma PerceiveReads(c: Corpus, keys: seq<Key>, w: Placed, pl: Placement, k: Key)
    requires Reads(c, keys, w, pl) && k in c.parents && k !in keys && Known(c, pl.deferred)
    ensures var e := Perceive(c, Working(w, pl), k); Reads(c, keys + [k], e.placed, e.state)
  {
    hide Threaded, Close, T.OpenMessage, T.Pending, T.Unfinished, T.Closed, T.OpenTail;
    ReadsParts(c, keys, w, pl);
    CloseReads(c, keys, w, pl);
    T.PendingAppend(c.flow, keys, k);
    T.OpenTailAppend(c.flow, keys, k);
    T.ClosedIsUnfinishedAndPending(c.flow, keys);
    var unfinished := T.Unfinished(c.flow, keys);
    var closed := Close(c, w, pl.tail, pl.deferred);
    if T.Joins(c.flow, keys, k) {
      if T.IsAct(c.flow, k) {
        PutThreaded(c, w, pl.tail, unfinished, k);
      } else {
        assert unfinished + [] == unfinished;
      }
    } else {
      PutThreaded(c, closed.placed, closed.tail, T.Closed(c.flow, keys), k);
      if c.flow[k] == Inside {
        assert pl.message == None;
        NothingPending(c, keys);
        PutThreaded(c, w, pl.tail, unfinished, k);
      }
    }
  }

  lemma NothingPending(c: Corpus, keys: seq<Key>)
    requires T.OpenMessage(c.flow, keys) == None
    ensures T.Pending(c.flow, keys) == [] && T.Closed(c.flow, keys) == T.Unfinished(c.flow, keys)
  {
    T.OpenTailStartsWithAct(c.flow, keys);
    T.ClosedIsUnfinishedAndPending(c.flow, keys);
  }

  /** Before record i the machine holds one state, that of the record before. */
  ghost predicate LinearAt(c: Corpus, order: seq<Key>, i: nat, r: Run)
    requires i <= |order|
  {
    if i == 0 then r == EMPTY_RUN
    else
      && r.held == {} && order[i - 1] in r.states && r.states == map[order[i - 1] := r.states[order[i - 1]]]
      && r.states[order[i - 1]].remaining == 1
      && Reads(c, order[..i], r.placed, r.states[order[i - 1]].state)
  }

  lemma StartReads(c: Corpus)
    requires c.Valid()
    ensures Reads(c, [], EMPTY_RUN.placed, START)
  {
    assert Elements<Key>([]) == {};
  }

  /** What record i enters from. */
  lemma LinearEnters(c: Corpus, order: seq<Key>, i: nat, r: Run)
    requires Linear(c, order) && i < |order| && LinearAt(c, order, i, r)
    ensures Runnable(c, r, order[i])
    ensures var e := Enter(c, r.placed, Taken(c, r, order[i]));
            Reads(c, order[..i], e.placed, e.state) && Known(c, e.state.deferred)
    ensures Release(r.states, Up(c.parents, order[i])) == map[] && r.held == {}
  {
    hide Threaded, T.OpenMessage, T.Pending, T.Unfinished;
    assert order[i] in Elements(order);
    if i == 0 {
      StartReads(c);
      assert order[..0] == [];
    } else {
      var p := order[i - 1];
      ReadsParts(c, order[..i], r.placed, r.states[p].state);
      SortedOne(p);
      assert Taken(c, r, order[i]) == [r.states[p].state];
    }
  }

  lemma SortedOne(p: Key)
    ensures Sorted({p}) == [p]
  {
    var s := Sorted({p});
    assert |s| == 1;
    assert s[0] in s;
  }

  lemma LinearStep(c: Corpus, order: seq<Key>, i: nat, r: Run)
    requires Linear(c, order) && i + 1 < |order| && LinearAt(c, order, i, r)
    ensures Runnable(c, r, order[i]) && LinearAt(c, order, i + 1, Step(c, r, order[i]))
  {
    hide Reads, Runnable, Enter, Taken, Release, Perceive, Up;
    LinearEnters(c, order, i, r);
    var e := Enter(c, r.placed, Taken(c, r, order[i]));
    LinearFresh(c, order, i);
    PerceiveReads(c, order[..i], e.placed, e.state, order[i]);
    LinearChildren(c, order, i);
    TakeNext(order, i);
  }

  lemma LinearFresh(c: Corpus, order: seq<Key>, i: nat)
    requires Linear(c, order) && i < |order|
    ensures order[i] in c.parents && order[i] !in order[..i]
  {
    assert order[i] in Elements(order);
  }

  /** What an unbranched transcript emits: all, or all but what its open message
      holds back. */
  function Output(c: Corpus, order: seq<Key>): seq<Key>
    requires order != []
  {
    if Finished(c, order[|order| - 1], T.Pending(c.flow, order)) then T.Closed(c.flow, order)
    else T.Unfinished(c.flow, order)
  }

  lemma LinearLast(c: Corpus, order: seq<Key>, r: Run)
    requires Linear(c, order) && order != [] && LinearAt(c, order, |order| - 1, r)
    ensures var k := order[|order| - 1];
            && Runnable(c, r, k) && Children(c.parents, k) == {}
            && Release(r.states, Up(c.parents, k)) == map[] && r.held == {}
            && var e := Perceive(c, Enter(c, r.placed, Taken(c, r, k)), k); Reads(c, order, e.placed, e.state)
  {
    hide Reads, LinearAt, Runnable, Enter, Taken, Release, Perceive, Up;
    var i := |order| - 1;
    LinearEnters(c, order, i, r);
    var entered := Enter(c, r.placed, Taken(c, r, order[i]));
    LinearFresh(c, order, i);
    PerceiveReads(c, order[..i], entered.placed, entered.state, order[i]);
    LinearChildren(c, order, i);
    TakeNext(order, i);
    TakeAll(order);
  }

  lemma LinearEnd(c: Corpus, order: seq<Key>, r: Run)
    requires Linear(c, order) && order != [] && LinearAt(c, order, |order| - 1, r)
    ensures var k := order[|order| - 1];
            && Runnable(c, r, k)
            && Emits(c, Step(c, r, k).placed, Output(c, order))
            && Step(c, r, k).held == (if Finished(c, k, T.Pending(c.flow, order)) then {}
                                      else Elements(T.Pending(c.flow, order)))
  {
    hide Emits, Linear, LinearAt, Runnable, Enter, Taken, Release, Perceive, Up, TailOf, Chain, Children, Elements,
      Facts, T.OpenMessage, T.Pending, T.Unfinished, T.Closed, Finished, Close;
    LinearLast(c, order, r);
    var k := order[|order| - 1];
    var e := Perceive(c, Enter(c, r.placed, Taken(c, r, k)), k);
    ReadsParts(c, order, e.placed, e.state);
    CloseReads(c, order, e.placed, e.state);
  }

  lemma {:induction false} LinearFrom(c: Corpus, order: seq<Key>, i: nat, r: Run)
    requires Linear(c, order) && i < |order| && LinearAt(c, order, i, r)
    ensures RunsThrough(c, r, order[i..])
    ensures var done := RunAll(c, r, order[i..]);
            && Emits(c, done.placed, Output(c, order))
            && done.held == (if Finished(c, order[|order| - 1], T.Pending(c.flow, order)) then {}
                             else Elements(T.Pending(c.flow, order)))
    decreases |order| - i
  {
    hide Linear, LinearAt, Emits, Runnable, Step, Output, Finished, T.Pending;
    assert order[i..][0] == order[i] && order[i..][1..] == order[i + 1..];
    if i + 1 < |order| {
      LinearStep(c, order, i, r);
      LinearFrom(c, order, i + 1, Step(c, r, order[i]));
    } else {
      LinearEnd(c, order, r);
      assert order[i + 1..] == [];
    }
  }

  /** The machine refines the reading: over an unbranched corpus it places, as
      one thread, exactly the output of the transcript, and holds the rest. */
  lemma LinearRun(c: Corpus, order: seq<Key>)
    requires Linear(c, order) && order != []
    ensures RunsThrough(c, EMPTY_RUN, order)
    ensures var r := RunAll(c, EMPTY_RUN, order);
            && Emits(c, r.placed, Output(c, order))
            && r.held == (if Finished(c, order[|order| - 1], T.Pending(c.flow, order)) then {}
                          else Elements(T.Pending(c.flow, order)))
  {
    hide Linear, Emits, Output, Finished, T.Pending, RunsThrough, RunAll;
    assert order[0..] == order;
    LinearFrom(c, order, 0, EMPTY_RUN);
  }

  // --------------------------------------------------------------- growth

  lemma {:induction false} ThreadPrefix(c: Corpus, keys: seq<Key>, more: seq<Key>)
    requires c.Valid() && Known(c, keys + more)
    ensures Known(c, keys) && Chain({}, Facts(c, keys)) <= Chain({}, Facts(c, keys + more))
    decreases |more|
  {
    if more == [] {
      assert keys + more == keys;
    } else {
      var n := |more| - 1;
      var shorter := keys + more[..n];
      assert keys + more == shorter + [more[n]];
      assert more[n] in keys + more;
      ThreadPrefix(c, keys, more[..n]);
      FactsAppend(c, shorter, more[n]);
      ChainAppend({}, Facts(c, shorter), c.facts[more[n]]);
    }
  }

  lemma {:induction false} SameFacts(c: Corpus, c': Corpus, keys: seq<Key>)
    requires c.Valid() && c'.Valid() && Known(c, keys) && Known(c', keys)
    requires forall k | k in keys :: c.facts[k] == c'.facts[k]
    ensures Facts(c, keys) == Facts(c', keys)
    decreases |keys|
  {
    if keys != [] {
      SameFacts(c, c', keys[..|keys| - 1]);
    }
  }

  /** c' holds the records of c, unchanged, and more after them. */
  ghost predicate Grown(c: Corpus, keys: seq<Key>, c': Corpus, more: seq<Key>) {
    && Linear(c, keys) && Linear(c', keys + more) && keys != []
    && forall k | k in keys :: k in c'.parents && c'.flow[k] == c.flow[k] && c'.facts[k] == c.facts[k]
  }

  lemma GrownOutput(c: Corpus, keys: seq<Key>, c': Corpus, more: seq<Key>)
    requires Grown(c, keys, c', more)
    ensures T.Unfinished(c.flow, keys) == T.Unfinished(c'.flow, keys)
    ensures T.Pending(c.flow, keys) == T.Pending(c'.flow, keys)
    ensures T.Closed(c.flow, keys) == T.Closed(c'.flow, keys)
    ensures Output(c', keys + more) == T.Closed(c'.flow, keys + more) ||
            Output(c', keys + more) == T.Unfinished(c'.flow, keys + more)
  {
    assert T.Agree(c.flow, c'.flow, keys) by {
      forall k | k in keys ensures k in c.flow && k in c'.flow && c.flow[k] == c'.flow[k] {
        assert k in Elements(keys);
      }
    }
    T.SameReading(c.flow, c'.flow, keys);
    T.OpenTailSameOthers(c.flow, c'.flow, keys);
    T.ClosedIsUnfinishedAndPending(c.flow, keys);
    T.ClosedIsUnfinishedAndPending(c'.flow, keys);
  }

  /** A prefix of the records emitted is a prefix of the nodes. */
  lemma OutputPrefix(c: Corpus, out: seq<Key>, w: Placed, c': Corpus, out': seq<Key>, w': Placed)
    requires Emits(c, w, out) && Emits(c', w', out') && out <= out'
    requires forall k | k in out :: k in c'.parents && c'.facts[k] == c.facts[k]
    ensures Thread(w.nodes, out) <= Thread(w'.nodes, out')
  {
    assert out' == out + out'[|out|..];
    ThreadPrefix(c', out, out'[|out|..]);
    SameFacts(c, c', out);
  }

  lemma OutputLogged(c: Corpus, order: seq<Key>)
    requires order != []
    ensures forall k | k in Output(c, order) :: k in order
  {
    hide T.Closed, T.Unfinished, T.Pending;
    T.ClosedIsUnfinishedAndPending(c.flow, order);
    T.ClosedPermutes(c.flow, order);
    forall k | k in T.Closed(c.flow, order) ensures k in order {
      assert k in multiset(T.Closed(c.flow, order));
    }
  }

  /** A longer transcript only appends nodes: what a transcript that is not yet
      finished emits is a prefix of the thread every longer one emits. */
  lemma LongerTranscriptAppends(c: Corpus, keys: seq<Key>, c': Corpus, more: seq<Key>)
    requires Grown(c, keys, c', more)
    requires Finished(c, keys[|keys| - 1], T.Pending(c.flow, keys)) ==> T.Pending(c.flow, keys) == []
    ensures RunsThrough(c, EMPTY_RUN, keys) && RunsThrough(c', EMPTY_RUN, keys + more)
    ensures var w := RunAll(c, EMPTY_RUN, keys).placed;
            var w' := RunAll(c', EMPTY_RUN, keys + more).placed;
            && w.nodes.Keys == Elements(w.log) && w'.nodes.Keys == Elements(w'.log)
            && Thread(w.nodes, w.log) <= Thread(w'.nodes, w'.log)
  {
    hide T.Closed, T.Unfinished, T.Pending, RunAll, RunsThrough, Finished, Chain, Thread, Linear;
    GrownOutput(c, keys, c', more);
    T.ClosedIsUnfinishedAndPending(c.flow, keys);
    T.ClosedIsUnfinishedAndPending(c'.flow, keys + more);
    T.UnfinishedOnlyGrows(c'.flow, keys, more);
    LinearRun(c, keys);
    LinearRun(c', keys + more);
    OutputLogged(c, keys);
    OutputPrefix(c, Output(c, keys), RunAll(c, EMPTY_RUN, keys).placed,
                 c', Output(c', keys + more), RunAll(c', EMPTY_RUN, keys + more).placed);
  }

  /** What a longer transcript leaves of a finished one, itself finished or still
      unfinished: the shorter held nothing inside an open message, or the next
      record outside does not go on with that message, or, in a finished one,
      there is no such record. */
  ghost predicate LeavesFlushed(flow: T.Flows, keys: seq<Key>, more: seq<Key>, finished: bool) {
    if finished then T.ClosesAfter(flow, keys, more) else T.CompletesAfter(flow, keys, more)
  }

  lemma OutputsAppend(c: Corpus, keys: seq<Key>, c': Corpus, more: seq<Key>)
    requires Grown(c, keys, c', more) && Finished(c, keys[|keys| - 1], T.Pending(c.flow, keys))
    ensures var all := keys + more;
            Output(c, keys) <= Output(c', all) <==>
            LeavesFlushed(c'.flow, keys, more, Finished(c', all[|all| - 1], T.Pending(c'.flow, all)))
  {
    hide T.Closed, T.Unfinished, T.Pending, T.ClosesAfter, T.CompletesAfter, Finished;
    GrownOutput(c, keys, c', more);
    T.ClosedOnlyGrows(c'.flow, keys, more);
    T.ClosedBeforeUnfinished(c'.flow, keys, more);
  }

  /** A longer transcript, finished or not, appends to a finished one exactly when
      it leaves what that one flushed; and then it appends nodes. */
  lemma FinishedTranscriptAppends(c: Corpus, keys: seq<Key>, c': Corpus, more: seq<Key>)
    requires Grown(c, keys, c', more)
    requires Finished(c, keys[|keys| - 1], T.Pending(c.flow, keys))
    ensures RunsThrough(c, EMPTY_RUN, keys) && RunsThrough(c', EMPTY_RUN, keys + more)
    ensures var all := keys + more;
            var w, w' := RunAll(c, EMPTY_RUN, keys).placed, RunAll(c', EMPTY_RUN, all).placed;
            && w.nodes.Keys == Elements(w.log) && w'.nodes.Keys == Elements(w'.log)
            && (w.log <= w'.log <==>
                LeavesFlushed(c'.flow, keys, more, Finished(c', all[|all| - 1], T.Pending(c'.flow, all))))
            && (w.log <= w'.log ==> Thread(w.nodes, w.log) <= Thread(w'.nodes, w'.log))
  {
    hide T.Closed, T.Unfinished, T.Pending, RunAll, RunsThrough, Finished, Chain, Thread, Linear, LeavesFlushed, Output;
    OutputsAppend(c, keys, c', more);
    LinearRun(c, keys);
    LinearRun(c', keys + more);
    OutputLogged(c, keys);
    if Output(c, keys) <= Output(c', keys + more) {
      OutputPrefix(c, Output(c, keys), RunAll(c, EMPTY_RUN, keys).placed,
                   c', Output(c', keys + more), RunAll(c', EMPTY_RUN, keys + more).placed);
    }
  }
}
