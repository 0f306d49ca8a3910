/** Unbranched transcripts: the placing machine refines a plain reading of the
    log. A transcript is cut into messages; each message gives its acts first
    and then what was logged inside it. A longer transcript only appends. */
module Transcripts {
  import opened Base
  import opened Placements

  type Flows = map<Key, Flow>

  // -------------------------------------------------------------- reading

  predicate IsAct(flow: Flows, k: Key) {
    k in flow && flow[k].Act?
  }

  predicate GoesOn(flow: Flows, m: Message, k: Key) {
    k in flow && (flow[k] == Inside || flow[k] == Act(m))
  }

  /** How many leading records leave message m open. */
  function RunLength(flow: Flows, m: Message, keys: seq<Key>): (n: nat)
    ensures n <= |keys|
    decreases |keys|
  {
    if keys == [] || !GoesOn(flow, m, keys[0]) then 0 else 1 + RunLength(flow, m, keys[1..])
  }

  /** The length of the first message: an act with all that leaves it open, or
      one record outside any message. */
  function MessageLength(flow: Flows, keys: seq<Key>): (n: nat)
    requires keys != []
    ensures 0 < n <= |keys|
  {
    if IsAct(flow, keys[0]) then 1 + RunLength(flow, flow[keys[0]].message, keys[1..]) else 1
  }

  function Acts(flow: Flows, keys: seq<Key>): seq<Key>
    decreases |keys|
  {
    if keys == [] then []
    else (if IsAct(flow, keys[0]) then [keys[0]] else []) + Acts(flow, keys[1..])
  }

  function Others(flow: Flows, keys: seq<Key>): seq<Key>
    decreases |keys|
  {
    if keys == [] then []
    else (if IsAct(flow, keys[0]) then [] else [keys[0]]) + Others(flow, keys[1..])
  }

  /** Each message's acts, then what was logged inside it. */
  function Closed(flow: Flows, keys: seq<Key>): seq<Key>
    decreases |keys|
  {
    if keys == [] then []
    else
      var n := MessageLength(flow, keys);
      Acts(flow, keys[..n]) + Others(flow, keys[..n]) + Closed(flow, keys[n..])
  }

  /** The message still open at the end, if any: its records. */
  function OpenTail(flow: Flows, keys: seq<Key>): seq<Key>
    decreases |keys|
  {
    if keys == [] then []
    else
      var n := MessageLength(flow, keys);
      if n < |keys| then OpenTail(flow, keys[n..])
      else if IsAct(flow, keys[0]) then keys
      else []
  }

  function OpenMessage(flow: Flows, keys: seq<Key>): Option<Message> {
    var t := OpenTail(flow, keys);
    if t != [] && IsAct(flow, t[0]) then Some(flow[t[0]].message) else None
  }

  /** What the open message holds back. */
  function Pending(flow: Flows, keys: seq<Key>): seq<Key> {
    Others(flow, OpenTail(flow, keys))
  }

  /** The closed output without what the open message holds back. */
  function Unfinished(flow: Flows, keys: seq<Key>): seq<Key>
    decreases |keys|
  {
    if keys == [] then []
    else
      var n := MessageLength(flow, keys);
      if n == |keys| && IsAct(flow, keys[0]) then Acts(flow, keys)
      else Acts(flow, keys[..n]) + Others(flow, keys[..n]) + Unfinished(flow, keys[n..])
  }

  lemma {:induction false} ClosedIsUnfinishedAndPending(flow: Flows, keys: seq<Key>)
    ensures Closed(flow, keys) == Unfinished(flow, keys) + Pending(flow, keys)
    decreases |keys|
  {
    if keys != [] {
      var n := MessageLength(flow, keys);
      if n == |keys| {
        assert keys[..n] == keys && keys[n..] == [];
      } else {
        ClosedIsUnfinishedAndPending(flow, keys[n..]);
      }
    }
  }

  // ------------------------------------------------------- one more record

  lemma {:induction false} ActsAppend(flow: Flows, keys: seq<Key>, k: Key)
    ensures Acts(flow, keys + [k]) == Acts(flow, keys) + (if IsAct(flow, k) then [k] else [])
    ensures Others(flow, keys + [k]) == Others(flow, keys) + (if IsAct(flow, k) then [] else [k])
    decreases |keys|
  {
    if keys != [] {
      assert (keys + [k])[1..] == keys[1..] + [k];
      ActsAppend(flow, keys[1..], k);
    }
  }

  lemma {:induction false} RunLengthAppend(flow: Flows, m: Message, keys: seq<Key>, k: Key)
    ensures RunLength(flow, m, keys + [k]) ==
            if RunLength(flow, m, keys) < |keys| || !GoesOn(flow, m, k) then RunLength(flow, m, keys)
            else |keys| + 1
    decreases |keys|
  {
    if keys != [] {
      assert (keys + [k])[1..] == keys[1..] + [k];
      RunLengthAppend(flow, m, keys[1..], k);
    }
  }

  /** k goes on with the message that is open after `keys`. */
  predicate Joins(flow: Flows, keys: seq<Key>, k: Key) {
    var m := OpenMessage(flow, keys);
    m.Some? && GoesOn(flow, m.value, k)
  }

  /** The output of the first message, when another record follows it. */
  function Head(flow: Flows, keys: seq<Key>): seq<Key>
    requires keys != []
  {
    var n := MessageLength(flow, keys);
    Acts(flow, keys[..n]) + Others(flow, keys[..n])
  }

  lemma FirstMessage(flow: Flows, keys: seq<Key>)
    requires keys != [] && MessageLength(flow, keys) < |keys|
    ensures var rest := keys[MessageLength(flow, keys)..];
            && OpenTail(flow, keys) == OpenTail(flow, rest)
            && Unfinished(flow, keys) == Head(flow, keys) + Unfinished(flow, rest)
  {
  }

  lemma MessageLengthAppend(flow: Flows, keys: seq<Key>, k: Key)
    requires keys != []
    ensures var n := MessageLength(flow, keys);
            MessageLength(flow, keys + [k]) ==
            if n == |keys| && IsAct(flow, keys[0]) && GoesOn(flow, flow[keys[0]].message, k) then n + 1 else n
  {
    assert (keys + [k])[1..] == keys[1..] + [k];
    if IsAct(flow, keys[0]) {
      RunLengthAppend(flow, flow[keys[0]].message, keys[1..], k);
    }
  }

  /** Where one more record leaves the open message. */
  ghost predicate Appends(flow: Flows, keys: seq<Key>, k: Key) {
    && OpenTail(flow, keys + [k]) ==
       (if Joins(flow, keys, k) then OpenTail(flow, keys) + [k] else if IsAct(flow, k) then [k] else [])
    && Unfinished(flow, keys + [k]) ==
       (if Joins(flow, keys, k) then Unfinished(flow, keys) + (if IsAct(flow, k) then [k] else [])
        else Unfinished(flow, keys) + Pending(flow, keys) + [k])
  }

  lemma FirstRecord(flow: Flows, k: Key)
    ensures OpenTail(flow, [k]) == (if IsAct(flow, k) then [k] else [])
    ensures Unfinished(flow, [k]) == [k]
  {
    var one := [k];
    assert one[..1] == one && one[1..] == [];
    assert MessageLength(flow, one) == 1;
    assert OpenTail(flow, []) == [] && Unfinished(flow, []) == [];
    ActsAppend(flow, [], k);
    assert [] + [k] == [k];
  }

  /** What one message, not yet followed by another, reads like. */
  lemma OneMessage(flow: Flows, keys: seq<Key>)
    requires keys != [] && MessageLength(flow, keys) == |keys|
    ensures OpenTail(flow, keys) == (if IsAct(flow, keys[0]) then keys else [])
    ensures Unfinished(flow, keys) == if IsAct(flow, keys[0]) then Acts(flow, keys)
            else Acts(flow, keys) + Others(flow, keys)
  {
    hide Acts, Others, RunLength;
    assert keys[..|keys|] == keys && keys[|keys|..] == [];
    assert Unfinished(flow, []) == [];
  }

  /** The only message goes on, or k comes after it. */
  lemma OneMessageAppends(flow: Flows, keys: seq<Key>, k: Key)
    requires keys != [] && MessageLength(flow, keys) == |keys|
    ensures Appends(flow, keys, k)
  {
    hide Acts, Others, RunLength, OpenTail, Unfinished, MessageLength;
    var more := keys + [k];
    var n := |keys|;
    MessageLengthAppend(flow, keys, k);
    OneMessage(flow, keys);
    ActsAppend(flow, keys, k);
    FirstRecord(flow, k);
    NoOthers(flow);
    if MessageLength(flow, more) == n {
      assert more[..n] == keys && more[n..] == [k];
      FirstMessage(flow, more);
      Associative(Acts(flow, keys), Others(flow, keys), [k]);
    } else {
      OneMessage(flow, more);
    }
  }

  lemma NoOthers(flow: Flows)
    ensures Others(flow, []) == []
  {
  }

  lemma LaterMessageAppends(flow: Flows, keys: seq<Key>, k: Key)
    requires keys != [] && MessageLength(flow, keys) < |keys|
    requires Appends(flow, keys[MessageLength(flow, keys)..], k)
    ensures Appends(flow, keys, k)
  {
    hide OpenTail, Unfinished, Acts, Others, MessageLength, IsAct, GoesOn;
    var n := MessageLength(flow, keys);
    var more := keys + [k];
    var rest := keys[n..];
    MessageLengthAppend(flow, keys, k);
    assert more[..n] == keys[..n] && more[n..] == rest + [k];
    FirstMessage(flow, keys);
    FirstMessage(flow, more);
    var head := Head(flow, keys);
    var unfinished := Unfinished(flow, rest);
    assert Unfinished(flow, more) == head + Unfinished(flow, rest + [k]);
    if Joins(flow, rest, k) {
      Associative(head, unfinished, if IsAct(flow, k) then [k] else []);
    } else {
      Associative(head, unfinished, Pending(flow, rest));
      Associative(head, unfinished + Pending(flow, rest), [k]);
    }
  }

  lemma Associative(a: seq<Key>, b: seq<Key>, c: seq<Key>)
    ensures a + (b + c) == a + b + c
  {
  }

  lemma {:induction false} OpenTailAppend(flow: Flows, keys: seq<Key>, k: Key)
    ensures Appends(flow, keys, k)
    decreases |keys|
  {
    var more := keys + [k];
    if keys == [] {
      assert more == [k];
      FirstRecord(flow, k);
    } else if MessageLength(flow, keys) == |keys| {
      OneMessageAppends(flow, keys, k);
    } else {
      OpenTailAppend(flow, keys[MessageLength(flow, keys)..], k);
      LaterMessageAppends(flow, keys, k);
    }
  }

  // -------------------------------------------------------------- growing

  /** The unfinished output of a transcript is a prefix of the unfinished output
      of every extension. */
  lemma {:induction false} UnfinishedOnlyGrows(flow: Flows, keys: seq<Key>, more: seq<Key>)
    ensures Unfinished(flow, keys) <= Unfinished(flow, keys + more)
    decreases |more|
  {
    if more == [] {
      assert keys + more == keys;
    } else {
      OpenTailAppend(flow, keys, more[0]);
      UnfinishedOnlyGrows(flow, keys + [more[0]], more[1..]);
      assert keys + more == keys + [more[0]] + more[1..];
    }
  }

  /** The first record of `more` that is not logged inside a message. */
  function NextOutside(flow: Flows, more: seq<Key>): Option<Key>
    decreases |more|
  {
    if more == [] then None
    else if more[0] in flow && flow[more[0]] == Inside then NextOutside(flow, more[1..])
    else Some(more[0])
  }

  /** The extension shows the open message complete, or shows nothing of it. */
  predicate ClosesAfter(flow: Flows, keys: seq<Key>, more: seq<Key>) {
    var next := NextOutside(flow, more);
    Pending(flow, keys) == [] || next == None || !Joins(flow, keys, next.value)
  }

  lemma InsideJoins(flow: Flows, keys: seq<Key>, k: Key)
    requires k in flow && flow[k] == Inside && Pending(flow, keys) != []
    ensures Joins(flow, keys, k)
  {
    OpenTailStartsWithAct(flow, keys);
  }

  lemma {:induction false} OpenTailStartsWithAct(flow: Flows, keys: seq<Key>)
    ensures OpenTail(flow, keys) != [] ==> IsAct(flow, OpenTail(flow, keys)[0])
    decreases |keys|
  {
    if keys != [] {
      OpenTailStartsWithAct(flow, keys[MessageLength(flow, keys)..]);
    }
  }

  /** One more record inside the open message only adds to what is pending. */
  lemma InsideAppends(flow: Flows, keys: seq<Key>, k: Key)
    requires k in flow && flow[k] == Inside && Pending(flow, keys) != []
    ensures var next := keys + [k];
            && Unfinished(flow, next) == Unfinished(flow, keys)
            && Pending(flow, next) == Pending(flow, keys) + [k]
            && OpenMessage(flow, next) == OpenMessage(flow, keys)
  {
    OpenTailAppend(flow, keys, k);
    InsideJoins(flow, keys, k);
    ActsAppend(flow, OpenTail(flow, keys), k);
    OpenTailStartsWithAct(flow, keys);
    hide OpenTail, Unfinished, Others;
    assert OpenTail(flow, keys + [k])[0] == OpenTail(flow, keys)[0];
  }

  lemma {:induction false} OutputOnceClosed(flow: Flows, keys: seq<Key>, more: seq<Key>)
    requires ClosesAfter(flow, keys, more)
    ensures Closed(flow, keys) <= Closed(flow, keys + more)
    decreases |more|
  {
    hide OpenTail, OpenMessage, Unfinished, Pending, Closed;
    ClosedIsUnfinishedAndPending(flow, keys);
    ClosedIsUnfinishedAndPending(flow, keys + more);
    if Pending(flow, keys) == [] {
      UnfinishedOnlyGrows(flow, keys, more);
    } else if more == [] {
      assert keys + more == keys;
    } else {
      var k := more[0];
      var next := keys + [k];
      assert keys + more == next + more[1..];
      if k in flow && flow[k] == Inside {
        InsideAppends(flow, keys, k);
        OutputOnceClosed(flow, next, more[1..]);
        ClosedIsUnfinishedAndPending(flow, next);
      } else {
        OpenTailAppend(flow, keys, k);
        UnfinishedOnlyGrows(flow, next, more[1..]);
      }
    }
  }

  lemma {:induction false} OutputReopened(flow: Flows, keys: seq<Key>, more: seq<Key>)
    requires !ClosesAfter(flow, keys, more)
    ensures var k := NextOutside(flow, more).value;
            k in more && Unfinished(flow, keys) + [k] <= Unfinished(flow, keys + more)
    decreases |more|
  {
    hide OpenTail, OpenMessage, Unfinished, Pending, Closed;
    var k := more[0];
    var next := keys + [k];
    assert keys + more == next + more[1..];
    if k in flow && flow[k] == Inside {
      InsideAppends(flow, keys, k);
      OutputReopened(flow, next, more[1..]);
    } else {
      OpenTailAppend(flow, keys, k);
      UnfinishedOnlyGrows(flow, next, more[1..]);
      JoiningIsAct(flow, keys, k);
    }
  }

  /** What joins an open message from outside is one of its acts. */
  lemma JoiningIsAct(flow: Flows, keys: seq<Key>, k: Key)
    requires Joins(flow, keys, k) && flow[k] != Inside
    ensures IsAct(flow, k)
  {
  }

  /** Everything a closed output holds was logged. */
  lemma {:induction false} PendingLogged(flow: Flows, keys: seq<Key>, k: Key)
    requires k in Pending(flow, keys)
    ensures k in keys
    decreases |keys|
  {
    if keys != [] {
      var n := MessageLength(flow, keys);
      if n < |keys| {
        PendingLogged(flow, keys[n..], k);
      } else {
        OthersLogged(flow, keys, k);
      }
    }
  }

  lemma {:induction false} OthersLogged(flow: Flows, keys: seq<Key>, k: Key)
    requires k in Others(flow, keys)
    ensures k in keys
    decreases |keys|
  {
    if keys != [] && !(keys[0] == k) {
      OthersLogged(flow, keys[1..], k);
    }
  }

  /** The closed output of a transcript is a prefix of the closed output of an
      extension exactly when the open message held nothing back or the next
      record outside does not go on with it. */
  lemma ClosedOnlyGrows(flow: Flows, keys: seq<Key>, more: seq<Key>)
    requires Distinct(keys + more)
    ensures Closed(flow, keys) <= Closed(flow, keys + more) <==> ClosesAfter(flow, keys, more)
  {
    hide OpenTail, OpenMessage, Unfinished, Pending, Closed, Joins, ClosesAfter;
    if ClosesAfter(flow, keys, more) {
      OutputOnceClosed(flow, keys, more);
    } else {
      ClosedIsUnfinishedAndPending(flow, keys + more);
      ReopenedDiffers(flow, keys, more, Closed(flow, keys + more));
    }
  }

  /** The extension shows the open message complete: a record outside follows
      that does not go on with it. */
  predicate CompletesAfter(flow: Flows, keys: seq<Key>, more: seq<Key>) {
    var next := NextOutside(flow, more);
    Pending(flow, keys) == [] || (next.Some? && !Joins(flow, keys, next.value))
  }

  lemma {:induction false} OutputOnceComplete(flow: Flows, keys: seq<Key>, more: seq<Key>)
    requires CompletesAfter(flow, keys, more)
    ensures Closed(flow, keys) <= Unfinished(flow, keys + more)
    decreases |more|
  {
    hide OpenTail, OpenMessage, Unfinished, Pending, Closed;
    ClosedIsUnfinishedAndPending(flow, keys);
    if Pending(flow, keys) == [] {
      UnfinishedOnlyGrows(flow, keys, more);
    } else {
      var k := more[0];
      var next := keys + [k];
      assert keys + more == next + more[1..];
      if k in flow && flow[k] == Inside {
        InsideAppends(flow, keys, k);
        OutputOnceComplete(flow, next, more[1..]);
        ClosedIsUnfinishedAndPending(flow, next);
      } else {
        OpenTailAppend(flow, keys, k);
        UnfinishedOnlyGrows(flow, next, more[1..]);
      }
    }
  }

  /** With nothing outside to follow, the open message stays open. */
  lemma {:induction false} StillOpen(flow: Flows, keys: seq<Key>, more: seq<Key>)
    requires Pending(flow, keys) != [] && NextOutside(flow, more) == None
    ensures Unfinished(flow, keys + more) == Unfinished(flow, keys)
    decreases |more|
  {
    hide OpenTail, OpenMessage, Unfinished, Pending;
    if more == [] {
      assert keys + more == keys;
    } else {
      InsideAppends(flow, keys, more[0]);
      StillOpen(flow, keys + [more[0]], more[1..]);
      assert keys + more == keys + [more[0]] + more[1..];
    }
  }

  /** Where the open message goes on, its next act takes the place of what was
      logged inside it. */
  lemma ReopenedDiffers(flow: Flows, keys: seq<Key>, more: seq<Key>, out: seq<Key>)
    requires Distinct(keys + more) && !ClosesAfter(flow, keys, more)
    requires Unfinished(flow, keys + more) <= out
    ensures !(Closed(flow, keys) <= out)
  {
    hide OpenTail, OpenMessage, Unfinished, Pending, Closed, Joins;
    OutputReopened(flow, keys, more);
    ClosedIsUnfinishedAndPending(flow, keys);
    var k := NextOutside(flow, more).value;
    var at := |Unfinished(flow, keys)|;
    PendingLogged(flow, keys, Pending(flow, keys)[0]);
    assert Closed(flow, keys)[at] == Pending(flow, keys)[0];
    assert (Unfinished(flow, keys) + [k])[at] == k;
    assert out[at] == k;
    DisjointParts(keys, more, k);
  }

  /** The closed output of a transcript is a prefix of the output of an extension
      that is still unfinished exactly when the open message held nothing back or
      the extension shows it complete. */
  lemma ClosedBeforeUnfinished(flow: Flows, keys: seq<Key>, more: seq<Key>)
    requires Distinct(keys + more)
    ensures Closed(flow, keys) <= Unfinished(flow, keys + more) <==> CompletesAfter(flow, keys, more)
  {
    hide OpenTail, OpenMessage, Unfinished, Pending, Closed, Joins;
    if CompletesAfter(flow, keys, more) {
      OutputOnceComplete(flow, keys, more);
    } else if NextOutside(flow, more).None? {
      StillOpen(flow, keys, more);
      ClosedIsUnfinishedAndPending(flow, keys);
    } else {
      ReopenedDiffers(flow, keys, more, Unfinished(flow, keys + more));
    }
  }

  lemma DisjointParts(a: seq<Key>, b: seq<Key>, k: Key)
    requires Distinct(a + b) && k in b
    ensures k !in a
  {
    var j :| 0 <= j < |b| && b[j] == k;
    assert (a + b)[|a| + j] == k;
    assert forall i | 0 <= i < |a| :: (a + b)[i] == a[i];
  }

  lemma PendingAppend(flow: Flows, keys: seq<Key>, k: Key)
    requires k in flow
    ensures OpenMessage(flow, keys + [k]) ==
            if Joins(flow, keys, k) then OpenMessage(flow, keys)
            else if IsAct(flow, k) then Some(flow[k].message) else None
    ensures Pending(flow, keys + [k]) ==
            if !Joins(flow, keys, k) then []
            else Pending(flow, keys) + if IsAct(flow, k) then [] else [k]
  {
    OpenTailAppend(flow, keys, k);
    OpenTailStartsWithAct(flow, keys);
    ActsAppend(flow, OpenTail(flow, keys), k);
    ActsAppend(flow, [], k);
    assert [] + [k] == [k];
    hide OpenTail, Unfinished;
    if Joins(flow, keys, k) {
      assert OpenTail(flow, keys + [k])[0] == OpenTail(flow, keys)[0];
    }
  }

  // ------------------------------------------------- nothing lost or added

  lemma {:induction false} PartsPermute(flow: Flows, keys: seq<Key>)
    ensures multiset(Acts(flow, keys) + Others(flow, keys)) == multiset(keys)
    decreases |keys|
  {
    if keys != [] {
      PartsPermute(flow, keys[1..]);
      assert keys == [keys[0]] + keys[1..];
    }
  }

  /** Reading a transcript moves records, it never drops or repeats one. */
  lemma {:induction false} ClosedPermutes(flow: Flows, keys: seq<Key>)
    ensures multiset(Closed(flow, keys)) == multiset(keys)
    decreases |keys|
  {
    hide Acts, Others, MessageLength;
    if keys != [] {
      var n := MessageLength(flow, keys);
      PartsPermute(flow, keys[..n]);
      ClosedPermutes(flow, keys[n..]);
      assert keys == keys[..n] + keys[n..];
    }
  }

  lemma RepeatCounts(s: seq<Key>, i: nat, j: nat)
    requires i < j < |s| && s[i] == s[j]
    ensures multiset(s)[s[i]] >= 2
  {
    assert s == s[..j] + [s[j]] + s[j + 1..];
    assert s[i] in s[..j];
  }

  lemma {:induction false} DistinctCounts(s: seq<Key>, x: Key)
    requires Distinct(s)
    ensures multiset(s)[x] <= 1
  {
    if s != [] {
      assert s == [s[0]] + s[1..];
      DistinctCounts(s[1..], x);
      if x == s[0] {
        assert x !in s[1..];
      }
    }
  }

  lemma DistinctPermuted(s: seq<Key>, t: seq<Key>)
    requires Distinct(s) && multiset(s) == multiset(t)
    ensures Distinct(t)
  {
    forall i, j | 0 <= i < j < |t| ensures t[i] != t[j] {
      DistinctCounts(s, t[i]);
      if t[i] == t[j] {
        RepeatCounts(t, i, j);
      }
    }
  }

  // -------------------------------------------------- same records, same reading

  ghost predicate Agree(flow: Flows, flow': Flows, keys: seq<Key>) {
    forall k | k in keys :: k in flow && k in flow' && flow[k] == flow'[k]
  }

  lemma {:induction false} SameRunLength(flow: Flows, flow': Flows, m: Message, keys: seq<Key>)
    requires Agree(flow, flow', keys)
    ensures RunLength(flow, m, keys) == RunLength(flow', m, keys)
    decreases |keys|
  {
    if keys != [] {
      SameRunLength(flow, flow', m, keys[1..]);
    }
  }

  lemma {:induction false} SameParts(flow: Flows, flow': Flows, keys: seq<Key>)
    requires Agree(flow, flow', keys)
    ensures Acts(flow, keys) == Acts(flow', keys) && Others(flow, keys) == Others(flow', keys)
    decreases |keys|
  {
    if keys != [] {
      SameParts(flow, flow', keys[1..]);
    }
  }

  lemma {:induction false} SameReading(flow: Flows, flow': Flows, keys: seq<Key>)
    requires Agree(flow, flow', keys)
    ensures Unfinished(flow, keys) == Unfinished(flow', keys)
    ensures OpenTail(flow, keys) == OpenTail(flow', keys)
    decreases |keys|
  {
    if keys != [] {
      assert keys[0] in keys;
      if IsAct(flow, keys[0]) {
        SameRunLength(flow, flow', flow[keys[0]].message, keys[1..]);
      }
      var n := MessageLength(flow, keys);
      SameParts(flow, flow', keys);
      SameParts(flow, flow', keys[..n]);
      SameReading(flow, flow', keys[n..]);
    }
  }

  lemma {:induction false} OpenTailLogged(flow: Flows, keys: seq<Key>, k: Key)
    requires k in OpenTail(flow, keys)
    ensures k in keys
    decreases |keys|
  {
    if keys != [] && MessageLength(flow, keys) < |keys| {
      OpenTailLogged(flow, keys[MessageLength(flow, keys)..], k);
    }
  }

  lemma OpenTailSameOthers(flow: Flows, flow': Flows, keys: seq<Key>)
    requires Agree(flow, flow', keys)
    ensures Pending(flow, keys) == Pending(flow', keys)
  {
    SameReading(flow, flow', keys);
    forall k | k in OpenTail(flow, keys) ensures k in keys {
      OpenTailLogged(flow, keys, k);
    }
    SameParts(flow, flow', OpenTail(flow, keys));
  }
}
