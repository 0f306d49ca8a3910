/** Emitting the conversations of a ChatGPT export: by content, each once. */
module ContentOrders {
  import opened Base
  import opened Sorting

  /** One fragment; `node` tells whether it carries a record. */
  datatype Fragment = Fragment(node: bool, facts: int)

  /** A projected conversation under the key of its content. */
  datatype Conversation = Conversation(key: Key, fragments: seq<Fragment>)

  /** The fragments that carry a record. */
  function Nodes(fragments: seq<Fragment>): (n: nat)
    ensures n <= |fragments|
  {
    if fragments == [] then 0 else (if fragments[0].node then 1 else 0) + Nodes(fragments[1..])
  }

  /** They are as many as there are fragments with a record. */
  lemma {:induction false} NodesCounted(fragments: seq<Fragment>)
    ensures Nodes(fragments) == |set i | 0 <= i < |fragments| && fragments[i].node|
    decreases |fragments|
  {
    var counted := set i | 0 <= i < |fragments| && fragments[i].node;
    if fragments != [] {
      var n := |fragments| - 1;
      var before := set i | 0 <= i < n && fragments[..n][i].node;
      NodesCounted(fragments[..n]);
      NodesAppend(fragments[..n], [fragments[n]]);
      assert fragments == fragments[..n] + [fragments[n]];
      assert counted == before + (if fragments[n].node then {n} else {});
    } else {
      assert counted == {};
    }
  }

  lemma {:induction false} NodesAppend(a: seq<Fragment>, b: seq<Fragment>)
    ensures Nodes(a + b) == Nodes(a) + Nodes(b)
  {
    if a == [] {
      assert a + b == b;
    } else {
      assert (a + b)[1..] == a[1..] + b;
      NodesAppend(a[1..], b);
    }
  }

  function TotalNodes(conversations: seq<Conversation>): nat {
    if conversations == [] then 0 else Nodes(conversations[0].fragments) + TotalNodes(conversations[1..])
  }

  function Emission(conversations: seq<Conversation>): seq<Fragment> {
    if conversations == [] then [] else conversations[0].fragments + Emission(conversations[1..])
  }

  lemma {:induction false} EmissionNodes(conversations: seq<Conversation>)
    ensures Nodes(Emission(conversations)) == TotalNodes(conversations)
  {
    if conversations != [] {
      NodesAppend(conversations[0].fragments, Emission(conversations[1..]));
      EmissionNodes(conversations[1..]);
    }
  }

  // ------------------------------------------------------------------ sorting

  function KeyOf(c: Conversation): Key {
    c.key
  }

  ghost predicate ByKey(s: seq<Conversation>) {
    forall i, j | 0 <= i < j < |s| :: Le(s[i].key, s[j].key)
  }

  /** What the first conversation of a key says. */
  function FirstOf(s: seq<Conversation>, k: Key): Option<seq<Fragment>> {
    if s == [] then None else if s[0].key == k then Some(s[0].fragments) else FirstOf(s[1..], k)
  }

  lemma {:induction false} InsertKeeps(s: seq<Conversation>, c: Conversation, k: Key)
    ensures TotalNodes(Insert(s, c, KeyOf)) == Nodes(c.fragments) + TotalNodes(s)
    ensures FirstOf(Insert(s, c, KeyOf), k) == if k == c.key then Some(c.fragments) else FirstOf(s, k)
  {
    if s == [] || Le(c.key, s[0].key) {
      assert ([c] + s)[1..] == s;
    } else {
      InsertKeeps(s[1..], c, k);
      var rest := Insert(s[1..], c, KeyOf);
      assert ([s[0]] + rest)[1..] == rest;
    }
  }

  lemma {:induction false} SortKeeps(s: seq<Conversation>, k: Key)
    ensures TotalNodes(StableSort(s, KeyOf)) == TotalNodes(s) && FirstOf(StableSort(s, KeyOf), k) == FirstOf(s, k)
  {
    if s != [] {
      SortKeeps(s[1..], k);
      InsertKeeps(StableSort(s[1..], KeyOf), s[0], k);
    }
  }

  lemma SortedConversations(s: seq<Conversation>)
    ensures ByKey(StableSort(s, KeyOf)) && TotalNodes(StableSort(s, KeyOf)) == TotalNodes(s)
    ensures forall x :: x in StableSort(s, KeyOf) <==> x in s
    ensures forall k :: FirstOf(StableSort(s, KeyOf), k) == FirstOf(s, k)
  {
    SortHolds(s, KeyOf);
    forall k ensures FirstOf(StableSort(s, KeyOf), k) == FirstOf(s, k) {
      SortKeeps(s, k);
    }
    SortKeeps(s, Key(0, 0));
  }

  // -------------------------------------------------------------- each once

  ghost predicate HasKey(s: seq<Conversation>, k: Key) {
    exists c | c in s :: c.key == k
  }

  /** Every key of the conversations once, in order, as first said. */
  ghost predicate EachOnce(conversations: seq<Conversation>, kept: seq<Conversation>) {
    && (forall i, j | 0 <= i < j < |kept| :: Lt(kept[i].key, kept[j].key))
    && (forall k :: HasKey(kept, k) <==> HasKey(conversations, k))
    && (forall c | c in kept :: FirstOf(conversations, c.key) == Some(c.fragments))
  }

  lemma {:induction false} FirstOfMember(s: seq<Conversation>, k: Key)
    ensures FirstOf(s, k).Some? <==> HasKey(s, k)
    ensures FirstOf(s, k).Some? ==> Conversation(k, FirstOf(s, k).value) in s
  {
    if s != [] {
      FirstOfMember(s[1..], k);
      assert s == [s[0]] + s[1..];
      if s[0].key == k {
        assert s[0] in s;
      } else if HasKey(s, k) {
        var c :| c in s && c.key == k;
        assert c in s[1..];
      }
    }
  }

  /** One conversation more, in key order, changes nothing or comes last. */
  lemma KeepNext(sorted: seq<Conversation>, i: nat, kept: seq<Conversation>)
    requires ByKey(sorted) && i < |sorted| && EachOnce(sorted[..i], kept)
    ensures var repeated := kept != [] && kept[|kept| - 1].key == sorted[i].key;
            EachOnce(sorted[..i + 1], if repeated then kept else kept + [sorted[i]])
  {
    hide FirstOf;
    var c := sorted[i];
    TakeNext(sorted, i);
    forall k ensures FirstOf(sorted[..i + 1], k) ==
                     if FirstOf(sorted[..i], k).None? && c.key == k then Some(c.fragments) else FirstOf(sorted[..i], k)
    {
      FirstOfAppend(sorted[..i], c, k);
    }
    KeptBelow(sorted, i, kept);
    if kept != [] && kept[|kept| - 1].key == c.key {
      RepeatKept(sorted, i, kept);
    } else {
      NewKept(sorted, i, kept);
    }
  }

  lemma {:induction false} FirstOfAppend(s: seq<Conversation>, c: Conversation, k: Key)
    ensures FirstOf(s + [c], k) ==
            if FirstOf(s, k).None? && c.key == k then Some(c.fragments) else FirstOf(s, k)
  {
    if s == [] {
      assert s + [c] == [c];
    } else {
      assert (s + [c])[1..] == s[1..] + [c];
      FirstOfAppend(s[1..], c, k);
    }
  }

  lemma KeptBelow(sorted: seq<Conversation>, i: nat, kept: seq<Conversation>)
    requires ByKey(sorted) && i < |sorted| && EachOnce(sorted[..i], kept)
    ensures forall j | 0 <= j < |kept| :: Le(kept[j].key, sorted[i].key)
    ensures HasKey(sorted[..i], sorted[i].key) <==> kept != [] && kept[|kept| - 1].key == sorted[i].key
  {
    forall j | 0 <= j < |kept| ensures Le(kept[j].key, sorted[i].key) {
      assert kept[j] in kept;
      assert HasKey(kept, kept[j].key);
      var c :| c in sorted[..i] && c.key == kept[j].key;
      var m :| 0 <= m < i && sorted[..i][m] == c;
    }
    if HasKey(sorted[..i], sorted[i].key) {
      var c :| c in kept && c.key == sorted[i].key;
      var m :| 0 <= m < |kept| && kept[m] == c;
    }
    if kept != [] && kept[|kept| - 1].key == sorted[i].key {
      assert kept[|kept| - 1] in kept;
      assert HasKey(kept, sorted[i].key);
    }
  }

  lemma HasKeyAppend(s: seq<Conversation>, c: Conversation, k: Key)
    ensures HasKey(s + [c], k) <==> HasKey(s, k) || c.key == k
  {
    assert c in s + [c];
    assert forall x | x in s :: x in s + [c];
  }

  lemma RepeatKept(sorted: seq<Conversation>, i: nat, kept: seq<Conversation>)
    requires i < |sorted| && EachOnce(sorted[..i], kept) && HasKey(sorted[..i], sorted[i].key)
    ensures EachOnce(sorted[..i + 1], kept)
  {
    hide FirstOf, HasKey;
    TakeNext(sorted, i);
    forall k ensures HasKey(sorted[..i + 1], k) <==> HasKey(sorted[..i], k) {
      HasKeyAppend(sorted[..i], sorted[i], k);
    }
    forall c | c in kept ensures FirstOf(sorted[..i + 1], c.key) == Some(c.fragments) {
      FirstOfAppend(sorted[..i], sorted[i], c.key);
    }
  }

  lemma NewKept(sorted: seq<Conversation>, i: nat, kept: seq<Conversation>)
    requires i < |sorted| && EachOnce(sorted[..i], kept) && !HasKey(sorted[..i], sorted[i].key)
    requires forall j | 0 <= j < |kept| :: Le(kept[j].key, sorted[i].key)
    ensures EachOnce(sorted[..i + 1], kept + [sorted[i]])
  {
    hide FirstOf;
    TakeNext(sorted, i);
    var c := sorted[i];
    var more := kept + [c];
    forall k ensures HasKey(more, k) <==> HasKey(sorted[..i + 1], k) {
      HasKeyAppend(sorted[..i], c, k);
      HasKeyAppend(kept, c, k);
    }
    forall j | 0 <= j < |kept| ensures Lt(kept[j].key, c.key) {
      assert kept[j] in kept;
      assert HasKey(kept, kept[j].key);
    }
    forall x | x in more ensures FirstOf(sorted[..i + 1], x.key) == Some(x.fragments) {
      FirstOfAppend(sorted[..i], c, x.key);
      FirstOfMember(sorted[..i], c.key);
    }
  }

  // ------------------------------------------------------------------ the code

  class Summary {
    var projectionsEmitted: nat
    var contentParts: nat

    constructor (projectionsEmitted: nat, contentParts: nat)
      ensures this.projectionsEmitted == projectionsEmitted && this.contentParts == contentParts
    {
      this.projectionsEmitted, this.contentParts := projectionsEmitted, contentParts;
    }
  }

  /** Of equal keys the first stays; the nodes of the others come off the counts. */
  method KeepOnce(sorted: seq<Conversation>, summary: Summary) returns (kept: seq<Conversation>)
    requires ByKey(sorted)
    requires TotalNodes(sorted) <= summary.projectionsEmitted && TotalNodes(sorted) <= summary.contentParts
    modifies summary
    ensures EachOnce(sorted, kept) && TotalNodes(kept) <= TotalNodes(sorted)
    ensures summary.projectionsEmitted == old(summary.projectionsEmitted) - TotalNodes(sorted) + TotalNodes(kept)
    ensures summary.contentParts == old(summary.contentParts) - TotalNodes(sorted) + TotalNodes(kept)
  {
    hide EachOnce, FirstOf, ByKey, Nodes;
    kept := [];
    NothingKept(sorted[..0]);
    assert sorted[0..] == sorted;
    ghost var left := 0;
    for i := 0 to |sorted|
      invariant EachOnce(sorted[..i], kept)
      invariant TotalNodes(sorted) == TotalNodes(kept) + left + TotalNodes(sorted[i..])
      invariant summary.projectionsEmitted == old(summary.projectionsEmitted) - left
      invariant summary.contentParts == old(summary.contentParts) - left
    {
      var c := sorted[i];
      KeepNext(sorted, i, kept);
      assert sorted[i..][1..] == sorted[i + 1..];
      if kept != [] && kept[|kept| - 1].key == c.key {
        var nodes := Nodes(c.fragments);
        summary.projectionsEmitted := summary.projectionsEmitted - nodes;
        summary.contentParts := summary.contentParts - nodes;
        left := left + nodes;
        continue;
      }
      TotalAppend(kept, c);
      kept := kept + [c];
    }
    TakeAll(sorted);
  }

  /** Emit the conversations by content, each content once, and take the nodes of
      the repeats off the counts, into which every conversation was counted. */
  method EmitInContentOrder(conversations: seq<Conversation>, summary: Summary)
      returns (emitted: seq<Fragment>, ghost kept: seq<Conversation>)
    requires TotalNodes(conversations) <= summary.projectionsEmitted &&
             TotalNodes(conversations) <= summary.contentParts
    modifies summary
    ensures EachOnce(conversations, kept) && emitted == Emission(kept)
    ensures Nodes(emitted) <= TotalNodes(conversations)
    ensures summary.projectionsEmitted == old(summary.projectionsEmitted) - TotalNodes(conversations) + Nodes(emitted)
    ensures summary.contentParts == old(summary.contentParts) - TotalNodes(conversations) + Nodes(emitted)
  {
    hide EachOnce, StableSort, FirstOf, ByKey, TotalNodes, Nodes;
    var sorted := StableSort(conversations, KeyOf);
    SortedConversations(conversations);
    var once := KeepOnce(sorted, summary);
    kept := once;
    SameOnce(conversations, sorted, once);
    EmissionNodes(once);
    emitted := [];
    assert once[0..] == once;
    for i := 0 to |once|
      invariant emitted + Emission(once[i..]) == Emission(once)
    {
      assert once[i..][1..] == once[i + 1..];
      assert emitted + (once[i].fragments + Emission(once[i + 1..])) ==
          emitted + once[i].fragments + Emission(once[i + 1..]);
      emitted := emitted + once[i].fragments;
    }
    assert emitted + [] == emitted;
  }

  lemma NothingKept(none: seq<Conversation>)
    requires none == []
    ensures EachOnce(none, [])
  {
  }

  lemma {:induction false} TotalAppend(s: seq<Conversation>, c: Conversation)
    ensures TotalNodes(s + [c]) == TotalNodes(s) + Nodes(c.fragments)
  {
    if s == [] {
      assert s + [c] == [c];
    } else {
      assert (s + [c])[1..] == s[1..] + [c];
      TotalAppend(s[1..], c);
    }
  }

  lemma SameOnce(conversations: seq<Conversation>, sorted: seq<Conversation>, kept: seq<Conversation>)
    requires EachOnce(sorted, kept) && forall x :: x in sorted <==> x in conversations
    requires forall k :: FirstOf(sorted, k) == FirstOf(conversations, k)
    ensures EachOnce(conversations, kept)
  {
    hide FirstOf;
    forall k ensures HasKey(sorted, k) <==> HasKey(conversations, k) {
    }
  }

  // ------------------------------------------------------------ main result

  /** Equal content keys carry equal fragments. */
  ghost predicate KeysTell(s: seq<Conversation>) {
    forall c, c' | c in s && c' in s && c.key == c'.key :: c.fragments == c'.fragments
  }

  lemma OnceIsMember(conversations: seq<Conversation>, kept: seq<Conversation>, c: Conversation)
    requires EachOnce(conversations, kept) && KeysTell(conversations)
    ensures c in kept <==> c in conversations
  {
    hide FirstOf;
    if c in kept {
      FirstOfMember(conversations, c.key);
    }
    if c in conversations {
      assert HasKey(conversations, c.key);
      var x :| x in kept && x.key == c.key;
      FirstOfMember(conversations, c.key);
    }
  }

  ghost predicate Increasing(s: seq<Conversation>) {
    forall i, j | 0 <= i < j < |s| :: Lt(s[i].key, s[j].key)
  }

  lemma HeadIsLeast(a: seq<Conversation>, b: seq<Conversation>)
    requires Increasing(a) && Increasing(b) && a != [] && forall c :: c in a <==> c in b
    ensures b != [] && a[0] == b[0]
    ensures forall c :: c in a[1..] <==> c in b[1..]
  {
    assert a[0] in a;
    var i :| 0 <= i < |b| && b[i] == a[0];
    assert b[0] in b;
    var j :| 0 <= j < |a| && a[j] == b[0];
    forall c ensures c in a[1..] <==> c in a && c != a[0] {
      if c in a && c != a[0] {
        var m :| 0 <= m < |a| && a[m] == c;
        assert a[1..][m - 1] == c;
      }
    }
    forall c ensures c in b[1..] <==> c in b && c != b[0] {
      if c in b && c != b[0] {
        var m :| 0 <= m < |b| && b[m] == c;
        assert b[1..][m - 1] == c;
      }
    }
  }

  lemma {:induction false} OneIncreasing(a: seq<Conversation>, b: seq<Conversation>)
    requires Increasing(a) && Increasing(b) && forall c :: c in a <==> c in b
    ensures a == b
  {
    if a == [] {
      assert forall i | 0 <= i < |b| :: b[i] in a;
    } else {
      HeadIsLeast(a, b);
      OneIncreasing(a[1..], b[1..]);
      assert a == [a[0]] + a[1..] && b == [b[0]] + b[1..];
    }
  }

  /** What is emitted depends on which conversations there are, not on their
      shards, their order or how often they are repeated. */
  lemma EmissionIsCanonical(a: seq<Conversation>, b: seq<Conversation>, keptA: seq<Conversation>,
                            keptB: seq<Conversation>)
    requires KeysTell(a) && forall c :: c in a <==> c in b
    requires EachOnce(a, keptA) && EachOnce(b, keptB)
    ensures keptA == keptB && Emission(keptA) == Emission(keptB)
  {
    hide FirstOf;
    forall c ensures c in keptA <==> c in keptB {
      OnceIsMember(a, keptA, c);
      OnceIsMember(b, keptB, c);
    }
    OneIncreasing(keptA, keptB);
  }
}
