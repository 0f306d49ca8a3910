/** What every first node follows, exactly: below each parent of its record the one
    record that comes last of all that must come before it. */
module PlacementFollows {
  import opened Base
  import opened Nodes
  import opened Graphs
  import opened Placements
  import opened MessageRuns
  import opened PlacementOrder
  import opened PlacementSteps
  import opened PlacementBooks
  import opened PlacementEnter
  import opened PlacementRuns

  /** All that must come before k on the branch of k's parent p: what lies up to p,
      unless k is a later act of the message it was logged inside, and the later
      acts of the message k was logged inside. */
  ghost function Predecessors(c: Corpus, k: Key, p: Key): set<Key> {
    set b | b in c.parents && ((AncestorOrSelf(c.parents, b, p) && !Late(c, b, k)) || Late(c, k, b))
  }

  /** Of these records, all placed, x comes last. */
  ghost predicate IsLast(c: Corpus, w: Placed, records: set<Key>, x: Key)
    requires Shaped(c, w)
  {
    && x in records && records <= w.nodes.Keys
    && forall b | b in records && b != x :: Before(LastOf(c, w, b), LastOf(c, w, x))
  }

  /** t is the last node of the record that comes last. */
  ghost predicate EndsIn(c: Corpus, w: Placed, records: set<Key>, t: Node)
    requires Shaped(c, w)
  {
    exists x :: IsLast(c, w, records, x) && t == LastOf(c, w, x)
  }

  /** The tail is, for each group, the last node of the record that comes last in it. */
  ghost predicate Tails(c: Corpus, w: Placed, groups: map<Key, set<Key>>, tail: set<Node>)
    requires Shaped(c, w)
  {
    && (forall p | p in groups :: HasEnd(c, w, groups[p], tail))
    && (forall t | t in tail :: IsEnd(c, w, groups, t))
  }

  ghost predicate HasEnd(c: Corpus, w: Placed, records: set<Key>, tail: set<Node>)
    requires Shaped(c, w)
  {
    exists t | t in tail :: EndsIn(c, w, records, t)
  }

  ghost predicate IsEnd(c: Corpus, w: Placed, groups: map<Key, set<Key>>, t: Node)
    requires Shaped(c, w)
  {
    exists p | p in groups :: EndsIn(c, w, groups[p], t)
  }

  /** k's first node follows, for each of k's parents, the last node of the record
      that comes last of all that must come before k there. */
  ghost predicate Follows(c: Corpus, w: Placed, k: Key)
    requires Shaped(c, w) && k in w.nodes
  {
    Tails(c, w, map p | p in Up(c.parents, k) :: Predecessors(c, k, p), w.firsts[k])
  }

  ghost predicate AllFollow(c: Corpus, w: Placed) {
    Shaped(c, w) && forall k | k in w.nodes :: Follows(c, w, k)
  }

  /** Only one record comes last, and so a group has one last node. */
  lemma OneEnd(c: Corpus, w: Placed, records: set<Key>, t: Node, u: Node)
    requires Shaped(c, w) && EndsIn(c, w, records, t) && EndsIn(c, w, records, u)
    ensures t == u
  {
    var x :| IsLast(c, w, records, x) && t == LastOf(c, w, x);
    var y :| IsLast(c, w, records, y) && u == LastOf(c, w, y);
    OneLast(c, w, records, x, y);
  }

  lemma OneLast(c: Corpus, w: Placed, records: set<Key>, x: Key, y: Key)
    requires Shaped(c, w) && IsLast(c, w, records, x) && IsLast(c, w, records, y)
    ensures x == y
  {
    if x != y {
      BeforeAsymmetric(LastOf(c, w, x), LastOf(c, w, y));
    }
  }

  // ----------------------------------------------------------- placing more

  lemma LastKept(c: Corpus, w: Placed, w': Placed, records: set<Key>, x: Key)
    requires Shaped(c, w) && Shaped(c, w') && Extends(w, w') && IsLast(c, w, records, x)
    ensures IsLast(c, w', records, x) && LastOf(c, w', x) == LastOf(c, w, x)
  {
    hide Before;
  }

  lemma EndsInKept(c: Corpus, w: Placed, w': Placed, records: set<Key>, t: Node)
    requires Shaped(c, w) && Shaped(c, w') && Extends(w, w') && EndsIn(c, w, records, t)
    ensures EndsIn(c, w', records, t)
  {
    var x :| IsLast(c, w, records, x) && t == LastOf(c, w, x);
    LastKept(c, w, w', records, x);
  }

  lemma EndKept(c: Corpus, w: Placed, w': Placed, groups: map<Key, set<Key>>, t: Node)
    requires Shaped(c, w) && Shaped(c, w') && Extends(w, w') && IsEnd(c, w, groups, t)
    ensures IsEnd(c, w', groups, t)
  {
    hide Shaped, Extends, EndsIn;
    var p :| p in groups && EndsIn(c, w, groups[p], t);
    EndsInKept(c, w, w', groups[p], t);
  }

  lemma HasEndKept(c: Corpus, w: Placed, w': Placed, records: set<Key>, tail: set<Node>)
    requires Shaped(c, w) && Shaped(c, w') && Extends(w, w') && HasEnd(c, w, records, tail)
    ensures HasEnd(c, w', records, tail)
  {
    hide Shaped, Extends, EndsIn;
    var t :| t in tail && EndsIn(c, w, records, t);
    EndsInKept(c, w, w', records, t);
  }

  lemma TailsKept(c: Corpus, w: Placed, w': Placed, groups: map<Key, set<Key>>, tail: set<Node>)
    requires Shaped(c, w) && Shaped(c, w') && Extends(w, w') && Tails(c, w, groups, tail)
    ensures Tails(c, w', groups, tail)
  {
    hide Shaped, Extends, HasEnd, IsEnd;
    forall p | p in groups ensures HasEnd(c, w', groups[p], tail) {
      HasEndKept(c, w, w', groups[p], tail);
    }
    forall t | t in tail ensures IsEnd(c, w', groups, t) {
      EndKept(c, w, w', groups, t);
    }
  }

  lemma FollowsKept(c: Corpus, w: Placed, w': Placed, k: Key)
    requires AllFollow(c, w) && Shaped(c, w') && Extends(w, w') && k in w.nodes
    ensures k in w'.nodes && Follows(c, w', k)
  {
    hide Shaped, Tails;
    TailsKept(c, w, w', map p | p in Up(c.parents, k) :: Predecessors(c, k, p), w.firsts[k]);
  }

  // ---------------------------------------------------------------- tails

  /** What is up to s and not deferred. */
  ghost function UpTo(c: Corpus, s: Key, deferred: seq<Key>): set<Key> {
    set b | b in c.parents && AncestorOrSelf(c.parents, b, s) && b !in deferred
  }

  /** The tail after s. */
  ghost predicate EndsAt(c: Corpus, w: Placed, s: Key, tail: set<Node>, deferred: seq<Key>)
    requires Shaped(c, w)
  {
    Tails(c, w, map[s := UpTo(c, s, deferred)], tail)
  }

  /** The tail k starts from: where the branches of its parents end. */
  ghost predicate StartsAt(c: Corpus, w: Placed, k: Key, tail: set<Node>, deferred: seq<Key>)
    requires Shaped(c, w)
  {
    Tails(c, w, map p | p in Up(c.parents, k) :: UpTo(c, p, deferred), tail)
  }

  lemma OneParentStarts(c: Corpus, w: Placed, k: Key, p: Key, tail: set<Node>, deferred: seq<Key>)
    requires Shaped(c, w) && Up(c.parents, k) == {p}
    ensures StartsAt(c, w, k, tail, deferred) <==> EndsAt(c, w, p, tail, deferred)
  {
    hide Tails;
    assert (map q | q in Up(c.parents, k) :: UpTo(c, q, deferred)) == map[p := UpTo(c, p, deferred)];
  }

  lemma OneTail(c: Corpus, w: Placed, s: Key, records: set<Key>, t: Node)
    requires Shaped(c, w) && EndsIn(c, w, records, t)
    ensures Tails(c, w, map[s := records], {t})
  {
    hide Shaped, EndsIn;
    var groups := map[s := records];
    assert s in groups && groups[s] == records && t in {t};
  }

  /** Put after a tail that stands for them, a record comes last. */
  lemma PutIsLast(c: Corpus, w: Placed, x: Key, previous: set<Node>, records: set<Key>)
    requires Shaped(c, w) && x in c.parents && x !in w.nodes && x in records
    requires forall b | b in records && b != x :: b in w.nodes && Covered(LastOf(c, w, b), previous)
    ensures var put := Put(c, w, x, previous);
            && Shaped(c, put.placed) && exists t :: put.tail == {t} && EndsIn(c, put.placed, records, t)
  {
    PutShaped(c, w, x, previous);
    forall b | b in records && b != x
      ensures Before(LastOf(c, Put(c, w, x, previous).placed, b), LastOf(c, Put(c, w, x, previous).placed, x))
    {
      PutAbove(c, w, x, previous, LastOf(c, w, b));
    }
    assert IsLast(c, Put(c, w, x, previous).placed, records, x);
    assert EndsIn(c, Put(c, w, x, previous).placed, records, LastOf(c, Put(c, w, x, previous).placed, x));
  }

  lemma PutFollows(c: Corpus, w: Placed, x: Key, previous: set<Node>)
    requires AllFollow(c, w) && x in c.parents && x !in w.nodes
    requires Tails(c, w, map p | p in Up(c.parents, x) :: Predecessors(c, x, p), previous)
    ensures AllFollow(c, Put(c, w, x, previous).placed)
  {
    hide Shaped, Tails, Predecessors;
    PutShaped(c, w, x, previous);
    var w' := Put(c, w, x, previous).placed;
    forall k | k in w'.nodes ensures Follows(c, w', k) {
      if k == x {
        TailsKept(c, w, w', map p | p in Up(c.parents, x) :: Predecessors(c, x, p), previous);
      } else {
        FollowsKept(c, w, w', k);
      }
    }
  }

  // ------------------------------------------------------- closing a message

  /** The message open after s does not go on. */
  ghost predicate Complete(c: Corpus, s: Key) {
    forall q, m | Linked(c, s, q) && Open(c, m, s) :: !Continues(c, m, q)
  }

  /** Then nothing that waits at s waits beyond it. */
  lemma WaitsNoFurther(c: Corpus, s: Key, d: Key, b: Key)
    requires Complete(c, s) && Waits(c, d, s) && Waits(c, d, b)
    ensures AncestorOrSelf(c.parents, b, s)
  {
    var m, n := WaitsNeedsOpen(c, d, b);
    WaitsBelow(c, d, s);
    var j := AtDistance(c.parents, d, s);
    var past, i, rest := RunIsOnlyWayDown(c, m, n, d, b, j, s);
    if !past {
      RunKeepsOpen(c, m, i, d, s);
      NextOnRun(c, m, rest, s, b);
    }
  }

  lemma NextOnRun(c: Corpus, m: Message, n: nat, s: Key, b: Key)
    requires n > 0 && InRun(c, m, n, s, b)
    ensures exists q :: Linked(c, s, q) && Continues(c, m, q)
  {
    var q := RunPoint(c, m, 1, n, s, b);
    var p :| p in Up(c.parents, q) && Linked(c, p, q) && InRun(c, m, 0, s, p);
  }

  /** What comes before the first deferred record is what is up to s and not deferred. */
  lemma DeferredPredecessors(c: Corpus, w: Placed, s: Key, pl: Placement, p: Key)
    requires Closable(c, w, s, pl) && pl.deferred != [] && Complete(c, s)
    requires Up(c.parents, pl.deferred[0]) == {p}
    ensures Predecessors(c, pl.deferred[0], p) == UpTo(c, s, pl.deferred)
  {
    var x := pl.deferred[0];
    assert x in pl.deferred;
    WaitsBelow(c, x, s);
    assert c.flow[x] == Inside;
    forall b ensures b in Predecessors(c, x, p) <==> b in UpTo(c, s, pl.deferred) {
      AncestorViaParent(c.parents, b, x);
      if b in UpTo(c, s, pl.deferred) {
        PlacedMayPrecede(c, w, s, pl, x, b);
      }
      if b in Predecessors(c, x, p) {
        PredecessorUpTo(c, w, s, pl, x, b);
      }
    }
  }

  lemma PredecessorUpTo(c: Corpus, w: Placed, s: Key, pl: Placement, x: Key, b: Key)
    requires Closable(c, w, s, pl) && pl.deferred != [] && x == pl.deferred[0] && Complete(c, s)
    requires Ancestor(c.parents, b, x) || Late(c, x, b)
    ensures AncestorOrSelf(c.parents, b, s) && b !in pl.deferred
  {
    assert x in pl.deferred;
    WaitsBelow(c, x, s);
    if Late(c, x, b) {
      WaitsNoFurther(c, s, x, b);
    } else {
      AncestorTransitive(c.parents, b, x, s);
      InOrderTail(c.parents, pl.deferred);
      AncestorKnown(c.parents, b, x);
      if b in pl.deferred && b != x {
        AncestorTransitive(c.parents, b, x, b);
      }
    }
  }

  /** What is logged inside a message has one parent. */
  lemma WaitsHasParent(c: Corpus, d: Key, s: Key) returns (p: Key)
    requires Waits(c, d, s)
    ensures Up(c.parents, d) == {p}
  {
    var m, n := WaitsNeedsOpen(c, d, s);
    OpenAfterInside(c, m, d);
    p :| p in Up(c.parents, d) && Linked(c, p, d) && Open(c, m, p);
  }

  lemma FirstDeferredFollows(c: Corpus, w: Placed, s: Key, pl: Placement)
    requires Closable(c, w, s, pl) && pl.deferred != [] && Complete(c, s) && AllFollow(c, w)
    requires EndsAt(c, w, s, pl.tail, pl.deferred)
    ensures pl.deferred[0] in c.parents && AllFollow(c, Put(c, w, pl.deferred[0], pl.tail).placed)
  {
    hide Shaped, Tails, Predecessors, UpTo;
    var x := pl.deferred[0];
    assert x in pl.deferred;
    var p := WaitsHasParent(c, x, s);
    DeferredPredecessors(c, w, s, pl, p);
    OneGroup(c, w, x, p, s, UpTo(c, s, pl.deferred), pl.tail);
    DeferredFresh(c, w, s, pl);
    PutFollows(c, w, x, pl.tail);
  }

  lemma DeferredFresh(c: Corpus, w: Placed, s: Key, pl: Placement)
    requires Closable(c, w, s, pl) && pl.deferred != []
    ensures pl.deferred[0] in c.parents && pl.deferred[0] !in w.nodes
    ensures AncestorOrSelf(c.parents, pl.deferred[0], s)
  {
    hide Ordered, Grounded, Stands, Sourced;
    assert pl.deferred[0] in pl.deferred;
    WaitsBelow(c, pl.deferred[0], s);
  }

  lemma OneGroup(c: Corpus, w: Placed, x: Key, p: Key, s: Key, records: set<Key>, tail: set<Node>)
    requires Shaped(c, w) && Up(c.parents, x) == {p} && Predecessors(c, x, p) == records
    requires Tails(c, w, map[s := records], tail)
    ensures Tails(c, w, map q | q in Up(c.parents, x) :: Predecessors(c, x, q), tail)
  {
    hide Shaped, EndsIn, Predecessors;
    var groups := map[s := records];
    var more := map q | q in Up(c.parents, x) :: Predecessors(c, x, q);
    assert s in groups && groups[s] == records && more == map[p := records];
    assert HasEnd(c, w, groups[s], tail);
    forall t | t in tail ensures IsEnd(c, w, more, t) {
      assert IsEnd(c, w, groups, t);
      assert p in more && more[p] == records;
    }
  }

  lemma FirstDeferredEnds(c: Corpus, w: Placed, s: Key, pl: Placement)
    requires Closable(c, w, s, pl) && pl.deferred != []
    ensures pl.deferred[0] in c.parents
    ensures var put := Put(c, w, pl.deferred[0], pl.tail);
            Shaped(c, put.placed) && EndsAt(c, put.placed, s, put.tail, pl.deferred[1..])
  {
    hide Ordered, Grounded, Sourced, EndsIn, Tails, Covered, Chain;
    var x := pl.deferred[0];
    DeferredFresh(c, w, s, pl);
    InOrderTail(c.parents, pl.deferred);
    var records := UpTo(c, s, pl.deferred[1..]);
    PutIsLast(c, w, x, pl.tail, records);
    var put := Put(c, w, x, pl.tail);
    var t :| put.tail == {t} && EndsIn(c, put.placed, records, t);
    OneTail(c, put.placed, s, records, t);
  }

  /** Closing keeps what every record follows, and ends where its last record ends. */
  lemma {:induction false} CloseFollows(c: Corpus, w: Placed, s: Key, pl: Placement)
    requires Closable(c, w, s, pl) && (pl.deferred != [] ==> Complete(c, s)) && AllFollow(c, w)
    requires EndsAt(c, w, s, pl.tail, pl.deferred)
    ensures var closed := Close(c, w, pl.tail, pl.deferred);
            AllFollow(c, closed.placed) && EndsAt(c, closed.placed, s, closed.tail, [])
    decreases |pl.deferred|
  {
    hide Closable, AllFollow, EndsAt, Complete, Known;
    if pl.deferred != [] {
      ClosableKnown(c, w, s, pl);
      CloseFirst(c, w, s, pl);
      FirstDeferredFollows(c, w, s, pl);
      FirstDeferredEnds(c, w, s, pl);
      var put := Put(c, w, pl.deferred[0], pl.tail);
      CloseFollows(c, put.placed, s, Placement(put.tail, pl.message, pl.deferred[1..]));
    }
  }

  lemma ClosableKnown(c: Corpus, w: Placed, s: Key, pl: Placement)
    requires Closable(c, w, s, pl)
    ensures Shaped(c, w) && Known(c, pl.deferred)
  {
    hide Ordered, Grounded, StateOk;
  }

  // ------------------------------------------------------------- perceiving

  /** Put after a tail that stands for all above it, k comes last. */
  lemma PutEnds(c: Corpus, w: Placed, k: Key, tail: set<Node>, deferred: seq<Key>)
    requires Shaped(c, w) && k in c.parents && k !in w.nodes && k !in deferred
    requires AboveStands(c, w, k, tail, deferred)
    ensures var put := Put(c, w, k, tail);
            Shaped(c, put.placed) && EndsAt(c, put.placed, k, put.tail, deferred)
  {
    hide EndsIn, Tails, Covered, Chain, Shaped;
    var records := UpTo(c, k, deferred);
    PutIsLast(c, w, k, tail, records);
    var put := Put(c, w, k, tail);
    var t :| put.tail == {t} && EndsIn(c, put.placed, records, t);
    OneTail(c, put.placed, k, records, t);
  }

  lemma StartsFollows(c: Corpus, w: Placed, k: Key, tail: set<Node>, deferred: seq<Key>)
    requires AllFollow(c, w) && k in c.parents && k !in w.nodes && StartsAt(c, w, k, tail, deferred)
    requires forall p | p in Up(c.parents, k) :: Predecessors(c, k, p) == UpTo(c, p, deferred)
    ensures AllFollow(c, Put(c, w, k, tail).placed)
  {
    hide Shaped, Tails, Predecessors, UpTo, AllFollow;
    assert (map p | p in Up(c.parents, k) :: UpTo(c, p, deferred))
        == (map p | p in Up(c.parents, k) :: Predecessors(c, k, p));
    AllFollowShaped(c, w);
    PutFollows(c, w, k, tail);
  }

  lemma AllFollowShaped(c: Corpus, w: Placed)
    requires AllFollow(c, w)
    ensures Shaped(c, w)
  {
    hide Shaped, Follows;
  }

  lemma ContinuingPredecessors(c: Corpus, w: Placed, k: Key, pl: Placement, p: Key)
    requires Entered(c, w, k, pl) && c.flow[k].Act? && pl.message == Some(c.flow[k].message)
    requires p in Up(c.parents, k) && Joined(c, w, k, pl, p)
    ensures Predecessors(c, k, p) == UpTo(c, p, pl.deferred) && k !in pl.deferred
  {
    hide Ordered, Grounded, AboveStands, AboveSourced, StateOk;
    forall b ensures Late(c, b, k) <==> b in pl.deferred {
      WaitsAfterAct(c, b, k);
    }
    forall b ensures !Late(c, k, b) {
    }
    if k in pl.deferred {
      WaitsBelow(c, k, p);
      ParentIsAncestor(c.parents, p, k);
      AncestorTransitive(c.parents, k, p, k);
    }
  }

  lemma ContinuingFollows(c: Corpus, w: Placed, k: Key, pl: Placement)
    requires Entered(c, w, k, pl) && c.flow[k].Act? && pl.message == Some(c.flow[k].message)
    requires AllFollow(c, w) && StartsAt(c, w, k, pl.tail, pl.deferred)
    ensures var put := Put(c, w, k, pl.tail);
            AllFollow(c, put.placed) && EndsAt(c, put.placed, k, put.tail, pl.deferred)
  {
    hide Ordered, Grounded, AboveStands, AboveSourced, StateOk, Tracks, AllFollow, EndsAt, StartsAt;
    var p := JoinedParent(c, w, k, pl);
    ContinuingPredecessors(c, w, k, pl, p);
    FreshUnplaced(c, w, k);
    StartsFollows(c, w, k, pl.tail, pl.deferred);
    PutEnds(c, w, k, pl.tail, pl.deferred);
  }

  lemma FreshUnplaced(c: Corpus, w: Placed, k: Key)
    requires Fresh(c, w, k)
    ensures k in c.parents && k !in w.nodes
  {
  }

  /** k does not go on with the message before it. */
  ghost predicate Turns(c: Corpus, k: Key, pl: Placement) {
    && k in c.flow
    && match c.flow[k]
       case Act(message) => pl.message != Some(message)
       case Inside => pl.message == None
       case Prompt => true
  }

  lemma TurningComplete(c: Corpus, w: Placed, k: Key, pl: Placement, p: Key)
    requires Entered(c, w, k, pl) && Turns(c, k, pl) && Joined(c, w, k, pl, p)
    ensures Complete(c, p)
  {
    forall q, m | Linked(c, p, q) && Open(c, m, p) ensures !Continues(c, m, q) {
      assert q in Children(c.parents, p);
      assert pl.message == Some(m);
    }
  }

  lemma TurningPredecessors(c: Corpus, w: Placed, k: Key, pl: Placement)
    requires Entered(c, w, k, pl) && Turns(c, k, pl)
    ensures forall p | p in Up(c.parents, k) :: Predecessors(c, k, p) == UpTo(c, p, [])
  {
    hide Ordered, Grounded, AboveStands, AboveSourced, StateOk, AncestorOrSelf;
    forall b ensures !Late(c, b, k) && !Late(c, k, b) {
      if Late(c, b, k) {
        LateIsDeferred(c, w, k, pl, b);
      }
      if c.flow[k] == Inside {
        TracksInside(c, w, k, pl, {});
      }
    }
  }

  lemma TurningCloses(c: Corpus, w: Placed, k: Key, pl: Placement)
    requires Entered(c, w, k, pl) && Turns(c, k, pl)
    requires AllFollow(c, w) && StartsAt(c, w, k, pl.tail, pl.deferred)
    ensures var closed := Close(c, w, pl.tail, pl.deferred);
            AllFollow(c, closed.placed) && StartsAt(c, closed.placed, k, closed.tail, [])
  {
    if pl.deferred != [] {
      var p := JoinedParent(c, w, k, pl);
      TurningComplete(c, w, k, pl, p);
      NothingBelowParent(c, w, p, k);
      hide Tails, AllFollow, EndsAt, StartsAt, Complete;
      AllFollowShaped(c, w);
      OneParentStarts(c, w, k, p, pl.tail, pl.deferred);
      CloseFollows(c, w, p, pl);
      var closed := Close(c, w, pl.tail, pl.deferred);
      AllFollowShaped(c, closed.placed);
      OneParentStarts(c, closed.placed, k, p, closed.tail, []);
    }
  }

  lemma EnteredKnown(c: Corpus, w: Placed, k: Key, pl: Placement)
    requires Entered(c, w, k, pl)
    ensures c.Valid() && Known(c, pl.deferred) && Acyclic(c.parents)
  {
    hide Ordered, Grounded, AboveStands, AboveSourced;
  }

  lemma TurningFollows(c: Corpus, w: Placed, k: Key, pl: Placement)
    requires Entered(c, w, k, pl) && Turns(c, k, pl)
    requires AllFollow(c, w) && StartsAt(c, w, k, pl.tail, pl.deferred)
    ensures var closed := Close(c, w, pl.tail, pl.deferred);
            var put := Put(c, closed.placed, k, closed.tail);
            AllFollow(c, put.placed) && EndsAt(c, put.placed, k, put.tail, [])
  {
    hide AllFollow, EndsAt, StartsAt, AboveStands, AboveSourced, Close, Put, Predecessors, UpTo, Good;
    EnteredKnown(c, w, k, pl);
    CloseEntered(c, w, k, pl);
    TurningCloses(c, w, k, pl);
    TurningPredecessors(c, w, k, pl);
    var closed := Close(c, w, pl.tail, pl.deferred);
    FreshUnplaced(c, closed.placed, k);
    AllFollowShaped(c, closed.placed);
    StartsFollows(c, closed.placed, k, closed.tail, []);
    PutEnds(c, closed.placed, k, closed.tail, []);
  }

  /** A record that waits leaves the tail as it is. */
  lemma WaitingEnds(c: Corpus, w: Placed, k: Key, pl: Placement)
    requires Entered(c, w, k, pl) && c.flow[k] == Inside && pl.message.Some?
    requires StartsAt(c, w, k, pl.tail, pl.deferred)
    ensures EndsAt(c, w, k, pl.tail, pl.deferred + [k])
  {
    hide Ordered, Grounded, AboveStands, AboveSourced, StateOk, Tracks, Tails;
    var p := JoinedParent(c, w, k, pl);
    OneParentStarts(c, w, k, p, pl.tail, pl.deferred);
    EnteredKnown(c, w, k, pl);
    WaitingUpTo(c, p, k, pl.deferred);
    RenamedTails(c, w, p, k, UpTo(c, p, pl.deferred), pl.tail);
  }

  lemma WaitingUpTo(c: Corpus, p: Key, k: Key, deferred: seq<Key>)
    requires Acyclic(c.parents) && Linked(c, p, k) && k in c.parents
    ensures UpTo(c, k, deferred + [k]) == UpTo(c, p, deferred)
  {
    ParentIsAncestor(c.parents, p, k);
    if AncestorOrSelf(c.parents, k, p) {
      AncestorTransitive(c.parents, k, p, k);
    }
    hide Ancestor;
    forall b ensures b in UpTo(c, k, deferred + [k]) <==> b in UpTo(c, p, deferred) {
      AncestorOfLinked(c, p, k, b);
    }
  }

  lemma RenamedTails(c: Corpus, w: Placed, p: Key, k: Key, records: set<Key>, tail: set<Node>)
    requires Shaped(c, w) && Tails(c, w, map[p := records], tail)
    ensures Tails(c, w, map[k := records], tail)
  {
    hide Shaped, EndsIn;
    var groups, more := map[p := records], map[k := records];
    assert p in groups && groups[p] == records && k in more && more[k] == records;
    forall t | t in tail ensures IsEnd(c, w, more, t) {
      assert IsEnd(c, w, groups, t);
    }
  }

  lemma PerceiveFollows(c: Corpus, w: Placed, k: Key, pl: Placement)
    requires Entered(c, w, k, pl) && AllFollow(c, w) && StartsAt(c, w, k, pl.tail, pl.deferred)
    ensures var e := Perceive(c, Working(w, pl), k);
            AllFollow(c, e.placed) && EndsAt(c, e.placed, k, e.state.tail, e.state.deferred)
  {
    NoMessageNothingDeferred(c, w, k, pl);
    hide AllFollow, EndsAt, StartsAt, AboveStands, AboveSourced, Put, Good, Alone, Joined, Fresh;
    match c.flow[k]
    case Act(message) =>
      if pl.message == Some(message) {
        ContinuingFollows(c, w, k, pl);
      } else {
        TurningFollows(c, w, k, pl);
      }
    case Inside =>
      if pl.message.Some? {
        WaitingEnds(c, w, k, pl);
      } else {
        TurningFollows(c, w, k, pl);
      }
    case Prompt =>
      TurningFollows(c, w, k, pl);
  }

  // --------------------------------------------------------------- entering

  /** Every live state ends where its last record ends. */
  ghost predicate StatesEnd(c: Corpus, w: Placed, states: map<Key, Live>)
    requires Shaped(c, w)
  {
    forall s | s in states :: EndsAt(c, w, s, states[s].state.tail, states[s].state.deferred)
  }

  lemma StatesEndKept(c: Corpus, w: Placed, w': Placed, states: map<Key, Live>, states': map<Key, Live>)
    requires Shaped(c, w) && Shaped(c, w') && Extends(w, w') && StatesEnd(c, w, states)
    requires forall s | s in states' :: s in states && states'[s].state == states[s].state
    ensures StatesEnd(c, w', states')
  {
    hide Shaped, Tails, Extends, UpTo;
    forall s | s in states' ensures EndsAt(c, w', s, states'[s].state.tail, states'[s].state.deferred) {
      TailsKept(c, w, w', map[s := UpTo(c, s, states[s].state.deferred)], states[s].state.tail);
    }
  }

  /** The tail holds, for each of ps, the last node of what is up to it. */
  ghost predicate MergedTail(c: Corpus, w: Placed, ps: seq<Key>, tail: set<Node>)
    requires Shaped(c, w)
  {
    && (forall i | 0 <= i < |ps| :: HasEnd(c, w, UpTo(c, ps[i], []), tail))
    && (forall t | t in tail :: OneOfEnds(c, w, ps, t))
  }

  ghost predicate OneOfEnds(c: Corpus, w: Placed, ps: seq<Key>, t: Node)
    requires Shaped(c, w)
  {
    exists i | 0 <= i < |ps| :: EndsIn(c, w, UpTo(c, ps[i], []), t)
  }

  /** The states `taken` after ps end where their last records end, and nothing
      goes on with what they defer. */
  ghost predicate MergeEnds(c: Corpus, w: Placed, ps: seq<Key>, taken: seq<Placement>)
    requires Shaped(c, w)
  {
    && |ps| == |taken|
    && forall i | 0 <= i < |ps| :: Complete(c, ps[i]) && EndsAt(c, w, ps[i], taken[i].tail, taken[i].deferred)
  }

  lemma MergeEndsRest(c: Corpus, w: Placed, w': Placed, ps: seq<Key>, taken: seq<Placement>)
    requires Shaped(c, w) && Shaped(c, w') && Extends(w, w') && MergeEnds(c, w, ps, taken) && ps != []
    ensures MergeEnds(c, w', ps[1..], taken[1..])
  {
    hide Shaped, Tails, Extends, UpTo, Complete;
    forall i | 0 < i < |ps| ensures EndsAt(c, w', ps[i], taken[i].tail, taken[i].deferred) {
      TailsKept(c, w, w', map[ps[i] := UpTo(c, ps[i], taken[i].deferred)], taken[i].tail);
    }
  }

  lemma MergedMore(c: Corpus, w: Placed, w': Placed, ps: seq<Key>, tail: set<Node>, rest: set<Node>)
    requires Shaped(c, w) && Shaped(c, w') && Extends(w, w') && ps != []
    requires EndsAt(c, w, ps[0], tail, []) && MergedTail(c, w', ps[1..], rest)
    ensures MergedTail(c, w', ps, tail + rest)
  {
    hide Shaped, Extends, HasEnd, UpTo, OneOfEnds, Tails;
    TailsKept(c, w, w', map[ps[0] := UpTo(c, ps[0], [])], tail);
    OneParentEnd(c, w', ps[0], tail);
    forall i | 0 <= i < |ps| ensures HasEnd(c, w', UpTo(c, ps[i], []), tail + rest) {
      if i == 0 {
        MoreEnds(c, w', UpTo(c, ps[0], []), tail, tail + rest);
      } else {
        assert ps[1..][i - 1] == ps[i];
        MoreEnds(c, w', UpTo(c, ps[i], []), rest, tail + rest);
      }
    }
    forall t | t in tail + rest ensures OneOfEnds(c, w', ps, t) {
      if t in tail {
        OneOfFirst(c, w', ps, t);
      } else {
        OneOfRest(c, w', ps, t);
      }
    }
  }

  lemma OneParentEnd(c: Corpus, w: Placed, s: Key, tail: set<Node>)
    requires Shaped(c, w) && EndsAt(c, w, s, tail, [])
    ensures HasEnd(c, w, UpTo(c, s, []), tail) && forall t | t in tail :: EndsIn(c, w, UpTo(c, s, []), t)
  {
    hide Shaped, HasEnd, EndsIn, UpTo;
    var groups := map[s := UpTo(c, s, [])];
    assert s in groups && groups[s] == UpTo(c, s, []);
    forall t | t in tail ensures EndsIn(c, w, UpTo(c, s, []), t) {
      assert IsEnd(c, w, groups, t);
    }
  }

  lemma OneOfFirst(c: Corpus, w: Placed, ps: seq<Key>, t: Node)
    requires Shaped(c, w) && ps != [] && EndsIn(c, w, UpTo(c, ps[0], []), t)
    ensures OneOfEnds(c, w, ps, t)
  {
    hide Shaped, EndsIn, UpTo;
  }

  lemma OneOfRest(c: Corpus, w: Placed, ps: seq<Key>, t: Node)
    requires Shaped(c, w) && ps != [] && OneOfEnds(c, w, ps[1..], t)
    ensures OneOfEnds(c, w, ps, t)
  {
    hide Shaped, EndsIn, UpTo;
    var i :| 0 <= i < |ps[1..]| && EndsIn(c, w, UpTo(c, ps[1..][i], []), t);
    assert ps[1..][i] == ps[i + 1];
  }

  lemma MoreEnds(c: Corpus, w: Placed, records: set<Key>, tail: set<Node>, more: set<Node>)
    requires Shaped(c, w) && HasEnd(c, w, records, tail) && tail <= more
    ensures HasEnd(c, w, records, more)
  {
    hide Shaped, EndsIn;
  }

  lemma {:induction false} MergeFollows(c: Corpus, done: set<Key>, w: Placed, ps: seq<Key>, taken: seq<Placement>)
    requires Mergeable(c, done, w, ps, taken) && AllFollow(c, w) && MergeEnds(c, w, ps, taken)
    ensures forall s | s in taken :: Known(c, s.deferred)
    ensures var closed := CloseAll(c, w, taken);
            AllFollow(c, closed.placed) && MergedTail(c, closed.placed, ps, closed.tail)
    decreases |ps|
  {
    hide Mergeable, Closable, ClosedAt, AllFollow, EndsAt, MergedTail, Complete, Known;
    MergeableKnown(c, done, w, ps, taken);
    if ps != [] {
      MergeFirst(c, done, w, ps, taken);
      MergeClosable(c, done, w, ps, taken);
      CloseFollows(c, w, ps[0], taken[0]);
      var first := Close(c, w, taken[0].tail, taken[0].deferred);
      ClosedAtExtends(c, w, ps[0], first);
      AllFollowShaped(c, w);
      MergeEndsRest(c, w, first.placed, ps, taken);
      MergeFollows(c, done, first.placed, ps[1..], taken[1..]);
      var rest := CloseAll(c, first.placed, taken[1..]);
      MergeGood(c, done, first.placed, ps[1..], taken[1..]);
      MergedAtExtends(c, first.placed, ps[1..], rest);
      MergedMore(c, first.placed, rest.placed, ps, first.tail, rest.tail);
    } else {
      NothingMerged(c, w);
    }
  }

  lemma NothingMerged(c: Corpus, w: Placed)
    requires AllFollow(c, w)
    ensures MergedTail(c, w, [], {})
  {
  }

  lemma MergeableKnown(c: Corpus, done: set<Key>, w: Placed, ps: seq<Key>, taken: seq<Placement>)
    requires Mergeable(c, done, w, ps, taken)
    ensures |ps| == |taken| && Shaped(c, w) && c.Valid() && forall s | s in taken :: Known(c, s.deferred)
  {
    hide Ordered, Grounded, StateOk, NothingDone, Known;
  }

  lemma ClosedAtExtends(c: Corpus, w: Placed, s: Key, closed: Closing)
    requires ClosedAt(c, w, s, closed)
    ensures Extends(w, closed.placed) && Shaped(c, closed.placed)
  {
    hide Ordered, Grounded, StateOk, Extends;
  }

  lemma MergedAtExtends(c: Corpus, w: Placed, ps: seq<Key>, closed: Closing)
    requires MergedAt(c, w, ps, closed)
    ensures Extends(w, closed.placed) && Shaped(c, closed.placed)
  {
    hide Ordered, Grounded, Stands, FromOneOf, Extends;
  }

  lemma MergedStarts(c: Corpus, w: Placed, k: Key, tail: set<Node>)
    requires Shaped(c, w) && MergedTail(c, w, Sorted(Up(c.parents, k)), tail)
    ensures StartsAt(c, w, k, tail, [])
  {
    hide Shaped, HasEnd, OneOfEnds, IsEnd, UpTo, Up, Increasing, Distinct;
    var ps := Sorted(Up(c.parents, k));
    var groups := map p | p in Up(c.parents, k) :: UpTo(c, p, []);
    forall p | p in groups ensures HasEnd(c, w, groups[p], tail) {
      assert p in ps;
      var i :| 0 <= i < |ps| && ps[i] == p;
    }
    forall t | t in tail ensures IsEnd(c, w, groups, t) {
      MergedEnd(c, w, k, t);
    }
  }

  lemma MergedEnd(c: Corpus, w: Placed, k: Key, t: Node)
    requires Shaped(c, w) && OneOfEnds(c, w, Sorted(Up(c.parents, k)), t)
    ensures IsEnd(c, w, map p | p in Up(c.parents, k) :: UpTo(c, p, []), t)
  {
    hide Shaped, EndsIn, UpTo, Up, Increasing, Distinct;
    var ps := Sorted(Up(c.parents, k));
    var groups := map p | p in Up(c.parents, k) :: UpTo(c, p, []);
    var i :| 0 <= i < |ps| && EndsIn(c, w, UpTo(c, ps[i], []), t);
    assert ps[i] in ps;
    assert ps[i] in groups && groups[ps[i]] == UpTo(c, ps[i], []);
  }

  lemma MergingComplete(c: Corpus, k: Key, p: Key)
    requires p in Up(c.parents, k) && k in c.parents && |Up(c.parents, k)| >= 2
    ensures Complete(c, p)
  {
    assert k in Children(c.parents, p);
    assert Up(c.parents, k) != {p} by {
      assert |{p}| == 1;
    }
    forall q ensures !Linked(c, p, q) {
    }
  }

  lemma TakenEnd(c: Corpus, r: Run, k: Key)
    requires Shaped(c, r.placed) && Runnable(c, r, k) && StatesEnd(c, r.placed, r.states)
    requires |Up(c.parents, k)| >= 2
    ensures MergeEnds(c, r.placed, Sorted(Up(c.parents, k)), Taken(c, r, k))
  {
    hide Shaped, Runnable, EndsAt, Taken, Complete, Increasing, Distinct;
    var ps := Sorted(Up(c.parents, k));
    forall i | 0 <= i < |ps|
      ensures Complete(c, ps[i]) && EndsAt(c, r.placed, ps[i], Taken(c, r, k)[i].tail, Taken(c, r, k)[i].deferred)
    {
      TakenAt(c, r, k, i);
      RunnableParent(c, r, k, ps[i]);
      MergingComplete(c, k, ps[i]);
    }
  }

  /** What the run keeps. */
  ghost predicate RunFollows(c: Corpus, r: Run) {
    AllFollow(c, r.placed) && StatesEnd(c, r.placed, r.states)
  }

  lemma EnterStarts(c: Corpus, done: set<Key>, r: Run, k: Key)
    requires Invariant(c, done, r) && Runnable(c, r, k) && k !in done && RunFollows(c, r)
    ensures var e := Enter(c, r.placed, Taken(c, r, k));
            AllFollow(c, e.placed) && StartsAt(c, e.placed, k, e.state.tail, e.state.deferred)
  {
    hide Invariant, Runnable, Taken, AllFollow, EndsAt, StartsAt, Mergeable;
    AllFollowShaped(c, r.placed);
    var up := Up(c.parents, k);
    if up == {} {
      RootStarts(c, r.placed, k);
    } else if |up| == 1 {
      var p := Member(up);
      OnlyMember(up, p, p);
      TakenOne(c, r, k, p);
      RunnableParent(c, r, k, p);
      OneParentStarts(c, r.placed, k, p, r.states[p].state.tail, r.states[p].state.deferred);
    } else {
      assert |up| != 0;
      TakenEnd(c, r, k);
      TakenApart(c, done, r, k);
      MergeFollows(c, done, r.placed, Sorted(up), Taken(c, r, k));
      var closed := CloseAll(c, r.placed, Taken(c, r, k));
      AllFollowShaped(c, closed.placed);
      MergedStarts(c, closed.placed, k, closed.tail);
    }
  }

  lemma RootStarts(c: Corpus, w: Placed, k: Key)
    requires Shaped(c, w) && Up(c.parents, k) == {}
    ensures StartsAt(c, w, k, {}, [])
  {
  }

  // ---------------------------------------------------------------- leaving

  lemma UnlinkedComplete(c: Corpus, s: Key)
    requires |Children(c.parents, s)| != 1
    ensures Complete(c, s)
  {
    forall q ensures !Linked(c, s, q) {
      assert |{q}| == 1;
    }
  }

  lemma HandCloses(c: Corpus, done: set<Key>, e: Working, k: Key, states: map<Key, Live>, held: set<Key>)
    requires InHand(c, done, e, k, states, held) && |Children(c.parents, k)| != 1 && Known(c, e.state.deferred)
    requires AllFollow(c, e.placed) && EndsAt(c, e.placed, k, e.state.tail, e.state.deferred)
    requires StatesEnd(c, e.placed, states)
    ensures c.Valid()
    ensures var closed := Close(c, e.placed, e.state.tail, e.state.deferred);
            && AllFollow(c, closed.placed) && EndsAt(c, closed.placed, k, closed.tail, [])
            && StatesEnd(c, closed.placed, states)
  {
    hide InHand, AllFollow, EndsAt, Complete, Closable, ClosedAt, Children;
    HandClosable(c, done, e, k, states, held);
    UnlinkedComplete(c, k);
    ClosableKnown(c, e.placed, k, e.state);
    CloseFollows(c, e.placed, k, e.state);
    CloseGood(c, e.placed, k, e.state);
    var closed := Close(c, e.placed, e.state.tail, e.state.deferred);
    ClosedAtExtends(c, e.placed, k, closed);
    StatesEndKept(c, e.placed, closed.placed, states, states);
  }

  lemma StatesEndStored(c: Corpus, w: Placed, states: map<Key, Live>, k: Key, live: Live)
    requires Shaped(c, w) && StatesEnd(c, w, states) && EndsAt(c, w, k, live.state.tail, live.state.deferred)
    ensures StatesEnd(c, w, states[k := live])
  {
    hide Shaped, EndsAt;
  }

  lemma LeaveFollows(c: Corpus, done: set<Key>, e: Working, k: Key, states: map<Key, Live>, held: set<Key>)
    requires InHand(c, done, e, k, states, held)
    requires AllFollow(c, e.placed) && EndsAt(c, e.placed, k, e.state.tail, e.state.deferred)
    requires StatesEnd(c, e.placed, states)
    ensures c.Valid() && Known(c, e.state.deferred) && RunFollows(c, Leave(c, e, k, states, held))
  {
    hide InHand, AllFollow, EndsAt, Children, StatesEnd, Invariant, Known, Leave, RunFollows;
    LeaveGood(c, done, e, k, states, held);
    if |Children(c.parents, k)| == 1 {
      LeaveOneFollows(c, e, k, states, held);
    } else {
      HandCloses(c, done, e, k, states, held);
      LeaveClosedFollows(c, e, k, states, held);
    }
  }

  lemma LeaveOneFollows(c: Corpus, e: Working, k: Key, states: map<Key, Live>, held: set<Key>)
    requires c.Valid() && Known(c, e.state.deferred) && |Children(c.parents, k)| == 1
    requires AllFollow(c, e.placed) && EndsAt(c, e.placed, k, e.state.tail, e.state.deferred)
    requires StatesEnd(c, e.placed, states)
    ensures RunFollows(c, Leave(c, e, k, states, held))
  {
    hide AllFollow, EndsAt, Children, StatesEnd, Close, Finished, Known;
    AllFollowShaped(c, e.placed);
    StatesEndStored(c, e.placed, states, k, Live(e.state, 1));
  }

  lemma LeaveClosedFollows(c: Corpus, e: Working, k: Key, states: map<Key, Live>, held: set<Key>)
    requires c.Valid() && Known(c, e.state.deferred) && |Children(c.parents, k)| != 1
    requires AllFollow(c, e.placed) && StatesEnd(c, e.placed, states)
    requires var closed := Close(c, e.placed, e.state.tail, e.state.deferred);
             && AllFollow(c, closed.placed) && EndsAt(c, closed.placed, k, closed.tail, [])
             && StatesEnd(c, closed.placed, states)
    ensures RunFollows(c, Leave(c, e, k, states, held))
  {
    hide AllFollow, EndsAt, Children, StatesEnd, Close, Finished, Known;
    var n := |Children(c.parents, k)|;
    var closed := Close(c, e.placed, e.state.tail, e.state.deferred);
    AllFollowShaped(c, closed.placed);
    StatesEndStored(c, closed.placed, states, k, Live(Placement(closed.tail, None, []), n));
  }

  lemma PerceivedFollows(c: Corpus, done: set<Key>, r: Run, k: Key)
    requires Invariant(c, done, r) && Runnable(c, r, k) && k !in done && RunFollows(c, r)
    ensures var e := Perceive(c, Enter(c, r.placed, Taken(c, r, k)), k);
            && AllFollow(c, e.placed) && EndsAt(c, e.placed, k, e.state.tail, e.state.deferred)
            && StatesEnd(c, e.placed, Release(r.states, Up(c.parents, k)))
  {
    hide Invariant, Taken, Enter, Perceive, AllFollow, EndsAt, StartsAt, StatesEnd, Enters, Entered, Perceives, Release,
      Known;
    EnterStarts(c, done, r, k);
    EnterGood(c, done, r, k);
    var entered := Enter(c, r.placed, Taken(c, r, k));
    EntersEntered(c, r, k, entered);
    PerceiveFollows(c, entered.placed, k, entered.state);
    PerceiveGood(c, entered.placed, k, entered.state);
    var e := Perceive(c, entered, k);
    PerceivesGood(c, r, k, entered, e);
    AllFollowShaped(c, r.placed);
    AllFollowShaped(c, e.placed);
    InvariantCounted(c, done, r);
    ReleaseKeeps(c, done, r, k);
    StatesEndKept(c, r.placed, e.placed, r.states, Release(r.states, Up(c.parents, k)));
  }

  lemma InvariantCounted(c: Corpus, done: set<Key>, r: Run)
    requires Invariant(c, done, r)
    ensures Counted(c, done, r.states)
  {
    hide Good, Books, StatesOk, HeldExactly, Counted;
  }

  lemma StepFollows(c: Corpus, done: set<Key>, r: Run, k: Key)
    requires Invariant(c, done, r) && k in c.parents && k !in done && Up(c.parents, k) <= done && RunFollows(c, r)
    ensures Runnable(c, r, k) && RunFollows(c, Step(c, r, k))
  {
    hide Invariant, InHand, Leave, Perceive, Enter, Taken, Runnable, RunFollows, AllFollow, EndsAt, StatesEnd;
    StepRunnable(c, done, r, k);
    PerceiveInHand(c, done, r, k);
    PerceivedFollows(c, done, r, k);
    var e := Perceive(c, Enter(c, r.placed, Taken(c, r, k)), k);
    LeaveFollows(c, done + {k}, e, k, Release(r.states, Up(c.parents, k)), r.held);
  }

  lemma {:induction false} RunKeepsFollows(c: Corpus, done: set<Key>, r: Run, rest: seq<Key>)
    requires Invariant(c, done, r) && Continuation(c.parents, done, rest) && RunFollows(c, r)
    ensures RunsThrough(c, r, rest) && RunFollows(c, RunAll(c, r, rest))
    decreases |rest|
  {
    hide Invariant, Step, Runnable, RunFollows;
    if rest != [] {
      ContinuationStep(c.parents, done, rest);
      StepGood(c, done, r, rest[0]);
      StepFollows(c, done, r, rest[0]);
      RunKeepsFollows(c, done + {rest[0]}, Step(c, r, rest[0]), rest[1..]);
    }
  }

  lemma EmptyFollows(c: Corpus)
    requires c.Valid()
    ensures RunFollows(c, EMPTY_RUN)
  {
  }

  // ----------------------------------------------------------- main results

  /** On every corpus, branched or not: the first node of every placed record
      follows exactly, below each of its parents, the last node of the record that
      comes last of all that must come before it there. */
  lemma FollowsExactly(c: Corpus, order: seq<Key>, k: Key)
    requires c.Valid() && Topological(c.parents, order)
    ensures RunsThrough(c, EMPTY_RUN, order)
    ensures var w := RunAll(c, EMPTY_RUN, order).placed;
            Shaped(c, w) && (k in w.nodes ==> Follows(c, w, k))
  {
    hide Invariant, RunsThrough, RunAll, Follows, Shaped, StatesEnd;
    WholeRun(c, order);
    TopologicalAcyclic(c.parents, order);
    EmptyGood(c);
    EmptyFollows(c);
    assert Continuation(c.parents, {}, order) by {
      forall i | 0 <= i < |order| ensures Up(c.parents, order[i]) <= {} + Elements(order[..i]) {
      }
    }
    RunKeepsFollows(c, {}, EMPTY_RUN, order);
  }

  lemma FirstsKnown(c: Corpus, w: Placed, k: Key)
    requires Shaped(c, w) && k in w.nodes
    ensures k in w.firsts
  {
  }

  lemma OneGroupTail(c: Corpus, w: Placed, p: Key, records: set<Key>, tail: set<Node>) returns (u: Node)
    requires Shaped(c, w) && Tails(c, w, map[p := records], tail)
    ensures tail == {u} && EndsIn(c, w, records, u)
  {
    hide Shaped, EndsIn;
    var groups := map[p := records];
    assert p in groups && groups[p] == records;
    assert HasEnd(c, w, groups[p], tail);
    u :| u in tail && EndsIn(c, w, records, u);
    forall v | v in tail ensures v == u {
      assert IsEnd(c, w, groups, v);
      OneEnd(c, w, records, u, v);
    }
  }

  lemma OneParentFollows(c: Corpus, w: Placed, k: Key, p: Key)
    requires Shaped(c, w) && k in w.nodes && Follows(c, w, k) && Up(c.parents, k) == {p}
    ensures k in w.firsts && Tails(c, w, map[p := Predecessors(c, k, p)], w.firsts[k])
  {
    FirstsKnown(c, w, k);
    hide Shaped, Predecessors, Tails, Up;
    OneParentGroup(c, k, p);
  }

  lemma OneParentGroup(c: Corpus, k: Key, p: Key)
    requires Up(c.parents, k) == {p}
    ensures (map q | q in Up(c.parents, k) :: Predecessors(c, k, q)) == map[p := Predecessors(c, k, p)]
  {
    hide Predecessors, Up;
  }

  /** So below a single parent it follows one node. */
  lemma FollowsOne(c: Corpus, w: Placed, k: Key, p: Key, t: Node)
    requires Shaped(c, w) && k in w.nodes && Follows(c, w, k) && Up(c.parents, k) == {p}
    ensures k in w.firsts && (w.firsts[k] == {t} <==> EndsIn(c, w, Predecessors(c, k, p), t))
  {
    hide Shaped, EndsIn, Predecessors, Tails, Up, Follows;
    OneParentFollows(c, w, k, p);
    var records := Predecessors(c, k, p);
    var u := OneGroupTail(c, w, p, records, w.firsts[k]);
    if EndsIn(c, w, records, t) {
      OneEnd(c, w, records, t, u);
    }
  }
}
