/** One class at a time: entering from the parents' states, perceiving the
    record, leaving its own state behind. */
module PlacementSteps {
  import opened Base
  import opened Nodes
  import opened Graphs
  import opened Placements
  import opened MessageRuns
  import opened PlacementOrder

  /** The state after s records exactly the open message and what waits for it. */
  ghost predicate Tracks(c: Corpus, s: Key, pl: Placement) {
    && (forall m :: pl.message == Some(m) <==> Open(c, m, s))
    && (forall d :: d in pl.deferred <==> Waits(c, d, s))
  }

  /** k and everything below it is still to come. */
  ghost predicate Fresh(c: Corpus, w: Placed, k: Key) {
    k in c.parents && forall x | x in w.nodes :: !AncestorOrSelf(c.parents, k, x)
  }

  ghost predicate AboveStands(c: Corpus, w: Placed, k: Key, tail: set<Node>, deferred: seq<Key>)
    requires Shaped(c, w)
  {
    forall a | Ancestor(c.parents, a, k) ::
      a in deferred || (a in w.nodes && Covered(LastOf(c, w, a), tail))
  }

  ghost predicate AboveSourced(c: Corpus, w: Placed, k: Key, tail: set<Node>)
    requires Shaped(c, w)
  {
    forall t | t in tail ::
      exists a | a in w.nodes :: LastOf(c, w, a) == t && Ancestor(c.parents, a, k)
  }

  ghost predicate Alone(c: Corpus, k: Key, pl: Placement) {
    pl.message == None && pl.deferred == [] && forall p | p in Up(c.parents, k) :: !Linked(c, p, k)
  }

  ghost predicate Joined(c: Corpus, w: Placed, k: Key, pl: Placement, p: Key)
    requires Shaped(c, w)
  {
    Linked(c, p, k) && Tracks(c, p, pl) && StateOk(c, w, p, pl)
  }

  /** The state k starts from. */
  ghost predicate Entered(c: Corpus, w: Placed, k: Key, pl: Placement) {
    && Good(c, w) && Acyclic(c.parents) && Fresh(c, w, k) && Known(c, pl.deferred)
    && AboveStands(c, w, k, pl.tail, pl.deferred) && AboveSourced(c, w, k, pl.tail)
    && (Alone(c, k, pl) || exists p | p in Up(c.parents, k) :: Joined(c, w, k, pl, p))
  }

  /** The state k leaves, before its branch ends or forks. */
  ghost predicate Perceived(c: Corpus, w: Placed, k: Key, pl: Placement) {
    Good(c, w) && StateOk(c, w, k, pl) && Tracks(c, k, pl) && Known(c, pl.deferred)
  }

  lemma JoinedParent(c: Corpus, w: Placed, k: Key, pl: Placement) returns (p: Key)
    requires Entered(c, w, k, pl) && !Alone(c, k, pl)
    ensures p in Up(c.parents, k) && Joined(c, w, k, pl, p)
  {
    p :| p in Up(c.parents, k) && Joined(c, w, k, pl, p);
  }

  /** Only what waits for k's own message may be late with respect to k. */
  lemma LateIsDeferred(c: Corpus, w: Placed, k: Key, pl: Placement, a: Key)
    requires Entered(c, w, k, pl) && Late(c, a, k)
    ensures pl.message == Some(c.flow[k].message) && a in pl.deferred && a !in w.nodes
  {
    WaitsAfterAct(c, a, k);
    var p := JoinedParent(c, w, k, pl);
    assert Waits(c, a, p);
  }

  lemma AncestorOfLinked(c: Corpus, p: Key, k: Key, a: Key)
    requires Linked(c, p, k) && k in c.parents
    ensures Ancestor(c.parents, a, k) <==> AncestorOrSelf(c.parents, a, p)
  {
    AncestorViaParent(c.parents, a, k);
  }

  /** Place k on the tail it entered with. */
  lemma PutEntered(c: Corpus, w: Placed, k: Key, tail: set<Node>, deferred: seq<Key>)
    requires Good(c, w) && Acyclic(c.parents) && Fresh(c, w, k)
    requires AboveStands(c, w, k, tail, deferred) && AboveSourced(c, w, k, tail)
    requires forall a | a in w.nodes :: !Late(c, a, k) && a !in deferred
    ensures var put := Put(c, w, k, tail);
            && Good(c, put.placed) && Extends(w, put.placed)
            && put.placed.nodes.Keys == w.nodes.Keys + {k}
            && Stands(c, put.placed, k, put.tail, deferred)
            && Sourced(c, put.placed, k, put.tail)
  {
    FreshFits(c, w, k, tail, deferred);
    PutGood(c, w, k, tail);
    StandsAfterPut(c, w, k, tail, deferred);
  }

  lemma FreshFits(c: Corpus, w: Placed, k: Key, tail: set<Node>, deferred: seq<Key>)
    requires Shaped(c, w) && Fresh(c, w, k)
    requires AboveStands(c, w, k, tail, deferred) && AboveSourced(c, w, k, tail)
    requires forall a | a in w.nodes :: !Late(c, a, k) && a !in deferred
    ensures Fits(c, w, k, tail)
  {
    hide Ancestor, Late, Covered;
    forall t | t in tail
      ensures exists a | a in w.nodes :: LastOf(c, w, a) == t && MayPrecede(c, a, k)
    {
      var a :| a in w.nodes && LastOf(c, w, a) == t && Ancestor(c.parents, a, k);
      assert MayPrecede(c, a, k);
    }
  }

  lemma StandsAfterPut(c: Corpus, w: Placed, k: Key, tail: set<Node>, deferred: seq<Key>)
    requires Shaped(c, w) && k in c.parents && k !in w.nodes && AboveStands(c, w, k, tail, deferred)
    ensures var put := Put(c, w, k, tail);
            && Shaped(c, put.placed)
            && Stands(c, put.placed, k, put.tail, deferred)
            && Sourced(c, put.placed, k, put.tail)
  {
    PutShaped(c, w, k, tail);
    var put := Put(c, w, k, tail);
    forall a | AncestorOrSelf(c.parents, a, k)
      ensures a in deferred || (a in put.placed.nodes && Covered(LastOf(c, put.placed, a), put.tail))
    {
      if a != k && a !in deferred {
        assert Covered(LastOf(c, w, a), tail);
        PutAbove(c, w, k, tail, LastOf(c, w, a));
      }
    }
    assert LastOf(c, put.placed, k) in put.tail;
  }

  /** Complete the message k does not continue. */
  lemma CloseEntered(c: Corpus, w: Placed, k: Key, pl: Placement)
    requires Entered(c, w, k, pl)
    ensures var closed := Close(c, w, pl.tail, pl.deferred);
            && Good(c, closed.placed) && Extends(w, closed.placed) && Fresh(c, closed.placed, k)
            && closed.placed.nodes.Keys == w.nodes.Keys + Elements(pl.deferred)
            && AboveStands(c, closed.placed, k, closed.tail, [])
            && AboveSourced(c, closed.placed, k, closed.tail)
  {
    CloseKeys(c, w, pl.tail, pl.deferred);
    if pl.deferred == [] {
      assert Close(c, w, pl.tail, pl.deferred) == Closing(w, pl.tail);
    } else {
      var p := JoinedParent(c, w, k, pl);
      ParentIsAncestor(c.parents, p, k);
      NothingBelowParent(c, w, p, k);
      CloseGood(c, w, p, pl);
      var closed := Close(c, w, pl.tail, pl.deferred);
      forall a ensures Ancestor(c.parents, a, k) <==> AncestorOrSelf(c.parents, a, p) {
        AncestorOfLinked(c, p, k, a);
      }
      forall x | x in pl.deferred ensures !AncestorOrSelf(c.parents, k, x) {
        WaitsBelow(c, x, p);
        if AncestorOrSelf(c.parents, k, x) {
          AncestorTransitive(c.parents, k, x, p);
          AncestorTransitive(c.parents, k, p, k);
        }
      }
    }
  }

  lemma NothingBelowParent(c: Corpus, w: Placed, p: Key, k: Key)
    requires Fresh(c, w, k) && Linked(c, p, k)
    ensures NothingBelow(c, w, p)
  {
    forall x | x in w.nodes ensures !Ancestor(c.parents, p, x) {
      if Ancestor(c.parents, p, x) {
        AncestorViaChild(c.parents, p, x);
      }
    }
  }

  lemma TracksAct(c: Corpus, w: Placed, k: Key, pl: Placement, tail: set<Node>)
    requires Entered(c, w, k, pl) && c.flow[k].Act?
    ensures Tracks(c, k, Placement(tail, Some(c.flow[k].message),
                                   if pl.message == Some(c.flow[k].message) then pl.deferred else []))
  {
    var message := c.flow[k].message;
    forall m ensures message == m <==> Open(c, m, k) {
      OpenAfterAct(c, m, k);
    }
    forall d ensures Waits(c, d, k) <==> pl.message == Some(message) && d in pl.deferred {
      WaitsAfterAct(c, d, k);
      if !Alone(c, k, pl) {
        var p := JoinedParent(c, w, k, pl);
      }
    }
  }

  lemma TracksInside(c: Corpus, w: Placed, k: Key, pl: Placement, tail: set<Node>)
    requires Entered(c, w, k, pl) && c.flow[k] == Inside
    ensures Tracks(c, k, Placement(tail, pl.message, if pl.message.Some? then pl.deferred + [k] else pl.deferred))
  {
    forall m ensures pl.message == Some(m) <==> Open(c, m, k) {
      OpenAfterInside(c, m, k);
      if !Alone(c, k, pl) {
        var p := JoinedParent(c, w, k, pl);
      }
    }
    forall d ensures Waits(c, d, k) <==> d in pl.deferred || (pl.message.Some? && d == k) {
      WaitsAfterInside(c, d, k);
      if !Alone(c, k, pl) {
        var p := JoinedParent(c, w, k, pl);
        if pl.message.None? {
          assert forall m :: !Open(c, m, p);
        } else {
          assert Open(c, pl.message.value, p);
        }
        if Waits(c, d, p) {
          var m, n := WaitsNeedsOpen(c, d, p);
        }
      }
    }
  }

  /** Only k is added to what is placed or deferred, and nothing gets lost. */
  ghost predicate Accounts(w: Placed, k: Key, pl: Placement, e: Working) {
    forall x :: x in e.placed.nodes || x in e.state.deferred <==> x in w.nodes || x in pl.deferred || x == k
  }

  /** What perceiving k turns the entered state into. */
  ghost predicate Perceives(c: Corpus, w: Placed, k: Key, pl: Placement, e: Working) {
    Extends(w, e.placed) && Perceived(c, e.placed, k, e.state) && Accounts(w, k, pl, e)
  }

  lemma PerceiveAccounts(c: Corpus, w: Placed, k: Key, pl: Placement)
    requires c.Valid() && k in c.parents && Known(c, pl.deferred)
    requires pl.message.None? ==> pl.deferred == []
    ensures Accounts(w, k, pl, Perceive(c, Working(w, pl), k))
  {
    hide Chain, Close;
    CloseKeys(c, w, pl.tail, pl.deferred);
  }

  /** k is placed on the tail and nothing waits: after a closing, or with no message open. */
  lemma PlacedAlone(c: Corpus, w: Placed, k: Key, tail: set<Node>)
    requires Good(c, w) && Acyclic(c.parents) && Fresh(c, w, k)
    requires AboveStands(c, w, k, tail, []) && AboveSourced(c, w, k, tail)
    requires forall a | a in w.nodes :: !Late(c, a, k)
    ensures var put := Put(c, w, k, tail);
            && Good(c, put.placed) && Extends(w, put.placed)
            && put.placed.nodes.Keys == w.nodes.Keys + {k}
            && forall message :: StateOk(c, put.placed, k, Placement(put.tail, message, []))
  {
    PutEntered(c, w, k, tail, []);
  }

  lemma ExtendsTwice(w: Placed, w': Placed, w'': Placed)
    requires Extends(w, w') && Extends(w', w'')
    ensures Extends(w, w'')
  {
  }

  /** k completes the message before it and is placed right after it. */
  lemma PerceiveClosing(c: Corpus, w: Placed, k: Key, pl: Placement, message: Option<Message>)
    requires Entered(c, w, k, pl)
    requires forall a :: !Late(c, a, k)
    requires forall tail :: Tracks(c, k, Placement(tail, message, []))
    ensures var closed := Close(c, w, pl.tail, pl.deferred);
            var put := Put(c, closed.placed, k, closed.tail);
            Extends(w, put.placed) && Perceived(c, put.placed, k, Placement(put.tail, message, []))
  {
    CloseEntered(c, w, k, pl);
    var closed := Close(c, w, pl.tail, pl.deferred);
    PlacedAlone(c, closed.placed, k, closed.tail);
    var put := Put(c, closed.placed, k, closed.tail);
    ExtendsTwice(w, closed.placed, put.placed);
  }

  /** k goes on with the open message: what waits keeps waiting. */
  lemma PerceiveContinuing(c: Corpus, w: Placed, k: Key, pl: Placement)
    requires Entered(c, w, k, pl) && c.flow[k].Act? && pl.message == Some(c.flow[k].message)
    ensures var e := Perceive(c, Working(w, pl), k);
            Extends(w, e.placed) && Perceived(c, e.placed, k, e.state)
  {
    forall a | a in w.nodes ensures !Late(c, a, k) && a !in pl.deferred {
      var p := JoinedParent(c, w, k, pl);
      if Late(c, a, k) {
        LateIsDeferred(c, w, k, pl, a);
      }
    }
    PutEntered(c, w, k, pl.tail, pl.deferred);
    var e := Perceive(c, Working(w, pl), k);
    TracksAct(c, w, k, pl, e.state.tail);
    StillDeferring(c, w, k, pl, e.placed);
  }

  lemma StillDeferring(c: Corpus, w: Placed, k: Key, pl: Placement, w': Placed)
    requires Entered(c, w, k, pl) && c.flow[k].Act? && pl.message == Some(c.flow[k].message)
    requires w'.nodes.Keys == w.nodes.Keys + {k}
    ensures Deferring(c, w', k, pl.deferred)
  {
    var p := JoinedParent(c, w, k, pl);
    TracksAct(c, w, k, pl, {});
    assert forall x :: Waits(c, x, k) <==> x in pl.deferred;
    assert forall x | x in pl.deferred :: x !in w.nodes && c.flow[x] == Inside;
  }

  lemma PerceiveWaiting(c: Corpus, w: Placed, k: Key, pl: Placement)
    requires Entered(c, w, k, pl) && c.flow[k] == Inside && pl.message.Some?
    ensures var e := Perceive(c, Working(w, pl), k);
            Extends(w, e.placed) && Perceived(c, e.placed, k, e.state)
  {
    var deferred := pl.deferred + [k];
    TracksInside(c, w, k, pl, pl.tail);
    var p := JoinedParent(c, w, k, pl);
    ParentIsAncestor(c.parents, p, k);
    forall d | d in pl.deferred ensures Ancestor(c.parents, d, k) {
      WaitsBelow(c, d, p);
      AncestorTransitive(c.parents, d, p, k);
    }
    assert forall x :: Waits(c, x, k) <==> x in deferred;
    assert forall x | x in deferred :: x !in w.nodes;
    assert Deferring(c, w, k, deferred);
    assert Stands(c, w, k, pl.tail, deferred);
  }

  lemma PerceiveAct(c: Corpus, w: Placed, k: Key, pl: Placement)
    requires Entered(c, w, k, pl) && c.flow[k].Act?
    ensures var e := Perceive(c, Working(w, pl), k);
            Extends(w, e.placed) && Perceived(c, e.placed, k, e.state)
  {
    var message := c.flow[k].message;
    if pl.message == Some(message) {
      PerceiveContinuing(c, w, k, pl);
    } else {
      forall a ensures !Late(c, a, k) {
        if Late(c, a, k) {
          LateIsDeferred(c, w, k, pl, a);
        }
      }
      forall tail ensures Tracks(c, k, Placement(tail, Some(message), [])) {
        TracksAct(c, w, k, pl, tail);
      }
      PerceiveClosing(c, w, k, pl, Some(message));
    }
  }

  lemma PerceiveInside(c: Corpus, w: Placed, k: Key, pl: Placement)
    requires Entered(c, w, k, pl) && c.flow[k] == Inside
    ensures var e := Perceive(c, Working(w, pl), k);
            Extends(w, e.placed) && Perceived(c, e.placed, k, e.state)
  {
    if pl.message.Some? {
      PerceiveWaiting(c, w, k, pl);
    } else {
      NoMessageNothingDeferred(c, w, k, pl);
      forall tail ensures Tracks(c, k, Placement(tail, None, [])) {
        TracksInside(c, w, k, pl, tail);
      }
      PerceiveClosing(c, w, k, pl, None);
    }
  }

  lemma PerceivePrompt(c: Corpus, w: Placed, k: Key, pl: Placement)
    requires Entered(c, w, k, pl) && c.flow[k] == Prompt
    ensures var e := Perceive(c, Working(w, pl), k);
            Extends(w, e.placed) && Perceived(c, e.placed, k, e.state)
  {
    forall m, d ensures !Open(c, m, k) && !Waits(c, d, k) {
      NothingAfterPrompt(c, m, d, k);
    }
    assert forall tail :: Tracks(c, k, Placement(tail, None, []));
    PerceiveClosing(c, w, k, pl, None);
  }

  /** Perceiving any record keeps the order and leaves a state that stands for it. */
  lemma PerceiveGood(c: Corpus, w: Placed, k: Key, pl: Placement)
    requires Entered(c, w, k, pl)
    ensures Perceives(c, w, k, pl, Perceive(c, Working(w, pl), k))
  {
    NoMessageNothingDeferred(c, w, k, pl);
    PerceiveAccounts(c, w, k, pl);
    hide Perceive, Accounts, Perceived, Extends;
    match c.flow[k]
    case Act(_) => PerceiveAct(c, w, k, pl);
    case Inside => PerceiveInside(c, w, k, pl);
    case Prompt => PerceivePrompt(c, w, k, pl);
  }

  lemma NoMessageNothingDeferred(c: Corpus, w: Placed, k: Key, pl: Placement)
    requires Entered(c, w, k, pl)
    ensures pl.message.None? ==> pl.deferred == []
  {
    if pl.message.None? && pl.deferred != [] {
      var p := JoinedParent(c, w, k, pl);
      assert pl.deferred[0] in pl.deferred;
      var m, n := WaitsNeedsOpen(c, pl.deferred[0], p);
    }
  }
}
