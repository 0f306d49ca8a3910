/** Depth-first search with an explicit stack: what one step keeps, shared by
    the frontier search and by the cycle check. */
module Dfs {
  import opened Base
  import opened Graphs

  /** A stack entry: a key to look at, or, once entered, a key to leave. */
  datatype Frame = Frame(key: Key, exiting: bool)

  /** The keys entered and not yet left, outermost first. */
  ghost function Trail(stack: seq<Frame>): seq<Key>
    decreases |stack|
  {
    if stack == [] then []
    else
      var top := stack[|stack| - 1];
      Trail(stack[..|stack| - 1]) + if top.exiting then [top.key] else []
  }

  /** Every entry but the first is a parent of the innermost key entered below it. */
  ghost predicate Wired(g: Graph, stack: seq<Frame>)
    decreases |stack|
  {
    stack == [] ||
    (var below := stack[..|stack| - 1];
     && Wired(g, below)
     && stack[|stack| - 1].key in g
     && (below != [] ==>
           var trail := Trail(below);
           trail != [] && stack[|stack| - 1].key in Up(g, trail[|trail| - 1])))
  }

  /** Every parent of an entered key is finished or waits above it. */
  ghost predicate Covering(g: Graph, stack: seq<Frame>, finished: set<Key>) {
    forall i, q | 0 <= i < |stack| && stack[i].exiting && q in Up(g, stack[i].key) ::
      q in finished || exists j | i < j < |stack| :: stack[j].key == q
  }

  /** A cycle can be reached from k, going up. */
  ghost predicate LoopAbove(g: Graph, k: Key) {
    exists x :: AncestorOrSelf(g, x, k) && Ancestor(g, x, x)
  }

  /** Finished keys have only finished parents, and no loop above them. */
  ghost predicate Clean(g: Graph, finished: set<Key>) {
    Closed(g, finished) && forall k | k in finished :: !LoopAbove(g, k)
  }

  ghost predicate Searching(g: Graph, root: Key, stack: seq<Frame>, active: set<Key>, finished: set<Key>) {
    && Clean(g, finished) && Wired(g, stack) && Covering(g, stack, finished)
    && Distinct(Trail(stack)) && active == Elements(Trail(stack)) && active !! finished
    && active <= g.Keys
    && (if stack == [] then root in finished else stack[0].key == root)
  }

  lemma StartSearching(g: Graph, root: Key, finished: set<Key>)
    requires root in g && Clean(g, finished)
    ensures Searching(g, root, [Frame(root, false)], {}, finished)
  {
    assert [Frame(root, false)][..0] == [];
  }

  /** The top of the stack lies above every key of the trail, and above the root. */
  lemma {:induction false} TopIsAbove(g: Graph, stack: seq<Frame>, t: Key)
    requires Wired(g, stack) && stack != []
    ensures t in Trail(stack[..|stack| - 1]) ==> Ancestor(g, stack[|stack| - 1].key, t)
    ensures AncestorOrSelf(g, stack[|stack| - 1].key, stack[0].key)
    decreases |stack|
  {
    var below := stack[..|stack| - 1];
    if below != [] {
      var trail := Trail(below);
      TrailIsAbove(g, below, |trail| - 1, t);
      var p := stack[|stack| - 1].key;
      ParentIsAncestor(g, p, trail[|trail| - 1]);
      if t in trail {
        AncestorTransitive(g, p, trail[|trail| - 1], t);
      }
      AncestorTransitive(g, p, trail[|trail| - 1], stack[0].key);
    }
  }

  /** The innermost key entered lies above every other and above the root. */
  lemma {:induction false} TrailIsAbove(g: Graph, stack: seq<Frame>, i: nat, t: Key)
    requires Wired(g, stack) && stack != [] && i < |Trail(stack)|
    requires i == |Trail(stack)| - 1
    ensures t in Trail(stack) ==> AncestorOrSelf(g, Trail(stack)[i], t)
    ensures AncestorOrSelf(g, Trail(stack)[i], stack[0].key)
    decreases |stack|
  {
    var n := |stack| - 1;
    var below := stack[..n];
    if stack[n].exiting {
      if below != [] {
        var trail := Trail(below);
        TrailIsAbove(g, below, |trail| - 1, t);
        ParentIsAncestor(g, stack[n].key, trail[|trail| - 1]);
        if t in trail {
          AncestorTransitive(g, stack[n].key, trail[|trail| - 1], t);
        }
        AncestorTransitive(g, stack[n].key, trail[|trail| - 1], stack[0].key);
      }
    } else {
      assert below != [];
      TrailIsAbove(g, below, i, t);
    }
  }

  /** Meeting a key of the trail again closes a cycle above the root. */
  lemma LoopFound(g: Graph, root: Key, stack: seq<Frame>, active: set<Key>, finished: set<Key>, p: Key)
    requires Searching(g, root, stack, active, finished) && stack != []
    requires p in active
    requires p in Up(g, stack[|stack| - 1].key) || p == stack[|stack| - 1].key
    requires !stack[|stack| - 1].exiting
    ensures LoopAbove(g, root)
  {
    var top := stack[|stack| - 1].key;
    assert Trail(stack) == Trail(stack[..|stack| - 1]);
    TopIsAbove(g, stack, p);
    if p != top {
      ParentIsAncestor(g, p, top);
      AncestorTransitive(g, p, top, p);
    }
    AncestorTransitive(g, p, top, root);
  }

  lemma {:induction false} EnteredTop(stack: seq<Frame>)
    requires stack != [] && stack[|stack| - 1].exiting
    ensures stack[|stack| - 1].key in Trail(stack)
  {
    assert Trail(stack)[|Trail(stack)| - 1] == stack[|stack| - 1].key;
  }

  /** A finished key at the top is skipped. */
  lemma SkipFinished(g: Graph, root: Key, stack: seq<Frame>, active: set<Key>, finished: set<Key>)
    requires Searching(g, root, stack, active, finished) && stack != []
    requires stack[|stack| - 1].key in finished
    ensures !stack[|stack| - 1].exiting
    ensures Searching(g, root, stack[..|stack| - 1], active, finished)
  {
    var n := |stack| - 1;
    if stack[n].exiting {
      EnteredTop(stack);
    }
    assert Trail(stack) == Trail(stack[..n]);
    forall i, q | 0 <= i < n && stack[i].exiting && q in Up(g, stack[i].key)
      ensures q in finished || exists j | i < j < n :: stack[..n][j].key == q
    {
      if q !in finished {
        var j :| i < j < |stack| && stack[j].key == q;
        assert stack[..n][j].key == q;
      }
    }
  }

  /** Leaving a key: all its parents are finished, now it is. */
  lemma LeaveKey(g: Graph, root: Key, stack: seq<Frame>, active: set<Key>, finished: set<Key>)
    requires Searching(g, root, stack, active, finished) && stack != []
    requires stack[|stack| - 1].exiting
    ensures var k := stack[|stack| - 1].key;
            && k in active && Up(g, k) <= finished
            && Searching(g, root, stack[..|stack| - 1], active - {k}, finished + {k})
  {
    var n := |stack| - 1;
    var k := stack[n].key;
    var trail := Trail(stack[..n]);
    assert Trail(stack) == trail + [k];
    ElementsAppend(trail, k);
    DistinctInit(trail, k);
    CleanMore(g, finished, k);
    forall i, q | 0 <= i < n && stack[i].exiting && q in Up(g, stack[i].key)
      ensures q in finished + {k} || exists j | i < j < n :: stack[..n][j].key == q
    {
      if q !in finished + {k} {
        var j :| i < j < |stack| && stack[j].key == q;
        assert stack[..n][j].key == q;
      }
    }
  }

  lemma CleanMore(g: Graph, finished: set<Key>, k: Key)
    requires Clean(g, finished) && k in g && k !in finished && Up(g, k) <= finished
    ensures Clean(g, finished + {k})
  {
    forall p | p in Up(g, k) ensures !AncestorOrSelf(g, k, p) {
      if AncestorOrSelf(g, k, p) {
        ClosedAncestor(g, finished, k, p);
      }
    }
    forall x | AncestorOrSelf(g, x, k) ensures !Ancestor(g, x, x) {
      AncestorViaParent(g, x, k);
      if x != k {
        var p :| p in Up(g, k) && AncestorOrSelf(g, x, p);
        assert !LoopAbove(g, p);
      }
    }
  }

  /** What entering `k` pushes: its parents that are not finished. */
  ghost predicate Pushed(g: Graph, k: Key, pushed: seq<Frame>, active: set<Key>, finished: set<Key>) {
    && (forall f | f in pushed :: !f.exiting && f.key in Up(g, k))
    && (forall p | p in Up(g, k) :: p !in active && (p in finished || Frame(p, false) in pushed))
  }

  lemma {:induction false} WiredPush(g: Graph, stack: seq<Frame>, pushed: seq<Frame>)
    requires Wired(g, stack) && stack != [] && stack[|stack| - 1].exiting
    requires forall f | f in pushed :: !f.exiting && f.key in Up(g, stack[|stack| - 1].key)
    ensures Wired(g, stack + pushed) && Trail(stack + pushed) == Trail(stack)
    decreases |pushed|
  {
    if pushed == [] {
      assert stack + pushed == stack;
    } else {
      var n := |pushed| - 1;
      WiredPush(g, stack, pushed[..n]);
      assert (stack + pushed)[..|stack| + n] == stack + pushed[..n];
      assert pushed[n] in pushed;
      assert Trail(stack)[|Trail(stack)| - 1] == stack[|stack| - 1].key;
      assert pushed[n].key in g;
    }
  }

  /** Entering a key: it is left again after all its parents. */
  lemma EnterKey(g: Graph, root: Key, stack: seq<Frame>, active: set<Key>, finished: set<Key>, pushed: seq<Frame>)
    requires Searching(g, root, stack, active, finished) && stack != []
    requires !stack[|stack| - 1].exiting
    requires var k := stack[|stack| - 1].key;
             k !in active && k !in finished && Pushed(g, k, pushed, active + {k}, finished)
    ensures var k := stack[|stack| - 1].key;
            k in g && Searching(g, root, stack[..|stack| - 1] + [Frame(k, true)] + pushed, active + {k}, finished)
  {
    var n := |stack| - 1;
    var k := stack[n].key;
    var below := stack[..n];
    var entered := below + [Frame(k, true)];
    var stack' := entered + pushed;
    assert entered[..n] == below;
    assert Wired(g, entered);
    assert Trail(stack) == Trail(below);
    assert Trail(entered) == Trail(below) + [k];
    ElementsAppend(Trail(below), k);
    WiredPush(g, entered, pushed);
    EnterCovers(g, stack, finished, active, pushed);
  }

  lemma EnterCovers(g: Graph, stack: seq<Frame>, finished: set<Key>, active: set<Key>, pushed: seq<Frame>)
    requires Covering(g, stack, finished) && stack != [] && !stack[|stack| - 1].exiting
    requires Pushed(g, stack[|stack| - 1].key, pushed, active + {stack[|stack| - 1].key}, finished)
    ensures Covering(g, stack[..|stack| - 1] + [Frame(stack[|stack| - 1].key, true)] + pushed, finished)
  {
    var n := |stack| - 1;
    var stack' := stack[..n] + [Frame(stack[n].key, true)] + pushed;
    assert forall j | 0 <= j <= n :: stack'[j].key == stack[j].key;
    forall j | n < j < |stack'| ensures !stack'[j].exiting {
      assert stack'[j] == pushed[j - n - 1];
    }
    forall i, q | 0 <= i < |stack'| && stack'[i].exiting && q in Up(g, stack'[i].key)
      ensures q in finished || exists j | i < j < |stack'| :: stack'[j].key == q
    {
      if i < n {
        assert stack'[i] == stack[i];
        if q !in finished {
          var j :| i < j < |stack| && stack[j].key == q;
          assert stack'[j].key == q;
        }
      } else if i == n {
        if q !in finished {
          var j :| 0 <= j < |pushed| && pushed[j] == Frame(q, false);
          assert stack'[n + 1 + j].key == q;
        }
      }
    }
  }

  lemma TopKnown(g: Graph, root: Key, stack: seq<Frame>, active: set<Key>, finished: set<Key>)
    requires Searching(g, root, stack, active, finished) && stack != []
    ensures stack[|stack| - 1].key in g
  {
  }

  lemma ActiveKnown(g: Graph, root: Key, stack: seq<Frame>, active: set<Key>, finished: set<Key>)
    requires Searching(g, root, stack, active, finished)
    ensures active <= g.Keys && active !! finished
  {
  }

  /** A parent of the key being entered that is that key or was entered before
      closes a cycle above the root. */
  lemma LoopAbovePushed(g: Graph, root: Key, stack: seq<Frame>, active: set<Key>, finished: set<Key>, p: Key)
    requires Searching(g, root, stack, active, finished) && stack != [] && !stack[|stack| - 1].exiting
    requires p in active + {stack[|stack| - 1].key} && p in Up(g, stack[|stack| - 1].key)
    ensures LoopAbove(g, root)
  {
    var top := stack[|stack| - 1].key;
    if p in active {
      LoopFound(g, root, stack, active, finished, p);
    } else {
      TopIsAbove(g, stack, p);
      ParentIsAncestor(g, p, top);
    }
  }

  /** Entering a key leaves fewer to enter; leaving one does not change that. */
  lemma EnteringDecreases(all: set<Key>, finished: set<Key>, active: set<Key>, k: Key)
    requires k in all && k !in finished && k !in active
    ensures |all - finished - (active + {k})| < |all - finished - active|
  {
    assert all - finished - (active + {k}) == all - finished - active - {k};
  }

  lemma LeavingDecreases(all: set<Key>, finished: set<Key>, active: set<Key>, k: Key)
    requires k in active
    ensures all - (finished + {k}) - (active - {k}) == all - finished - active
  {
  }
}
