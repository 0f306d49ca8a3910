/** The cycle check over the content classes. */
module DagChecks {
  import opened Base
  import opened Graphs
  import opened Dfs

  /** Push what must be checked before `current`, in reverse key order, unless a
      parent was already entered. */
  method PushClassParents(parents: Graph, current: Key, active: set<Key>, visited: set<Key>)
      returns (closes: bool, ghost closing: Key, pushed: seq<Frame>)
    requires current in parents && active !! visited
    ensures if closes then closing in active && closing in Up(parents, current)
            else Pushed(parents, current, pushed, active, visited)
  {
    var ps := Sorted(parents[current]);
    closes, closing, pushed := false, current, [];
    var i := |ps|;
    while i > 0
      invariant 0 <= i <= |ps|
      invariant forall f | f in pushed :: !f.exiting && f.key in Up(parents, current)
      invariant forall p | p in ps[i..] && p in parents ::
                  p !in active && (p in visited || Frame(p, false) in pushed)
    {
      i := i - 1;
      var parent := ps[i];
      assert parent in ps;
      assert ps[i..] == [parent] + ps[i + 1..];
      if parent !in parents || parent in visited {
        continue;
      }
      if parent in active {
        closes, closing := true, parent;
        return;
      }
      pushed := pushed + [Frame(parent, false)];
    }
    assert ps[0..] == ps;
  }

  /** Search everything above `key`; fails on a cycle. */
  method Visit(key: Key, parents: Graph, before: set<Key>) returns (ok: bool, visited: set<Key>)
    requires key in parents && key !in before && Clean(parents, before)
    ensures ok <==> !LoopAbove(parents, key)
    ensures ok ==> Clean(parents, visited) && before <= visited && key in visited
  {
    visited := before;
    var active: set<Key> := {};
    var stack := [Frame(key, false)];
    StartSearching(parents, key, visited);
    while stack != []
      invariant Searching(parents, key, stack, active, visited) && before <= visited
      decreases |parents.Keys - visited - active|, |stack|
    {
      hide Searching, Clean, Trail, Wired, Covering, LoopAbove, Pushed;
      var top := stack[|stack| - 1];
      var below := stack[..|stack| - 1];
      var current := top.key;
      TopKnown(parents, key, stack, active, visited);
      if current in visited {
        SkipFinished(parents, key, stack, active, visited);
        stack := below;
      } else if top.exiting {
        LeaveKey(parents, key, stack, active, visited);
        LeavingDecreases(parents.Keys, visited, active, current);
        active, visited, stack := active - {current}, visited + {current}, below;
      } else if current in active {
        LoopFound(parents, key, stack, active, visited, current);
        return false, visited;
      } else {
        EnteringDecreases(parents.Keys, visited, active, current);
        ActiveKnown(parents, key, stack, active, visited);
        var closes, closing, pushed := PushClassParents(parents, current, active + {current}, visited);
        if closes {
          LoopAbovePushed(parents, key, stack, active, visited, closing);
          return false, visited;
        }
        EnterKey(parents, key, stack, active, visited, pushed);
        active := active + {current};
        stack := below + [Frame(current, true)] + pushed;
      }
    }
    ok := true;
  }

  /** The check succeeds exactly on acyclic classes. */
  method ValidateSemanticDag(parents: Graph) returns (ok: bool)
    ensures ok <==> Acyclic(parents)
  {
    hide Clean, LoopAbove;
    var keys := Sorted(parents.Keys);
    var visited: set<Key> := {};
    NothingVisited(parents);
    for i := 0 to |keys|
      invariant Clean(parents, visited)
      invariant forall k | k in keys[..i] :: k in visited
    {
      var key := keys[i];
      assert key in keys;
      TakeNext(keys, i);
      if key in visited {
        continue;
      }
      var fine;
      ghost var before := visited;
      fine, visited := Visit(key, parents, visited);
      if !fine {
        LoopIsCycle(parents, key);
        return false;
      }
    }
    TakeAll(keys);
    CleanIsAcyclic(parents, visited);
    ok := true;
  }

  lemma NothingVisited(g: Graph)
    ensures Clean(g, {})
  {
  }

  lemma LoopIsCycle(g: Graph, k: Key)
    requires LoopAbove(g, k)
    ensures !Acyclic(g)
  {
    var x :| AncestorOrSelf(g, x, k) && Ancestor(g, x, x);
    AncestorKnown(g, x, x);
  }

  lemma CleanIsAcyclic(g: Graph, visited: set<Key>)
    requires Clean(g, visited) && g.Keys <= visited
    ensures Acyclic(g)
  {
    forall k | k in g ensures !Ancestor(g, k, k) {
      assert !LoopAbove(g, k);
      assert AncestorOrSelf(g, k, k);
    }
  }
}
