/** Contraction of contentless records: the frontier of a key is what carries
    content, or is unknown, above it through known contentless keys only. */
module Frontiers {
  import opened Base
  import opened Graphs
  import opened Dfs

  /** k is known and has no content: it is contracted away. */
  predicate Transparent(semantic: set<Key>, normalized: Graph, k: Key) {
    k in normalized && k !in semantic
  }

  /** The transparent keys and the parent edges between them. */
  function TransparentGraph(semantic: set<Key>, normalized: Graph): (g: Graph)
    ensures forall k :: k in g <==> Transparent(semantic, normalized, k)
  {
    map k | k in normalized && k !in semantic :: normalized[k]
  }

  lemma TransparentUp(semantic: set<Key>, normalized: Graph, k: Key)
    requires Transparent(semantic, normalized, k)
    ensures forall p :: p in Up(TransparentGraph(semantic, normalized), k) <==>
                        p in normalized[k] && Transparent(semantic, normalized, p)
  {
    assert TransparentGraph(semantic, normalized)[k] == normalized[k];
  }

  /** x is opaque and reached from k, n steps up through transparent keys. */
  ghost predicate Sees(semantic: set<Key>, normalized: Graph, n: nat, k: Key, x: Key) {
    if n == 0 then k == x && !Transparent(semantic, normalized, x)
    else
      && Transparent(semantic, normalized, k)
      && exists p | p in normalized[k] :: Sees(semantic, normalized, n - 1, p, x)
  }

  /** x is on the frontier of k. */
  ghost predicate OnFrontier(semantic: set<Key>, normalized: Graph, k: Key, x: Key) {
    exists n: nat :: Sees(semantic, normalized, n, k, x)
  }

  /** A cycle of contentless records can be reached from k. */
  ghost predicate ContentlessLoop(semantic: set<Key>, normalized: Graph, k: Key) {
    Transparent(semantic, normalized, k) && LoopAbove(TransparentGraph(semantic, normalized), k)
  }

  ghost predicate IsFrontier(semantic: set<Key>, normalized: Graph, k: Key, frontier: set<Key>) {
    forall x :: x in frontier <==> OnFrontier(semantic, normalized, k, x)
  }

  lemma FrontierOfOpaque(semantic: set<Key>, normalized: Graph, k: Key, x: Key)
    requires !Transparent(semantic, normalized, k)
    ensures OnFrontier(semantic, normalized, k, x) <==> x == k
  {
    if x == k {
      assert Sees(semantic, normalized, 0, k, k);
    }
  }

  lemma FrontierOfTransparent(semantic: set<Key>, normalized: Graph, k: Key, x: Key)
    requires Transparent(semantic, normalized, k)
    ensures OnFrontier(semantic, normalized, k, x) <==>
            exists p | p in normalized[k] :: OnFrontier(semantic, normalized, p, x)
  {
    if OnFrontier(semantic, normalized, k, x) {
      var n: nat :| Sees(semantic, normalized, n, k, x);
      var p :| p in normalized[k] && Sees(semantic, normalized, n - 1, p, x);
      assert OnFrontier(semantic, normalized, p, x);
    }
    if p :| p in normalized[k] && OnFrontier(semantic, normalized, p, x) {
      var n: nat :| Sees(semantic, normalized, n, p, x);
      assert Sees(semantic, normalized, n + 1, k, x);
    }
  }

  /** Every memoised frontier is exact and has no contentless loop above it. */
  ghost predicate MemoOk(semantic: set<Key>, normalized: Graph, memo: map<Key, set<Key>>) {
    && Clean(TransparentGraph(semantic, normalized), memo.Keys)
    && forall k | k in memo :: IsFrontier(semantic, normalized, k, memo[k])
  }

  /** The part of k's frontier seen through the parents in `ps`. */
  ghost predicate SeenThrough(semantic: set<Key>, normalized: Graph, ps: set<Key>, frontier: set<Key>) {
    forall x :: x in frontier <==> exists p | p in ps :: OnFrontier(semantic, normalized, p, x)
  }

  lemma SeenThroughMore(semantic: set<Key>, normalized: Graph, ps: set<Key>, frontier: set<Key>, p: Key, more: set<Key>)
    requires SeenThrough(semantic, normalized, ps, frontier) && IsFrontier(semantic, normalized, p, more)
    ensures SeenThrough(semantic, normalized, ps + {p}, frontier + more)
  {
    hide OnFrontier;
  }

  /** The frontier of a key all of whose transparent parents are memoised. */
  method MemoisedFrontier(semantic: set<Key>, normalized: Graph, k: Key, memo: map<Key, set<Key>>)
      returns (frontier: set<Key>)
    requires MemoOk(semantic, normalized, memo) && Transparent(semantic, normalized, k)
    requires forall p | p in normalized[k] && Transparent(semantic, normalized, p) :: p in memo
    ensures IsFrontier(semantic, normalized, k, frontier)
  {
    hide OnFrontier, Clean, SeenThrough, IsFrontier;
    frontier := {};
    var parents := Sorted(normalized[k]);
    SeenNothing(semantic, normalized, parents[..0]);
    for i := 0 to |parents|
      invariant SeenThrough(semantic, normalized, Elements(parents[..i]), frontier)
    {
      var parent := parents[i];
      assert parent in parents;
      TakeNext(parents, i);
      ElementsAppend(parents[..i], parent);
      if parent in semantic || parent !in normalized {
        OpaqueIsFrontier(semantic, normalized, parent);
        SeenThroughMore(semantic, normalized, Elements(parents[..i]), frontier, parent, {parent});
        frontier := frontier + {parent};
      } else {
        SeenThroughMore(semantic, normalized, Elements(parents[..i]), frontier, parent, memo[parent]);
        frontier := frontier + memo[parent];
      }
    }
    TakeAll(parents);
    SortedElements(normalized[k]);
    FromParents(semantic, normalized, k, frontier);
  }

  lemma SeenNothing(semantic: set<Key>, normalized: Graph, none: seq<Key>)
    requires none == []
    ensures SeenThrough(semantic, normalized, Elements(none), {})
  {
  }

  lemma OpaqueIsFrontier(semantic: set<Key>, normalized: Graph, k: Key)
    requires !Transparent(semantic, normalized, k)
    ensures IsFrontier(semantic, normalized, k, {k})
  {
    forall x {
      FrontierOfOpaque(semantic, normalized, k, x);
    }
  }

  lemma FromParents(semantic: set<Key>, normalized: Graph, k: Key, frontier: set<Key>)
    requires Transparent(semantic, normalized, k) && SeenThrough(semantic, normalized, normalized[k], frontier)
    ensures IsFrontier(semantic, normalized, k, frontier)
  {
    forall x {
      FrontierOfTransparent(semantic, normalized, k, x);
    }
  }

  lemma MemoMore(semantic: set<Key>, normalized: Graph, memo: map<Key, set<Key>>, k: Key, frontier: set<Key>)
    requires MemoOk(semantic, normalized, memo) && k !in memo && IsFrontier(semantic, normalized, k, frontier)
    requires var g := TransparentGraph(semantic, normalized); k in g && Up(g, k) <= memo.Keys
    ensures memo[k := frontier].Keys == memo.Keys + {k} && MemoOk(semantic, normalized, memo[k := frontier])
  {
    hide IsFrontier, Clean;
    assert memo[k := frontier].Keys == memo.Keys + {k};
    CleanMore(TransparentGraph(semantic, normalized), memo.Keys, k);
  }

  /** Whether the parents of `current` may be pushed, or close a cycle: push them
      in reverse key order. */
  method PushParents(semantic: set<Key>, normalized: Graph, current: Key, active: set<Key>, finished: set<Key>)
      returns (closes: bool, ghost closing: Key, pushed: seq<Frame>)
    requires Transparent(semantic, normalized, current)
    requires active <= TransparentGraph(semantic, normalized).Keys
    ensures var g := TransparentGraph(semantic, normalized);
            if closes then closing in active && closing in Up(g, current)
            else Pushed(g, current, pushed, active, finished)
  {
    var g := TransparentGraph(semantic, normalized);
    TransparentUp(semantic, normalized, current);
    hide Up, TransparentGraph;
    var parents := Sorted(normalized[current]);
    closes, closing, pushed := false, current, [];
    var i := |parents|;
    while i > 0
      invariant 0 <= i <= |parents|
      invariant forall f | f in pushed :: !f.exiting && f.key in Up(g, current)
      invariant forall p | p in parents[i..] && p in Up(g, current) ::
                  p !in active && (p in finished || Frame(p, false) in pushed)
    {
      i := i - 1;
      var parent := parents[i];
      assert parent in parents;
      assert parents[i..] == [parent] + parents[i + 1..];
      if parent in active {
        closes, closing := true, parent;
        return;
      }
      if parent !in semantic && parent in normalized && parent !in finished {
        pushed := pushed + [Frame(parent, false)];
      }
    }
    assert parents[0..] == parents;
  }

  /** The nearest content-bearing or unknown keys at or above `key`, remembering
      every frontier found on the way; fails on a cycle of contentless records. */
  method SemanticFrontier(key: Key, semantic: set<Key>, normalized: Graph, known: map<Key, set<Key>>)
      returns (result: Result<set<Key>, ()>, memo: map<Key, set<Key>>)
    requires MemoOk(semantic, normalized, known)
    ensures MemoOk(semantic, normalized, memo) && forall k | k in known :: k in memo && memo[k] == known[k]
    ensures result.Err? <==> ContentlessLoop(semantic, normalized, key)
    ensures result.Ok? ==> IsFrontier(semantic, normalized, key, result.value)
  {
    memo := known;
    if key in semantic || key !in normalized {
      OpaqueIsFrontier(semantic, normalized, key);
      return Ok({key}), memo;
    }
    if key in memo {
      return Ok(memo[key]), memo;
    }
    ghost var g := TransparentGraph(semantic, normalized);
    var active: set<Key> := {};
    var stack := [Frame(key, false)];
    StartSearching(g, key, memo.Keys);
    while stack != []
      invariant MemoOk(semantic, normalized, memo) && forall k | k in known :: k in memo && memo[k] == known[k]
      invariant Searching(g, key, stack, active, memo.Keys)
      decreases |g.Keys - memo.Keys - active|, |stack|
    {
      hide Searching, Clean, IsFrontier, Trail, Wired, Covering, LoopAbove, Pushed;
      var top := stack[|stack| - 1];
      var below := stack[..|stack| - 1];
      var current := top.key;
      TopKnown(g, key, stack, active, memo.Keys);
      if current in memo {
        SkipFinished(g, key, stack, active, memo.Keys);
        stack := below;
      } else if top.exiting {
        LeaveKey(g, key, stack, active, memo.Keys);
        TransparentUp(semantic, normalized, current);
        var frontier := MemoisedFrontier(semantic, normalized, current, memo);
        MemoMore(semantic, normalized, memo, current, frontier);
        LeavingDecreases(g.Keys, memo.Keys, active, current);
        active := active - {current};
        memo := memo[current := frontier];
        stack := below;
      } else if current in active {
        LoopFound(g, key, stack, active, memo.Keys, current);
        result := Err(());
        return;
      } else {
        EnteringDecreases(g.Keys, memo.Keys, active, current);
        ActiveKnown(g, key, stack, active, memo.Keys);
        var closes, closing, pushed := PushParents(semantic, normalized, current, active + {current}, memo.Keys);
        if closes {
          LoopAbovePushed(g, key, stack, active, memo.Keys, closing);
          result := Err(());
          return;
        }
        EnterKey(g, key, stack, active, memo.Keys, pushed);
        active := active + {current};
        stack := below + [Frame(current, true)] + pushed;
      }
    }
    result := Ok(memo[key]);
  }

  // ----------------------------------------------------------- contraction

  /** Each content key's nearest content-bearing or unknown keys above it. */
  ghost predicate IsContraction(semantic: set<Key>, normalized: Graph, parents: Graph) {
    parents.Keys == semantic && forall k | k in semantic :: ContractedAt(semantic, normalized, k, parents[k])
  }

  ghost predicate ContractedAt(semantic: set<Key>, normalized: Graph, k: Key, frontier: set<Key>) {
    SeenThrough(semantic, normalized, if k in normalized then normalized[k] else {}, frontier)
  }

  /** Some content key has a contentless cycle above it. */
  ghost predicate LoopedAbove(semantic: set<Key>, normalized: Graph, k: Key) {
    k in normalized && exists p | p in normalized[k] :: ContentlessLoop(semantic, normalized, p)
  }

  method ContractKey(key: Key, semantic: set<Key>, normalized: Graph, known: map<Key, set<Key>>)
      returns (result: Result<set<Key>, ()>, memo: map<Key, set<Key>>)
    requires MemoOk(semantic, normalized, known)
    ensures MemoOk(semantic, normalized, memo)
    ensures result.Err? <==> LoopedAbove(semantic, normalized, key)
    ensures result.Ok? ==> ContractedAt(semantic, normalized, key, result.value)
  {
    hide OnFrontier, ContentlessLoop, MemoOk, SeenThrough, IsFrontier;
    memo := known;
    var frontier := {};
    var parents := if key in normalized then Sorted(normalized[key]) else [];
    SeenNothing(semantic, normalized, parents[..0]);
    for i := 0 to |parents|
      invariant MemoOk(semantic, normalized, memo)
      invariant SeenThrough(semantic, normalized, Elements(parents[..i]), frontier)
      invariant forall p | p in parents[..i] :: !ContentlessLoop(semantic, normalized, p)
    {
      assert parents[i] in parents;
      TakeNext(parents, i);
      ElementsAppend(parents[..i], parents[i]);
      var above;
      above, memo := SemanticFrontier(parents[i], semantic, normalized, memo);
      if above.Err? {
        result := Err(());
        return;
      }
      SeenThroughMore(semantic, normalized, Elements(parents[..i]), frontier, parents[i], above.value);
      frontier := frontier + above.value;
    }
    TakeAll(parents);
    if key in normalized {
      SortedElements(normalized[key]);
    } else {
      assert Elements(parents) == {};
    }
    result := Ok(frontier);
  }

  /** Contract every content key in key order, sharing one memo. */
  method Contract(semantic: set<Key>, normalized: Graph) returns (result: Result<Graph, ()>)
    ensures result.Err? <==> exists k | k in semantic :: LoopedAbove(semantic, normalized, k)
    ensures result.Ok? ==> IsContraction(semantic, normalized, result.value)
  {
    hide LoopedAbove, ContractedAt, MemoOk;
    var keys := Sorted(semantic);
    var parents: Graph := map[];
    var memo: map<Key, set<Key>> := map[];
    NoMemo(semantic, normalized, memo);
    for i := 0 to |keys|
      invariant MemoOk(semantic, normalized, memo)
      invariant forall k :: k in parents <==> k in keys[..i]
      invariant forall k | k in keys[..i] :: ContractedAt(semantic, normalized, k, parents[k])
      invariant forall k | k in keys[..i] :: !LoopedAbove(semantic, normalized, k)
    {
      assert keys[i] in keys;
      TakeNext(keys, i);
      var frontier;
      frontier, memo := ContractKey(keys[i], semantic, normalized, memo);
      if frontier.Err? {
        return Err(());
      }
      parents := parents[keys[i] := frontier.value];
    }
    TakeAll(keys);
    result := Ok(parents);
  }

  lemma NoMemo(semantic: set<Key>, normalized: Graph, none: map<Key, set<Key>>)
    requires none == map[]
    ensures MemoOk(semantic, normalized, none)
  {
  }

  lemma {:induction false} SeesReaches(semantic: set<Key>, normalized: Graph, n: nat, k: Key, x: Key)
    requires Sees(semantic, normalized, n, k, x) && x in normalized
    ensures k in normalized && Reach(normalized, n, x, k)
  {
    if n > 0 {
      var p :| p in normalized[k] && Sees(semantic, normalized, n - 1, p, x);
      SeesReaches(semantic, normalized, n - 1, p, x);
      assert p in Up(normalized, k);
    }
  }

  /** A contracted parent is an ancestor. */
  lemma ContractedIsAncestor(semantic: set<Key>, normalized: Graph, parents: Graph, p: Key, k: Key)
    requires IsContraction(semantic, normalized, parents) && semantic <= normalized.Keys
    requires p in Up(parents, k)
    ensures Ancestor(normalized, p, k)
  {
    assert ContractedAt(semantic, normalized, k, parents[k]);
    var q :| q in normalized[k] && OnFrontier(semantic, normalized, q, p);
    var n: nat :| Sees(semantic, normalized, n, q, p);
    SeesReaches(semantic, normalized, n, q, p);
    ParentIsAncestor(normalized, q, k);
    assert AncestorOrSelf(normalized, p, q);
    AncestorTransitive(normalized, p, q, k);
  }

  lemma {:induction false} ContractedReaches(semantic: set<Key>, normalized: Graph, parents: Graph, n: nat, a: Key,
                                             k: Key)
    requires IsContraction(semantic, normalized, parents) && semantic <= normalized.Keys
    requires Reach(parents, n, a, k)
    ensures AncestorOrSelf(normalized, a, k) && (n > 0 ==> Ancestor(normalized, a, k))
    decreases n
  {
    if n > 0 {
      var p :| p in Up(parents, k) && Reach(parents, n - 1, a, p);
      ContractedReaches(semantic, normalized, parents, n - 1, a, p);
      ContractedIsAncestor(semantic, normalized, parents, p, k);
      AncestorTransitive(normalized, a, p, k);
    }
  }

  /** Going up from y, the first content key met leads on to a. */
  lemma {:induction false} AncestorThroughFrontier(semantic: set<Key>, normalized: Graph, parents: Graph,
                                                   n: nat, a: Key, y: Key) returns (s: Key)
    requires IsContraction(semantic, normalized, parents) && semantic <= normalized.Keys
    requires a in semantic && y in normalized && Reach(normalized, n, a, y)
    ensures s in semantic && OnFrontier(semantic, normalized, y, s) && AncestorOrSelf(parents, a, s)
    ensures y in semantic ==> s == y && (n > 0 ==> Ancestor(parents, a, y))
    decreases n
  {
    if n == 0 {
      s := y;
      FrontierOfOpaque(semantic, normalized, y, y);
    } else {
      var p :| p in Up(normalized, y) && Reach(normalized, n - 1, a, p);
      var s' := AncestorThroughFrontier(semantic, normalized, parents, n - 1, a, p);
      if y in semantic {
        s := y;
        FrontierOfOpaque(semantic, normalized, y, y);
        assert ContractedAt(semantic, normalized, y, parents[y]);
        assert s' in Up(parents, y);
        ParentIsAncestor(parents, s', y);
        AncestorTransitive(parents, a, s', y);
      } else {
        s := s';
        FrontierOfTransparent(semantic, normalized, y, s);
      }
    }
  }

  /** Contraction keeps ancestry among content keys, and adds none. */
  lemma ContractionKeepsAncestry(semantic: set<Key>, normalized: Graph, parents: Graph, a: Key, k: Key)
    requires IsContraction(semantic, normalized, parents) && semantic <= normalized.Keys
    requires a in semantic && k in semantic
    ensures Ancestor(parents, a, k) <==> Ancestor(normalized, a, k)
  {
    if Ancestor(parents, a, k) {
      var n: nat :| n > 0 && Reach(parents, n, a, k);
      ContractedReaches(semantic, normalized, parents, n, a, k);
    }
    if Ancestor(normalized, a, k) {
      var n: nat :| n > 0 && Reach(normalized, n, a, k);
      var s := AncestorThroughFrontier(semantic, normalized, parents, n, a, k);
    }
  }
}
