/** Which fork copies are their origins: the alias edges that join only copies
    saying the same thing. */
module Aliases {
  import opened Base
  import opened Nodes
  import opened Connectivity

  type Edge = (Key, Key)

  /** What each key with content says. */
  type Says = map<Key, seq<Fact>>

  /** No two connected keys say different things. */
  ghost predicate Sound(says: Says, kept: set<Edge>) {
    forall x, y | x in says && y in says && Connected(kept, x, y) :: says[x] == says[y]
  }

  /** In order, keep an edge unless it would put two different payloads into one class. */
  ghost function Greedy(says: Says, edges: seq<Edge>): set<Edge>
    decreases |edges|
  {
    if edges == [] then {}
    else
      var n := |edges| - 1;
      var kept := Greedy(says, edges[..n]);
      if Sound(says, kept + {edges[n]}) then kept + {edges[n]} else kept
  }

  lemma NothingKeptSound(says: Says)
    ensures Sound(says, {})
  {
    forall x, y | x in says && y in says && Connected({}, x, y) ensures says[x] == says[y] {
      NotConnected(x, y);
    }
  }

  /** What is kept never connects two keys that say different things. */
  lemma {:induction false} GreedySound(says: Says, edges: seq<Edge>)
    ensures Sound(says, Greedy(says, edges))
    ensures forall e | e in Greedy(says, edges) :: e in edges
    decreases |edges|
  {
    if edges == [] {
      NothingKeptSound(says);
    } else {
      GreedySound(says, edges[..|edges| - 1]);
    }
  }

  lemma {:induction false} GreedyGrows(says: Says, edges: seq<Edge>, i: nat)
    requires i <= |edges|
    ensures Greedy(says, edges[..i]) <= Greedy(says, edges)
    decreases |edges|
  {
    if i == |edges| {
      assert edges[..i] == edges;
    } else {
      GreedyGrows(says, edges[..|edges| - 1], i);
      assert edges[..|edges| - 1][..i] == edges[..i];
    }
  }

  lemma SoundLess(says: Says, kept: set<Edge>, more: set<Edge>)
    requires kept <= more && Sound(says, more)
    ensures Sound(says, kept)
  {
    forall x, y | x in says && y in says && Connected(kept, x, y) ensures says[x] == says[y] {
      ConnectedMore(kept, more, x, y);
    }
  }

  /** The ends of a dropped edge lie in components that say different things,
      also in the end: nothing more could have been kept. */
  lemma DroppedDiffers(says: Says, edges: seq<Edge>, e: Edge)
    requires e in edges && e !in Greedy(says, edges)
    ensures var kept := Greedy(says, edges);
            exists x, y | x in says && y in says ::
              Connected(kept, e.0, x) && Connected(kept, e.1, y) && says[x] != says[y]
  {
    var i :| 0 <= i < |edges| && edges[i] == e;
    var kept := Greedy(says, edges);
    GreedyGrows(says, edges, i);
    GreedyGrows(says, edges, i + 1);
    assert edges[..i + 1][..i] == edges[..i];
    if Sound(says, kept + {e}) {
      SoundLess(says, Greedy(says, edges[..i]) + {e}, kept + {e});
    }
    GreedySound(says, edges);
    UnsoundEdge(says, kept, e);
  }

  lemma UnsoundEdge(says: Says, kept: set<Edge>, e: Edge)
    requires Sound(says, kept) && !Sound(says, kept + {e})
    ensures exists x, y | x in says && y in says ::
              Connected(kept, e.0, x) && Connected(kept, e.1, y) && says[x] != says[y]
  {
    var x, y :| x in says && y in says && Connected(kept + {e}, x, y) && says[x] != says[y];
    assert {(e.0, e.1)} == {e};
    JoinedBy(kept, e.0, e.1, x, y);
    if Connected(kept, x, e.0) && Connected(kept, e.1, y) {
      ConnectedSymmetric(kept, x, e.0);
      assert Connected(kept, e.0, x) && Connected(kept, e.1, y);
    } else {
      ConnectedSymmetric(kept, x, e.1);
      assert Connected(kept, e.0, y) && Connected(kept, e.1, x);
    }
  }

  // ---------------------------------------------------------- the forest

  ghost predicate TreeAt(roots: map<Key, Key>, home: map<Key, Key>, level: map<Key, nat>, k: Key) {
    && k in roots && k in home && k in level
    && roots[k] in roots && roots[k] in home && roots[k] in level
    && home[k] in home && home[home[k]] == home[k]
    && home[roots[k]] == home[k] && (roots[k] == k <==> home[k] == k)
    && (roots[k] != k ==> level[k] > level[roots[k]])
  }

  /** Following `roots` from any key ends at its home; `level` falls on the way. */
  ghost predicate Tree(roots: map<Key, Key>, home: map<Key, Key>, level: map<Key, nat>) {
    && roots.Keys == home.Keys == level.Keys
    && forall k {:trigger TreeAt(roots, home, level, k)} | k in roots :: TreeAt(roots, home, level, k)
  }

  /** Where a key's class is, by following the links; the key is linked there directly. */
  method Find(before: map<Key, Key>, key: Key, ghost home: map<Key, Key>, ghost level: map<Key, nat>)
      returns (roots: map<Key, Key>, root: Key)
    requires Tree(before, home, level) && key in before
    ensures Tree(roots, home, level) && root == home[key]
  {
    root := key;
    while root in before && before[root] != root
      invariant root in before && home[root] == home[key]
      invariant root != key ==> level[root] < level[key]
      decreases if root in before then level[root] else 0
    {
      assert TreeAt(before, home, level, root);
      root := before[root];
    }
    assert TreeAt(before, home, level, root);
    CompressTree(before, home, level, key, root);
    roots := before[key := root];
  }

  lemma CompressTree(roots: map<Key, Key>, home: map<Key, Key>, level: map<Key, nat>, key: Key, root: Key)
    requires Tree(roots, home, level) && key in roots && root == home[key]
    requires root != key ==> root in level && level[root] < level[key]
    ensures Tree(roots[key := root], home, level)
  {
    assert TreeAt(roots, home, level, key);
    forall k | k in roots ensures TreeAt(roots[key := root], home, level, k) {
      assert TreeAt(roots, home, level, k);
    }
  }

  /** The payload recorded at a root is what its class says, if anything. */
  ghost predicate PayloadOf(says: Says, home: map<Key, Key>, r: Key, payload: Option<seq<Fact>>) {
    && (forall k | k in home && home[k] == r && k in says :: payload == Some(says[k]))
    && (payload.Some? ==> exists k | k in home :: home[k] == r && k in says && says[k] == payload.value)
  }

  ghost predicate Payloads(says: Says, home: map<Key, Key>, payloads: map<Key, Option<seq<Fact>>>) {
    forall r | r in home && home[r] == r :: r in payloads && PayloadOf(says, home, r, payloads[r])
  }

  /** Keys share a home exactly when the kept edges connect them. */
  ghost predicate Homes(kept: set<Edge>, home: map<Key, Key>) {
    && (forall e | e in kept :: e.0 in home && e.1 in home)
    && (forall a, b | a in home && b in home :: home[a] == home[b] <==> Connected(kept, a, b))
  }

  lemma {:induction false} WalkInside(kept: set<Edge>, home: map<Key, Key>, n: nat, a: Key, b: Key)
    requires Homes(kept, home) && Walk(kept, n, a, b)
    ensures a == b || (a in home && b in home)
  {
    if n > 0 {
      var m :| Walk(kept, n - 1, a, m) && Touching(kept, m, b);
      WalkInside(kept, home, n - 1, a, m);
    }
  }

  lemma ConnectedInside(kept: set<Edge>, home: map<Key, Key>, a: Key, b: Key)
    requires Homes(kept, home) && Connected(kept, a, b)
    ensures a == b || (a in home && b in home)
  {
    var n: nat :| Walk(kept, n, a, b);
    WalkInside(kept, home, n, a, b);
  }

  lemma HomesSound(says: Says, kept: set<Edge>, home: map<Key, Key>, payloads: map<Key, Option<seq<Fact>>>)
    requires Homes(kept, home) && Payloads(says, home, payloads)
    requires forall k | k in home :: home[k] in home && home[home[k]] == home[k]
    ensures Sound(says, kept)
  {
    hide Connected;
    forall x, y | x in says && y in says && Connected(kept, x, y) ensures says[x] == says[y] {
      ConnectedInside(kept, home, x, y);
      if x != y {
        assert PayloadOf(says, home, home[x], payloads[home[x]]);
      }
    }
  }

  // ------------------------------------------------------------ the steps

  ghost predicate Consistent(says: Says, kept: set<Edge>, roots: map<Key, Key>, home: map<Key, Key>,
                             level: map<Key, nat>, payloads: map<Key, Option<seq<Fact>>>) {
    Tree(roots, home, level) && Homes(kept, home) && Payloads(says, home, payloads)
  }

  function SaysOf(says: Says, k: Key): Option<seq<Fact>> {
    if k in says then Some(says[k]) else None
  }

  /** A key met for the first time stands alone. */
  lemma NewKey(says: Says, kept: set<Edge>, roots: map<Key, Key>, home: map<Key, Key>,
               level: map<Key, nat>, payloads: map<Key, Option<seq<Fact>>>, k: Key)
    requires Consistent(says, kept, roots, home, level, payloads) && k !in roots
    ensures Consistent(says, kept, roots[k := k], home[k := k], level[k := 0], payloads[k := SaysOf(says, k)])
  {
    hide Homes, Payloads, Tree;
    TreeHomes(roots, home, level);
    NewKeyTree(roots, home, level, k);
    NewKeyHomes(kept, home, k);
    NewKeyPayloads(says, roots, home, level, payloads, k);
  }

  lemma NewKeyTree(roots: map<Key, Key>, home: map<Key, Key>, level: map<Key, nat>, k: Key)
    requires Tree(roots, home, level) && k !in roots
    ensures Tree(roots[k := k], home[k := k], level[k := 0])
  {
    var roots', home', level' := roots[k := k], home[k := k], level[k := 0];
    forall x | x in roots' ensures TreeAt(roots', home', level', x) {
      assert x != k ==> TreeAt(roots, home, level, x);
    }
  }

  lemma NewKeyHomes(kept: set<Edge>, home: map<Key, Key>, k: Key)
    requires Homes(kept, home) && k !in home && forall x | x in home :: home[x] in home
    ensures Homes(kept, home[k := k])
  {
    hide Connected;
    ConnectedSelf(kept, k);
    forall a | a in home ensures !Connected(kept, a, k) && !Connected(kept, k, a) {
      if Connected(kept, a, k) {
        ConnectedInside(kept, home, a, k);
      }
      if Connected(kept, k, a) {
        ConnectedInside(kept, home, k, a);
      }
    }
  }

  lemma PayloadKept(says: Says, home: map<Key, Key>, k: Key, r: Key, payload: Option<seq<Fact>>)
    requires PayloadOf(says, home, r, payload) && k !in home && r != k
    ensures PayloadOf(says, home[k := k], r, payload)
  {
    if payload.Some? {
      var x :| x in home && home[x] == r && x in says && says[x] == payload.value;
      assert home[k := k][x] == r;
    }
  }

  lemma PayloadNew(says: Says, home: map<Key, Key>, k: Key)
    requires k !in home && forall x | x in home :: home[x] != k
    ensures PayloadOf(says, home[k := k], k, SaysOf(says, k))
  {
    assert home[k := k][k] == k;
  }

  lemma NewKeyPayloads(says: Says, roots: map<Key, Key>, home: map<Key, Key>, level: map<Key, nat>,
                       payloads: map<Key, Option<seq<Fact>>>, k: Key)
    requires Tree(roots, home, level) && Payloads(says, home, payloads) && k !in roots
    ensures Payloads(says, home[k := k], payloads[k := SaysOf(says, k)])
  {
    hide PayloadOf, Tree;
    var home' := home[k := k];
    TreeHomes(roots, home, level);
    PayloadNew(says, home, k);
    forall r | r in home' && home'[r] == r && r != k
      ensures r in payloads && PayloadOf(says, home', r, payloads[r])
    {
      PayloadKept(says, home, k, r, payloads[r]);
    }
  }

  ghost function Rehomed(home: map<Key, Key>, from: Key, to: Key): map<Key, Key> {
    map k | k in home :: if home[k] == from then to else home[k]
  }

  ghost function Raised(home: map<Key, Key>, level: map<Key, nat>, from: Key, lift: nat): map<Key, nat>
    requires home.Keys == level.Keys
  {
    map k | k in level :: if home[k] == from then level[k] + lift else level[k]
  }

  /** Of two payloads that do not differ, the one that is there. */
  function JoinedPayload(a: Option<seq<Fact>>, b: Option<seq<Fact>>): Option<seq<Fact>> {
    if a.Some? then a else b
  }

  lemma MergeTree(roots: map<Key, Key>, home: map<Key, Key>, level: map<Key, nat>, left: Key, right: Key)
    requires Tree(roots, home, level) && left in roots && right in roots && left != right
    requires home[left] == left && home[right] == right
    ensures Tree(roots[right := left], Rehomed(home, right, left), Raised(home, level, right, level[left] + 1))
  {
    var roots', home', level' := roots[right := left], Rehomed(home, right, left),
        Raised(home, level, right, level[left] + 1);
    forall k | k in roots' ensures TreeAt(roots', home', level', k) {
      assert TreeAt(roots, home, level, k) && TreeAt(roots, home, level, left);
    }
  }

  lemma MergeHomes(kept: set<Edge>, home: map<Key, Key>, d: Key, o: Key)
    requires Homes(kept, home) && d in home && o in home
    ensures Homes(kept + {(d, o)}, Rehomed(home, home[o], home[d]))
  {
    hide Connected;
    var home' := Rehomed(home, home[o], home[d]);
    forall a, b | a in home' && b in home'
      ensures home'[a] == home'[b] <==> Connected(kept + {(d, o)}, a, b)
    {
      JoinedBy(kept, d, o, a, b);
    }
  }

  lemma MergePayloads(says: Says, home: map<Key, Key>, payloads: map<Key, Option<seq<Fact>>>, left: Key, right: Key)
    requires Payloads(says, home, payloads) && left in home && right in home && left != right
    requires home[left] == left && home[right] == right
    requires payloads[left].None? || payloads[right].None? || payloads[left] == payloads[right]
    ensures Payloads(says, Rehomed(home, right, left),
                     payloads[left := JoinedPayload(payloads[left], payloads[right])])
  {
    var home' := Rehomed(home, right, left);
    var payload := JoinedPayload(payloads[left], payloads[right]);
    assert PayloadOf(says, home, left, payloads[left]) && PayloadOf(says, home, right, payloads[right]);
    forall r | r in home' && home'[r] == r
      ensures r in payloads && PayloadOf(says, home', r, payloads[left := payload][r])
    {
      if r == left {
        if payload.Some? {
          var from := if payloads[left].Some? then left else right;
          var x :| x in home && home[x] == from && x in says && says[x] == payload.value;
          assert home'[x] == left;
        }
      } else {
        assert home[r] == r && PayloadOf(says, home, r, payloads[r]);
        if payloads[r].Some? {
          var x :| x in home && home[x] == r && x in says && says[x] == payloads[r].value;
          assert home'[x] == r;
        }
      }
    }
  }

  /** Two classes that say different things must not be joined. */
  lemma DifferentPayloads(says: Says, kept: set<Edge>, home: map<Key, Key>, payloads: map<Key, Option<seq<Fact>>>,
                          e: Edge)
    requires Homes(kept, home) && Payloads(says, home, payloads) && e.0 in home && e.1 in home
    requires forall k | k in home :: home[k] in home && home[home[k]] == home[k]
    requires payloads[home[e.0]].Some? && payloads[home[e.1]].Some? && payloads[home[e.0]] != payloads[home[e.1]]
    ensures !Sound(says, kept + {e})
  {
    hide Connected;
    var (d, o) := e;
    assert PayloadOf(says, home, home[d], payloads[home[d]]) && PayloadOf(says, home, home[o], payloads[home[o]]);
    var x :| x in home && home[x] == home[d] && x in says && says[x] == payloads[home[d]].value;
    var y :| y in home && home[y] == home[o] && y in says && says[y] == payloads[home[o]].value;
    JoinedBy(kept, d, o, x, y);
    assert Connected(kept + {(d, o)}, x, y);
  }

  lemma JoinedAlready(kept: set<Edge>, home: map<Key, Key>, d: Key, o: Key)
    requires Homes(kept, home) && d in home && o in home && home[d] == home[o]
    ensures Homes(kept + {(d, o)}, home)
  {
    MergeHomes(kept, home, d, o);
    assert Rehomed(home, home[o], home[d]) == home;
  }

  // -------------------------------------------------------------- the code

  class Forest {
    var roots: map<Key, Key>
    var payloads: map<Key, Option<seq<Fact>>>
    ghost var home: map<Key, Key>
    ghost var level: map<Key, nat>

    constructor ()
      ensures roots == map[] && payloads == map[] && home == map[] && level == map[]
    {
      roots, payloads, home, level := map[], map[], map[], map[];
    }

    ghost predicate Valid(says: Says, kept: set<Edge>)
      reads this
    {
      Consistent(says, kept, roots, home, level, payloads)
    }

    method Insert(key: Key, says: Says, ghost kept: set<Edge>)
      requires Valid(says, kept)
      modifies this
      ensures Valid(says, kept) && key in roots && forall k | k in old(roots) :: k in roots
    {
      if key !in roots {
        NewKey(says, kept, roots, home, level, payloads, key);
        roots, payloads := roots[key := key], payloads[key := SaysOf(says, key)];
        home, level := home[key := key], level[key := 0];
      }
    }

    /** Both ends' classes, by following the links. */
    method FindEnds(e: Edge, says: Says, ghost kept: set<Edge>) returns (left: Key, right: Key)
      requires Valid(says, kept) && e.0 in roots && e.1 in roots
      modifies this`roots
      ensures Valid(says, kept)
      ensures e.0 in home && e.1 in home && left == home[e.0] && right == home[e.1]
      ensures left in payloads && right in payloads && left in level && home.Keys == level.Keys
      ensures forall k | k in home :: home[k] in home && home[home[k]] == home[k]
      ensures Homes(kept, home) && Payloads(says, home, payloads)
    {
      hide Consistent, Sound, Tree, Homes, Payloads;
      ConsistentParts(says, kept, roots, home, level, payloads);
      roots, left := Find(roots, e.0, home, level);
      StillConsistent(says, kept, roots, home, level, payloads);
      ConsistentParts(says, kept, roots, home, level, payloads);
      roots, right := Find(roots, e.1, home, level);
      StillConsistent(says, kept, roots, home, level, payloads);
    }

    /** Join the classes of an edge's ends, unless they say different things. */
    method Join(e: Edge, says: Says, ghost kept: set<Edge>) returns (keep: bool)
      requires Valid(says, kept) && e.0 in roots && e.1 in roots
      modifies this
      ensures keep <==> Sound(says, kept + {e})
      ensures Valid(says, if keep then kept + {e} else kept)
    {
      hide Consistent, Sound, Rehomed, Raised, Homes, Payloads;
      var left, right := FindEnds(e, says, kept);
      if left == right {
        SameClassKept(says, kept, roots, home, level, payloads, e);
        return true;
      }
      if payloads[left].Some? && payloads[right].Some? && payloads[left] != payloads[right] {
        DifferentPayloads(says, kept, home, payloads, e);
        return false;
      }
      Merged(says, kept, roots, home, level, payloads, e, left, right);
      roots := roots[right := left];
      payloads := payloads[left := JoinedPayload(payloads[left], payloads[right])];
      level := Raised(home, level, right, level[left] + 1);
      home := Rehomed(home, right, left);
      keep := true;
    }
  }

  lemma ConsistentParts(says: Says, kept: set<Edge>, roots: map<Key, Key>, home: map<Key, Key>,
                        level: map<Key, nat>, payloads: map<Key, Option<seq<Fact>>>)
    requires Consistent(says, kept, roots, home, level, payloads)
    ensures Tree(roots, home, level) && Homes(kept, home) && Payloads(says, home, payloads)
    ensures roots.Keys == home.Keys == level.Keys
    ensures forall k | k in home :: home[k] in home && home[home[k]] == home[k]
    ensures forall r | r in home && home[r] == r :: r in payloads
  {
    hide Homes, PayloadOf, Tree;
    TreeHomes(roots, home, level);
  }

  lemma StillConsistent(says: Says, kept: set<Edge>, roots: map<Key, Key>, home: map<Key, Key>,
                        level: map<Key, nat>, payloads: map<Key, Option<seq<Fact>>>)
    requires Tree(roots, home, level) && Homes(kept, home) && Payloads(says, home, payloads)
    ensures Consistent(says, kept, roots, home, level, payloads)
  {
    hide Tree, Homes, Payloads;
  }

  lemma SameClassKept(says: Says, kept: set<Edge>, roots: map<Key, Key>, home: map<Key, Key>,
                      level: map<Key, nat>, payloads: map<Key, Option<seq<Fact>>>, e: Edge)
    requires Consistent(says, kept, roots, home, level, payloads)
    requires e.0 in home && e.1 in home && home[e.0] == home[e.1]
    ensures Consistent(says, kept + {e}, roots, home, level, payloads) && Sound(says, kept + {e})
  {
    hide Consistent, Sound, Homes, Tree, Payloads;
    assert (e.0, e.1) == e;
    ConsistentParts(says, kept, roots, home, level, payloads);
    JoinedAlready(kept, home, e.0, e.1);
    StillConsistent(says, kept + {e}, roots, home, level, payloads);
    HomesSound(says, kept + {e}, home, payloads);
  }

  lemma Merged(says: Says, kept: set<Edge>, roots: map<Key, Key>, home: map<Key, Key>, level: map<Key, nat>,
               payloads: map<Key, Option<seq<Fact>>>, e: Edge, left: Key, right: Key)
    requires Consistent(says, kept, roots, home, level, payloads)
    requires e.0 in home && e.1 in home && left == home[e.0] && right == home[e.1] && left != right
    requires left in payloads && right in payloads && left in level && home.Keys == level.Keys
    requires payloads[left].None? || payloads[right].None? || payloads[left] == payloads[right]
    ensures Consistent(says, kept + {e}, roots[right := left], Rehomed(home, right, left),
                       Raised(home, level, right, level[left] + 1),
                       payloads[left := JoinedPayload(payloads[left], payloads[right])])
    ensures Sound(says, kept + {e})
  {
    hide Consistent, Sound, Homes, Tree, Payloads, Rehomed, Raised;
    assert (e.0, e.1) == e;
    ConsistentParts(says, kept, roots, home, level, payloads);
    var roots', home' := roots[right := left], Rehomed(home, right, left);
    var level' := Raised(home, level, right, level[left] + 1);
    var payloads' := payloads[left := JoinedPayload(payloads[left], payloads[right])];
    MergeTree(roots, home, level, left, right);
    MergeHomes(kept, home, e.0, e.1);
    MergePayloads(says, home, payloads, left, right);
    StillConsistent(says, kept + {e}, roots', home', level', payloads');
    ConsistentParts(says, kept + {e}, roots', home', level', payloads');
    HomesSound(says, kept + {e}, home', payloads');
  }

  lemma TreeHomes(roots: map<Key, Key>, home: map<Key, Key>, level: map<Key, nat>)
    requires Tree(roots, home, level)
    ensures roots.Keys == home.Keys == level.Keys
    ensures forall k | k in home :: home[k] in home && home[home[k]] == home[k]
  {
    forall k | k in home ensures home[k] in home && home[home[k]] == home[k] {
      assert TreeAt(roots, home, level, k);
    }
  }

  /** The alias edges kept, taken in their sorted order. */
  method EqualAliases(says: Says, aliases: set<Edge>) returns (kept: set<Edge>)
    ensures kept == Greedy(says, SortedPairs(aliases))
  {
    hide Sound, Consistent;
    kept := {};
    var edges := SortedPairs(aliases);
    var forest := new Forest();
    NothingConsistent(says);
    for i := 0 to |edges|
      invariant fresh(forest)
      invariant kept == Greedy(says, edges[..i]) && forest.Valid(says, kept)
    {
      assert edges[..i + 1][..i] == edges[..i];
      forest.Insert(edges[i].0, says, kept);
      forest.Insert(edges[i].1, says, kept);
      var keep := forest.Join(edges[i], says, kept);
      if keep {
        kept := kept + {edges[i]};
      }
    }
    TakeAll(edges);
  }

  lemma NothingConsistent(says: Says)
    ensures Consistent(says, {}, map[], map[], map[], map[])
  {
  }

  // ----------------------------------------------------------- in what order

  /** Ordered by the copy's session and uuid and then by the origin's. */
  ghost predicate Earlier(a: Edge, b: Edge) {
    || a.0.session < b.0.session
    || (a.0.session == b.0.session && a.0.uuid < b.0.uuid)
    || (a.0 == b.0 && a.1.session < b.1.session)
    || (a.0 == b.0 && a.1.session == b.1.session && a.1.uuid < b.1.uuid)
  }

  lemma {:induction false} SortedEarlier(edges: set<Edge>, i: nat, j: nat)
    requires i < j < |SortedPairs(edges)|
    ensures Earlier(SortedPairs(edges)[i], SortedPairs(edges)[j])
    decreases |SortedPairs(edges)|
  {
    var m := LeastPair(edges);
    var rest := SortedPairs(edges - {m});
    if i > 0 {
      SortedEarlier(edges - {m}, i - 1, j - 1);
    } else {
      assert rest[j - 1] in rest;
    }
  }

  /** What is kept of the first i edges is what is kept of all that is among them. */
  lemma {:induction false} KeptAmongFirst(says: Says, edges: seq<Edge>, i: nat)
    requires i <= |edges| && Distinct(edges)
    ensures Greedy(says, edges[..i]) == set e | e in Greedy(says, edges) && e in edges[..i]
    decreases |edges|
  {
    hide Sound;
    GreedyWithin(says, edges[..i]);
    if i == |edges| {
      assert edges[..i] == edges;
    } else {
      var n := |edges| - 1;
      KeptAmongFirst(says, edges[..n], i);
      assert edges[..n][..i] == edges[..i];
      assert edges[n] !in edges[..i];
    }
  }

  lemma GreedyWithin(says: Says, edges: seq<Edge>)
    ensures forall e | e in Greedy(says, edges) :: e in edges
  {
    GreedySound(says, edges);
  }

  /** An alias is kept exactly if, beside the earlier ones kept, it joins no two
      keys that say different things: earlier by the copy, then by the origin. */
  lemma KeptByOrder(says: Says, aliases: set<Edge>, e: Edge)
    requires e in aliases
    ensures var kept := Greedy(says, SortedPairs(aliases));
            e in kept <==> Sound(says, (set x | x in kept && Earlier(x, e)) + {e})
  {
    hide Sound, Earlier;
    var edges := SortedPairs(aliases);
    var kept := Greedy(says, edges);
    var i :| 0 <= i < |edges| && edges[i] == e;
    KeptAmongFirst(says, edges, i);
    KeptAmongFirst(says, edges, i + 1);
    assert edges[..i + 1][..i] == edges[..i];
    assert e !in edges[..i];
    forall x | x in kept ensures x in edges[..i] <==> Earlier(x, e) {
      GreedyWithin(says, edges);
      EarlierIffBefore(aliases, x, i);
    }
    assert Greedy(says, edges[..i]) == set x | x in kept && Earlier(x, e);
  }

  lemma EarlierIffBefore(aliases: set<Edge>, x: Edge, i: nat)
    requires i < |SortedPairs(aliases)| && x in SortedPairs(aliases)
    ensures x in SortedPairs(aliases)[..i] <==> Earlier(x, SortedPairs(aliases)[i])
  {
    var edges := SortedPairs(aliases);
    var j :| 0 <= j < |edges| && edges[j] == x;
    if j < i {
      SortedEarlier(aliases, j, i);
    } else if i < j {
      SortedEarlier(aliases, i, j);
      assert x !in edges[..i];
    }
  }

  /** So of two copies of one absent origin that say different things, the earlier
      copy is kept. */
  lemma EarlierCopyKept(says: Says, a: Key, b: Key, origin: Key)
    requires a in says && b in says && says[a] != says[b] && origin !in says && Earlier((a, origin), (b, origin))
    ensures Greedy(says, SortedPairs({(a, origin), (b, origin)})) == {(a, origin)}
  {
    hide Sound, Earlier;
    var aliases := {(a, origin), (b, origin)};
    var kept := Greedy(says, SortedPairs(aliases));
    GreedyWithin(says, SortedPairs(aliases));
    KeptByOrder(says, aliases, (a, origin));
    KeptByOrder(says, aliases, (b, origin));
    NotEarlier((a, origin), (b, origin));
    assert (set x | x in kept && Earlier(x, (a, origin))) == {};
    AloneSound(says, a, origin);
    assert {} + {(a, origin)} == {(a, origin)};
    assert (a, origin) in kept;
    forall x ensures x in kept && Earlier(x, (b, origin)) <==> x == (a, origin) {
      NotEarlier(x, x);
    }
    assert (set x | x in kept && Earlier(x, (b, origin))) == {(a, origin)};
    BothUnsound(says, a, b, origin);
  }

  lemma NotEarlier(x: Edge, y: Edge)
    ensures !Earlier(x, x) && (Earlier(x, y) ==> !Earlier(y, x))
  {
  }

  lemma AloneSound(says: Says, a: Key, origin: Key)
    requires a in says && origin !in says
    ensures Sound(says, {(a, origin)})
  {
    NothingKeptSound(says);
    if !Sound(says, {(a, origin)}) {
      assert {} + {(a, origin)} == {(a, origin)};
      UnsoundEdge(says, {}, (a, origin));
      var x, y :| x in says && y in says && Connected({}, a, x) && Connected({}, origin, y) && says[x] != says[y];
      NotConnected(origin, y);
    }
  }

  lemma BothUnsound(says: Says, a: Key, b: Key, origin: Key)
    requires a in says && b in says && says[a] != says[b]
    ensures !Sound(says, {(a, origin)} + {(b, origin)})
  {
    var both := {(a, origin)} + {(b, origin)};
    assert Walk(both, 0, a, a);
    assert Touching(both, a, origin) && Touching(both, origin, b);
    assert Walk(both, 1, a, origin);
    assert Walk(both, 2, a, b);
    assert Connected(both, a, b);
  }
}
