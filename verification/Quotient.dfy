/** The identity quotient: every key stands for the least key of its component. */
module Quotients {
  import opened Base
  import opened Connectivity
  import opened DisjointSets

  /** canonical maps every key to the least key it is connected to. */
  ghost predicate IsQuotient(keys: set<Key>, edges: set<(Key, Key)>, canonical: map<Key, Key>) {
    canonical.Keys == keys && forall k | k in keys :: IsLeastOf(keys, edges, k, canonical[k])
  }

  ghost predicate IsLeastOf(keys: set<Key>, edges: set<(Key, Key)>, k: Key, least: Key) {
    && least in keys && Connected(edges, k, least)
    && forall x | x in keys && Connected(edges, k, x) :: Le(least, x)
  }

  lemma SameLeast(keys: set<Key>, edges: set<(Key, Key)>, a: Key, b: Key, leastA: Key, leastB: Key)
    requires IsLeastOf(keys, edges, a, leastA) && IsLeastOf(keys, edges, b, leastB)
    ensures leastA == leastB <==> Connected(edges, a, b)
  {
    hide Connected;
    ConnectedSymmetric(edges, b, leastB);
    if leastA == leastB {
      ConnectedTransitive(edges, a, leastA, b);
    }
    if Connected(edges, a, b) {
      ConnectedSymmetric(edges, a, b);
      ConnectedTransitive(edges, a, b, leastB);
      ConnectedTransitive(edges, b, a, leastA);
    }
  }

  /** Two keys have one representative exactly when the edges connect them. */
  lemma SameClass(keys: set<Key>, edges: set<(Key, Key)>, canonical: map<Key, Key>, a: Key, b: Key)
    requires IsQuotient(keys, edges, canonical) && a in keys && b in keys
    ensures canonical[a] == canonical[b] <==> Connected(edges, a, b)
  {
    hide Connected, IsLeastOf;
    SameLeast(keys, edges, a, b, canonical[a], canonical[b]);
  }

  lemma LeastUnique(keys: set<Key>, edges: set<(Key, Key)>, k: Key, a: Key, b: Key)
    requires IsLeastOf(keys, edges, k, a) && IsLeastOf(keys, edges, k, b)
    ensures a == b
  {
    hide Connected;
  }

  /** There is only one such map. */
  lemma QuotientUnique(keys: set<Key>, edges: set<(Key, Key)>, c: map<Key, Key>, c': map<Key, Key>)
    requires IsQuotient(keys, edges, c) && IsQuotient(keys, edges, c')
    ensures c == c'
  {
    hide IsLeastOf;
    forall k | k in keys ensures c[k] == c'[k] {
      LeastUnique(keys, edges, k, c[k], c'[k]);
    }
  }

  // ------------------------------------------------------------- by index

  /** The edges between keys as edges between their positions. */
  ghost predicate Indexed(ordered: seq<Key>, edges: set<(Key, Key)>, joined: set<(nat, nat)>) {
    && (forall e | e in joined :: e.0 < |ordered| && e.1 < |ordered| && (ordered[e.0], ordered[e.1]) in edges)
    && (forall e | e in edges :: IndexedEdge(ordered, joined, e))
  }

  ghost predicate IndexedEdge(ordered: seq<Key>, joined: set<(nat, nat)>, e: (Key, Key)) {
    exists i: nat, j: nat | i < |ordered| && j < |ordered| :: (i, j) in joined && ordered[i] == e.0 && ordered[j] == e.1
  }

  lemma {:induction false} IndexWalk(ordered: seq<Key>, edges: set<(Key, Key)>, joined: set<(nat, nat)>, n: nat,
                                     i: nat, j: nat)
    requires Indexed(ordered, edges, joined) && i < |ordered| && j < |ordered| && Walk(joined, n, i, j)
    ensures Connected(edges, ordered[i], ordered[j])
  {
    if n == 0 {
      ConnectedSelf(edges, ordered[i]);
    } else {
      var m: nat :| Walk(joined, n - 1, i, m) && Touching(joined, m, j);
      IndexWalk(ordered, edges, joined, n - 1, i, m);
      ConnectedTouching(edges, ordered[m], ordered[j]);
      ConnectedTransitive(edges, ordered[i], ordered[m], ordered[j]);
    }
  }

  lemma {:induction false} KeyWalk(ordered: seq<Key>, edges: set<(Key, Key)>, joined: set<(nat, nat)>, n: nat,
                                   i: nat, y: Key)
      returns (j: nat)
    requires Indexed(ordered, edges, joined) && Distinct(ordered) && i < |ordered| && Walk(edges, n, ordered[i], y)
    ensures j < |ordered| && ordered[j] == y && Connected(joined, i, j)
  {
    if n == 0 {
      j := i;
      ConnectedSelf(joined, i);
    } else {
      var m :| Walk(edges, n - 1, ordered[i], m) && Touching(edges, m, y);
      var at := KeyWalk(ordered, edges, joined, n - 1, i, m);
      if (m, y) in edges {
        assert IndexedEdge(ordered, joined, (m, y));
        var a: nat, b: nat :| a < |ordered| && b < |ordered| && (a, b) in joined && ordered[a] == m && ordered[b] == y;
        j := b;
        assert a == at;
      } else {
        assert IndexedEdge(ordered, joined, (y, m));
        var a: nat, b: nat :| a < |ordered| && b < |ordered| && (a, b) in joined && ordered[a] == y && ordered[b] == m;
        j := a;
        assert b == at;
      }
      ConnectedTouching(joined, at, j);
      ConnectedTransitive(joined, i, at, j);
    }
  }

  lemma IndexedConnected(ordered: seq<Key>, edges: set<(Key, Key)>, joined: set<(nat, nat)>, i: nat, j: nat)
    requires Indexed(ordered, edges, joined) && Distinct(ordered) && i < |ordered| && j < |ordered|
    ensures Connected(joined, i, j) <==> Connected(edges, ordered[i], ordered[j])
  {
    if Connected(joined, i, j) {
      var n: nat :| Walk(joined, n, i, j);
      IndexWalk(ordered, edges, joined, n, i, j);
    }
    if Connected(edges, ordered[i], ordered[j]) {
      var n: nat :| Walk(edges, n, ordered[i], ordered[j]);
      var j' := KeyWalk(ordered, edges, joined, n, i, ordered[j]);
      assert j' == j;
    }
  }

  /** Roots are shared exactly by connected keys. */
  ghost predicate Groups(ordered: seq<Key>, edges: set<(Key, Key)>, rep: seq<nat>) {
    |rep| == |ordered| && forall i: nat, j: nat | i < |rep| && j < |rep| ::
      rep[i] == rep[j] <==> Connected(edges, ordered[i], ordered[j])
  }

  lemma MirrorsGroups(ordered: seq<Key>, edges: set<(Key, Key)>, joined: set<(nat, nat)>, rep: seq<nat>)
    requires Indexed(ordered, edges, joined) && Distinct(ordered) && |rep| == |ordered| && Mirrors(rep, joined)
    ensures Groups(ordered, edges, rep)
  {
    hide Connected, Indexed;
    forall i: nat, j: nat | i < |rep| && j < |rep|
      ensures rep[i] == rep[j] <==> Connected(edges, ordered[i], ordered[j])
    {
      IndexedConnected(ordered, edges, joined, i, j);
    }
  }

  // -------------------------------------------------------------- the code

  method IndexKeys(ordered: seq<Key>) returns (indices: map<Key, nat>)
    requires Distinct(ordered)
    ensures forall k :: k in indices <==> k in ordered
    ensures forall i | 0 <= i < |ordered| :: indices[ordered[i]] == i
  {
    indices := map[];
    for i := 0 to |ordered|
      invariant forall k :: k in indices <==> k in ordered[..i]
      invariant forall j | 0 <= j < i :: ordered[j] in indices && indices[ordered[j]] == j
    {
      TakeNext(ordered, i);
      indices := indices[ordered[i] := i];
    }
    TakeAll(ordered);
  }

  method JoinAll(ordered: seq<Key>, aliases: set<(Key, Key)>) returns (disjoint: DisjointSet)
    requires Distinct(ordered) && |ordered| <= USIZE_MAX
    requires forall e | e in aliases :: e.0 in ordered && e.1 in ordered
    ensures fresh(disjoint) && fresh(disjoint.parent) && fresh(disjoint.rank)
    ensures disjoint.Valid() && Groups(ordered, aliases, disjoint.rep)
  {
    var indices := IndexKeys(ordered);
    disjoint := new DisjointSet(|ordered|);
    var edges := SortedPairs(aliases);
    for i := 0 to |edges|
      invariant fresh(disjoint) && fresh(disjoint.parent) && fresh(disjoint.rank)
      invariant disjoint.Valid() && |disjoint.rep| == |ordered|
      invariant Indexed(ordered, Elements(edges[..i]), disjoint.joined)
    {
      var (destination, origin) := edges[i];
      assert edges[i] in edges;
      ghost var before := disjoint.joined;
      disjoint.Union(indices[destination], indices[origin]);
      TakeNext(edges, i);
      IndexedMore(ordered, edges[..i], edges[i], before, indices[destination], indices[origin]);
    }
    TakeAll(edges);
    assert Elements(edges) == aliases;
    MirrorsGroups(ordered, aliases, disjoint.joined, disjoint.rep);
  }

  lemma IndexedMore(ordered: seq<Key>, edges: seq<(Key, Key)>, e: (Key, Key), joined: set<(nat, nat)>, i: nat, j: nat)
    requires Indexed(ordered, Elements(edges), joined)
    requires i < |ordered| && j < |ordered| && ordered[i] == e.0 && ordered[j] == e.1
    ensures Indexed(ordered, Elements(edges + [e]), joined + {(i, j)})
  {
    var more := joined + {(i, j)};
    forall x | x in edges + [e] ensures IndexedEdge(ordered, more, x) {
      if x in edges {
        assert IndexedEdge(ordered, joined, x);
        var a: nat, b: nat :| a < |ordered| && b < |ordered| && (a, b) in joined && ordered[a] == x.0 &&
            ordered[b] == x.1;
        assert (a, b) in more;
      } else {
        assert (i, j) in more;
      }
    }
  }

  /** The least key met so far under every root met so far. */
  ghost predicate LeastSoFar(ordered: seq<Key>, rep: seq<nat>, n: nat, least: map<nat, Key>)
    requires |rep| == |ordered| && n <= |ordered|
  {
    && (forall i | 0 <= i < n :: rep[i] in least && Le(least[rep[i]], ordered[i]))
    && (forall r | r in least :: exists i | 0 <= i < n :: rep[i] == r && ordered[i] == least[r])
  }

  lemma LeastNext(ordered: seq<Key>, rep: seq<nat>, n: nat, least: map<nat, Key>)
    requires |rep| == |ordered| && n < |ordered| && LeastSoFar(ordered, rep, n, least)
    ensures var key := ordered[n];
            LeastSoFar(ordered, rep, n + 1,
                       if rep[n] in least && !Lt(key, least[rep[n]]) then least else least[rep[n] := key])
  {
    var key := ordered[n];
    var r := rep[n];
    var next := if r in least && !Lt(key, least[r]) then least else least[r := key];
    forall i | 0 <= i < n + 1 ensures rep[i] in next && Le(next[rep[i]], ordered[i]) {
    }
    forall x | x in next ensures exists i | 0 <= i < n + 1 :: rep[i] == x && ordered[i] == next[x] {
      if x == r && next != least {
        assert rep[n] == x && ordered[n] == next[x];
      } else {
        var i :| 0 <= i < n && rep[i] == x && ordered[i] == least[x];
      }
    }
  }

  lemma LeastIsCanonical(ordered: seq<Key>, edges: set<(Key, Key)>, rep: seq<nat>, least: map<nat, Key>, i: nat)
    requires Groups(ordered, edges, rep) && LeastSoFar(ordered, rep, |ordered|, least) && i < |ordered|
    ensures rep[i] in least && IsLeastOf(Elements(ordered), edges, ordered[i], least[rep[i]])
  {
    hide Connected;
    var r := rep[i];
    var j :| 0 <= j < |ordered| && rep[j] == r && ordered[j] == least[r];
    forall x | x in Elements(ordered) && Connected(edges, ordered[i], x) ensures Le(least[r], x) {
      var k :| 0 <= k < |ordered| && ordered[k] == x;
      assert rep[k] == rep[i];
    }
  }

  /** The least key under every root. */
  method LeastPerRoot(ordered: seq<Key>, disjoint: DisjointSet) returns (representatives: map<nat, Key>)
    requires disjoint.Valid() && |disjoint.rep| == |ordered|
    modifies disjoint.parent
    ensures disjoint.Valid() && LeastSoFar(ordered, disjoint.rep, |ordered|, representatives)
  {
    hide LeastSoFar, Forest, Mirrors;
    representatives := map[];
    NoLeast(ordered, disjoint.rep);
    for index := 0 to |ordered|
      invariant disjoint.Valid()
      invariant LeastSoFar(ordered, disjoint.rep, index, representatives)
    {
      var key := ordered[index];
      var root := disjoint.Find(index);
      LeastNext(ordered, disjoint.rep, index, representatives);
      if root in representatives {
        if Lt(key, representatives[root]) {
          representatives := representatives[root := key];
        }
      } else {
        representatives := representatives[root := key];
      }
    }
  }

  /** Every key under the least key of its component. */
  method AliasQuotient(keys: set<Key>, aliases: set<(Key, Key)>) returns (canonical: map<Key, Key>)
    requires |keys| <= USIZE_MAX
    requires forall e | e in aliases :: e.0 in keys && e.1 in keys
    ensures IsQuotient(keys, aliases, canonical)
  {
    hide Groups, IsLeastOf, LeastSoFar, Forest, Mirrors, Increasing, IsQuotient;
    var ordered := Sorted(keys);
    var disjoint := JoinAll(ordered, aliases);
    GroupsLength(ordered, aliases, disjoint.rep);
    var representatives := LeastPerRoot(ordered, disjoint);
    canonical := map[];
    SortedElements(keys);
    for index := 0 to |ordered|
      invariant disjoint.Valid() && Groups(ordered, aliases, disjoint.rep) && |disjoint.rep| == |ordered|
      invariant LeastSoFar(ordered, disjoint.rep, |ordered|, representatives)
      invariant forall k :: k in canonical <==> k in ordered[..index]
      invariant forall k | k in canonical :: IsLeastOf(keys, aliases, k, canonical[k])
    {
      LeastIsCanonical(ordered, aliases, disjoint.rep, representatives, index);
      var root := disjoint.Find(index);
      TakeNext(ordered, index);
      canonical := canonical[ordered[index] := representatives[root]];
    }
    TakeAll(ordered);
    QuotientOf(keys, aliases, ordered, canonical);
  }

  lemma QuotientOf(keys: set<Key>, edges: set<(Key, Key)>, ordered: seq<Key>, canonical: map<Key, Key>)
    requires forall k :: k in ordered <==> k in keys
    requires forall k :: k in canonical <==> k in ordered
    requires forall k | k in canonical :: IsLeastOf(keys, edges, k, canonical[k])
    ensures IsQuotient(keys, edges, canonical)
  {
    hide IsLeastOf;
  }

  lemma GroupsLength(ordered: seq<Key>, edges: set<(Key, Key)>, rep: seq<nat>)
    requires Groups(ordered, edges, rep)
    ensures |rep| == |ordered|
  {
  }

  lemma NoLeast(ordered: seq<Key>, rep: seq<nat>)
    requires |rep| == |ordered|
    ensures LeastSoFar(ordered, rep, 0, map[])
  {
  }
}
