/** The disjoint-set forest with path compression and union by rank. */
module DisjointSets {
  import opened Connectivity

  newtype u8 = x: int | 0 <= x < 0x100

  /** No vector is longer than the address space. */
  const USIZE_MAX: nat := 0xFFFF_FFFF_FFFF_FFFF

  ghost function Pow2(n: nat): (p: nat)
    ensures p > 0
  {
    if n == 0 then 1 else 2 * Pow2(n - 1)
  }

  lemma {:induction false} Pow2Grows(m: nat, n: nat)
    requires m <= n
    ensures Pow2(m) <= Pow2(n)
    decreases n
  {
    if m < n {
      Pow2Grows(m, n - 1);
    }
  }

  lemma Pow2OfWidth()
    ensures Pow2(64) == USIZE_MAX + 1
  {
    assert Pow2(8) == 0x100;
    assert Pow2(16) == 0x1_0000;
    assert Pow2(24) == 0x100_0000;
    assert Pow2(32) == 0x1_0000_0000;
    assert Pow2(40) == 0x100_0000_0000;
    assert Pow2(48) == 0x1_0000_0000_0000;
    assert Pow2(56) == 0x100_0000_0000_0000;
  }

  /** `rep` names the root of every index: a root is its own root. */
  ghost predicate Roots(rep: seq<nat>) {
    forall i | 0 <= i < |rep| :: rep[i] < |rep| && rep[rep[i]] == rep[i]
  }

  ghost function Members(rep: seq<nat>, r: nat): set<nat> {
    set i: nat | i < |rep| && rep[i] == r
  }

  /** The forest of parent links leads every index to its root, rank rising
      strictly along the way, and a root of rank r has at least 2^r members. */
  ghost predicate Forest(rep: seq<nat>, parent: seq<nat>, rank: seq<u8>) {
    Links(rep, parent, rank) && Weights(rep, rank)
  }

  /** Two indices share a root exactly when the edges connect them. */
  ghost predicate Mirrors(rep: seq<nat>, edges: set<(nat, nat)>) {
    forall i: nat, j: nat | i < |rep| && j < |rep| :: rep[i] == rep[j] <==> Connected(edges, i, j)
  }

  /** Everything under root `from` moves to root `to`. */
  ghost function Moved(rep: seq<nat>, from: nat, to: nat): seq<nat> {
    seq(|rep|, i requires 0 <= i < |rep| => if rep[i] == from then to else rep[i])
  }

  ghost function Range(n: nat): (r: set<nat>)
    ensures |r| == n && forall i: nat :: i in r <==> i < n
  {
    if n == 0 then {} else Range(n - 1) + {n - 1}
  }

  lemma MembersBounded(rep: seq<nat>, r: nat)
    ensures |Members(rep, r)| <= |rep|
  {
    SubsetBound(Members(rep, r), Range(|rep|));
  }

  lemma SubsetBound(a: set<nat>, b: set<nat>)
    requires a <= b
    ensures |a| <= |b|
  {
    assert b == a + (b - a);
  }

  /** Ranks stay far below what a byte holds: an n-element forest has ranks of
      at most log2 n. */
  lemma RankFits(rep: seq<nat>, r: nat, rank: nat)
    requires |rep| <= USIZE_MAX && |Members(rep, r)| >= Pow2(rank)
    ensures rank < 64
  {
    MembersBounded(rep, r);
    if rank >= 64 {
      Pow2Grows(64, rank);
      Pow2OfWidth();
    }
  }

  /** Joining the components of l and r is moving one root's members to the other. */
  lemma MovedMirrors(rep: seq<nat>, edges: set<(nat, nat)>, l: nat, r: nat, from: nat, to: nat)
    requires Roots(rep) && Mirrors(rep, edges) && l < |rep| && r < |rep|
    requires (from == rep[l] && to == rep[r]) || (from == rep[r] && to == rep[l])
    ensures Roots(Moved(rep, from, to)) && Mirrors(Moved(rep, from, to), edges + {(l, r)})
  {
    hide Connected;
    var rep' := Moved(rep, from, to);
    forall i: nat, j: nat | i < |rep| && j < |rep|
      ensures rep'[i] == rep'[j] <==> Connected(edges + {(l, r)}, i, j)
    {
      JoinedBy(edges, l, r, i, j);
    }
  }

  lemma MovedMembers(rep: seq<nat>, from: nat, to: nat, r: nat)
    requires from != to
    ensures var rep' := Moved(rep, from, to);
            |Members(rep', r)| == (if r == to then |Members(rep, to)| + |Members(rep, from)|
                                   else if r == from then 0 else |Members(rep, r)|)
  {
    var rep' := Moved(rep, from, to);
    if r == to {
      assert Members(rep', to) == Members(rep, to) + Members(rep, from);
      assert Members(rep, to) !! Members(rep, from);
    } else if r == from {
      assert Members(rep', from) == {};
    } else {
      assert Members(rep', r) == Members(rep, r);
    }
  }

  /** The links alone: every link leads up the ranks towards the root. */
  ghost predicate Links(rep: seq<nat>, parent: seq<nat>, rank: seq<u8>) {
    && |parent| == |rank| == |rep| && Roots(rep)
    && (forall i | 0 <= i < |rep| :: parent[i] < |rep| && rep[parent[i]] == rep[i])
    && (forall i | 0 <= i < |rep| :: parent[i] == i <==> rep[i] == i)
    && (forall i | 0 <= i < |rep| :: parent[i] != i ==> rank[i] < rank[parent[i]])
  }

  ghost predicate Weights(rep: seq<nat>, rank: seq<u8>) {
    |rank| == |rep| && forall r: nat | r < |rep| && rep[r] == r :: |Members(rep, r)| >= Pow2(rank[r] as nat)
  }

  /** Linking root `from` below root `to` keeps the links. */
  lemma LinkKeepsLinks(rep: seq<nat>, parent: seq<nat>, rank: seq<u8>, from: nat, to: nat, rankTo: u8)
    requires Links(rep, parent, rank) && from < |rep| && to < |rep| && from != to
    requires rep[from] == from && rep[to] == to
    requires rank[from] < rankTo && rank[to] <= rankTo
    ensures Links(Moved(rep, from, to), parent[from := to], rank[to := rankTo])
  {
  }

  lemma LinkKeepsWeights(rep: seq<nat>, rank: seq<u8>, from: nat, to: nat, rankTo: u8)
    requires Roots(rep) && Weights(rep, rank) && from < |rep| && to < |rep| && from != to
    requires rep[from] == from && rep[to] == to
    requires rankTo == rank[to] || (rank[from] == rank[to] && rankTo as int == rank[to] as int + 1)
    ensures Weights(Moved(rep, from, to), rank[to := rankTo])
  {
    hide Members;
    var rep', rank' := Moved(rep, from, to), rank[to := rankTo];
    forall r: nat | r < |rep'| && rep'[r] == r ensures |Members(rep', r)| >= Pow2(rank'[r] as nat) {
      MovedMembers(rep, from, to, r);
      if r == to {
        assert |Members(rep, from)| >= Pow2(rank[from] as nat);
      }
    }
  }

  lemma RootsKnown(rep: seq<nat>, parent: seq<nat>, rank: seq<u8>, left: nat, right: nat)
    requires Forest(rep, parent, rank) && left < |rep| && right < |rep|
    ensures |parent| == |rank| == |rep| && Roots(rep) && rep[left] < |rep| && rep[right] < |rep|
  {
  }

  lemma MovedLength(rep: seq<nat>, from: nat, to: nat)
    ensures |Moved(rep, from, to)| == |rep|
  {
  }

  /** Joining what is joined already changes nothing. */
  lemma JoinedAlready(rep: seq<nat>, parent: seq<nat>, rank: seq<u8>, joined: set<(nat, nat)>, left: nat, right: nat)
    requires Forest(rep, parent, rank) && Mirrors(rep, joined)
    requires left < |rep| && right < |rep| && rep[left] == rep[right]
    ensures Mirrors(rep, joined + {(left, right)})
  {
    hide Connected;
    MovedMirrors(rep, joined, left, right, rep[left], rep[left]);
    assert Moved(rep, rep[left], rep[left]) == rep;
  }

  /** What union does to the forest below its two roots. */
  lemma Linked(rep: seq<nat>, parent: seq<nat>, rank: seq<u8>, joined: set<(nat, nat)>,
               left: nat, right: nat, from: nat, to: nat, rankTo: u8)
    requires Forest(rep, parent, rank) && Mirrors(rep, joined)
    requires left < |rep| && right < |rep| && rep[left] != rep[right]
    requires (from == rep[left] && to == rep[right]) || (from == rep[right] && to == rep[left])
    requires rank[from] < rankTo
    requires rankTo == rank[to] || (rank[from] == rank[to] && rankTo as int == rank[to] as int + 1)
    ensures Forest(Moved(rep, from, to), parent[from := to], rank[to := rankTo])
    ensures Mirrors(Moved(rep, from, to), joined + {(left, right)})
    ensures |Moved(rep, from, to)| == |rep|
  {
    hide Links, Weights, Mirrors, Moved, Members;
    MovedLength(rep, from, to);
    RootsKnown(rep, parent, rank, left, right);
    LinkKeepsLinks(rep, parent, rank, from, to, rankTo);
    LinkKeepsWeights(rep, rank, from, to, rankTo);
    MovedMirrors(rep, joined, left, right, from, to);
  }

  /** In every forest built here a root of rank r has at least 2^r members, so no
      rank comes near what a byte holds. */
  lemma RankBounded(rep: seq<nat>, parent: seq<nat>, rank: seq<u8>, r: nat)
    requires Forest(rep, parent, rank) && |rep| <= USIZE_MAX && r < |rep| && rep[r] == r
    ensures |rank| == |rep| && |Members(rep, r)| >= Pow2(rank[r] as nat) && rank[r] < 64
  {
    RankFits(rep, r, rank[r] as nat);
  }

  lemma LinkRises(rep: seq<nat>, parent: seq<nat>, rank: seq<u8>, i: nat)
    requires Forest(rep, parent, rank) && i < |rep|
    ensures |parent| == |rank| == |rep| && parent[i] < |rep| && rep[parent[i]] == rep[i] < |rep|
    ensures if parent[i] == i then rep[i] == i else rank[i] < rank[parent[i]]
  {
  }

  /** Linking an index straight to its root keeps the forest. `next` is where it
      led before, already linked to the root. */
  lemma Compressed(rep: seq<nat>, parent: seq<nat>, rank: seq<u8>, i: nat, next: nat)
    requires Forest(rep, parent, rank) && i < |rep| && next < |rep| && i != next
    requires rep[next] == rep[i] && parent[next] == rep[i] && rank[i] < rank[next]
    ensures rep[i] < |rep| && Forest(rep, parent[i := rep[i]], rank)
  {
    hide Weights;
  }

  class DisjointSet {
    const parent: array<nat>
    const rank: array<u8>
    ghost var rep: seq<nat>
    ghost var joined: set<(nat, nat)>

    ghost predicate Valid()
      reads this, parent, rank
    {
      && Forest(rep, parent[..], rank[..])
      && |rep| <= USIZE_MAX
      && Mirrors(rep, joined)
    }

    constructor (len: nat)
      requires len <= USIZE_MAX
      ensures Valid() && |rep| == len && joined == {}
      ensures fresh(parent) && fresh(rank)
    {
      parent := new nat[len](i => i);
      rank := new u8[len](i => 0);
      rep := seq(len, i => i);
      joined := {};
      new;
      forall i: nat, j: nat | i < len && j < len ensures rep[i] == rep[j] <==> Connected({}, i, j) {
        NotConnected(i, j);
      }
      forall r: nat | r < len ensures |Members(rep, r)| >= Pow2(0) {
        assert Members(rep, r) == {r};
      }
    }

    /** The root of an index; every index passed is linked to it directly. */
    method Find(index: nat) returns (root: nat)
      requires Valid() && index < |rep|
      modifies parent
      ensures Valid() && root == rep[index] && parent.Length == |rep| && parent[index] == root
      decreases 0x100 - rank[index] as int
    {
      hide Forest, Mirrors;
      LinkRises(rep, parent[..], rank[..], index);
      if parent[index] != index {
        var next := parent[index];
        var found := Find(next);
        ghost var links := parent[..];
        Compressed(rep, links, rank[..], index, next);
        parent[index] := found;
        assert parent[..] == links[index := found];
      }
      root := parent[index];
    }

    /** Put root `from` below the root `to` of higher rank. */
    method Attach(ghost left: nat, ghost right: nat, from: nat, to: nat)
      requires Valid() && left < |rep| && right < |rep| && rep[left] != rep[right]
      requires (from == rep[left] && to == rep[right]) || (from == rep[right] && to == rep[left])
      requires rank[from] < rank[to]
      modifies this`rep, this`joined, parent
      ensures Valid() && |rep| == old(|rep|) && joined == old(joined) + {(left, right)}
    {
      hide Forest, Mirrors, Moved;
      RootsKnown(rep, parent[..], rank[..], left, right);
      Linked(rep, parent[..], rank[..], joined, left, right, from, to, rank[to]);
      ghost var links := parent[..];
      parent[from] := to;
      assert parent[..] == links[from := to] && rank[..] == rank[..][to := rank[to]];
      joined := joined + {(left, right)};
      rep := Moved(rep, from, to);
    }

    /** Put root `from` below the root `to` of the same rank, which rises by one. */
    method AttachEqual(ghost left: nat, ghost right: nat, from: nat, to: nat)
      requires Valid() && left < |rep| && right < |rep| && rep[left] != rep[right]
      requires (from == rep[left] && to == rep[right]) || (from == rep[right] && to == rep[left])
      requires rank[from] == rank[to]
      modifies this`rep, this`joined, parent, rank
      ensures Valid() && |rep| == old(|rep|) && joined == old(joined) + {(left, right)}
    {
      hide Forest, Mirrors, Moved;
      RootsKnown(rep, parent[..], rank[..], left, right);
      RankBounded(rep, parent[..], rank[..], to);
      Linked(rep, parent[..], rank[..], joined, left, right, from, to, rank[to] + 1);
      ghost var links, ranks := parent[..], rank[..];
      parent[from] := to;
      rank[to] := rank[to] + 1;
      assert parent[..] == links[from := to] && rank[..] == ranks[to := ranks[to] + 1];
      joined := joined + {(left, right)};
      rep := Moved(rep, from, to);
    }

    /** Join two components: the root of lower rank goes below the other. */
    method Union(left: nat, right: nat)
      requires Valid() && left < |rep| && right < |rep|
      modifies this`rep, this`joined, parent, rank
      ensures Valid() && |rep| == old(|rep|) && joined == old(joined) + {(left, right)}
    {
      hide Forest, Mirrors;
      var l := Find(left);
      var r := Find(right);
      RootsKnown(rep, parent[..], rank[..], left, right);
      if l == r {
        JoinedAlready(rep, parent[..], rank[..], joined, left, right);
        joined := joined + {(left, right)};
        return;
      }
      if rank[l] < rank[r] {
        Attach(left, right, l, r);
      } else if rank[l] > rank[r] {
        Attach(left, right, r, l);
      } else {
        AttachEqual(left, right, r, l);
      }
    }
  }
}
