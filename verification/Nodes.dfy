/** Content-identified nodes: a node is its predecessors and the fact it holds.
    The hash of the source becomes a structural constructor. */
module Nodes {
  type Fact = nat

  datatype Node = Node(previous: set<Node>, fact: Fact)

  /** a is a strict node-ancestor of b. */
  ghost predicate Before(a: Node, b: Node)
    decreases b
  {
    exists p | p in b.previous :: a == p || Before(a, p)
  }

  lemma {:induction false} BeforeTransitive(a: Node, b: Node, c: Node)
    requires Before(a, b) && Before(b, c)
    ensures Before(a, c)
    decreases c
  {
    var p :| p in c.previous && (b == p || Before(b, p));
    if b != p {
      BeforeTransitive(a, b, p);
    }
  }

  lemma {:induction false} BeforeAsymmetric(a: Node, b: Node)
    requires Before(a, b)
    ensures !Before(b, a)
    decreases b
  {
    if Before(b, a) {
      var p :| p in b.previous && (a == p || Before(a, p));
      if a != p {
        BeforeTransitive(b, a, p);
      }
      BeforeAsymmetric(b, p);
      assert Before(p, b);
    }
  }

  /** One node per fact, each after the one before it, the first after `previous`. */
  function Chain(previous: set<Node>, facts: seq<Fact>): (chain: seq<Node>)
    ensures |chain| == |facts|
    ensures forall i | 0 <= i < |facts| ::
              chain[i] == Node(if i == 0 then previous else {chain[i - 1]}, facts[i])
    decreases |facts|
  {
    if facts == [] then []
    else
      var n := Node(previous, facts[0]);
      [n] + Chain({n}, facts[1..])
  }

  function Last(chain: seq<Node>): Node
    requires |chain| > 0
  {
    chain[|chain| - 1]
  }

  /** n is one of the nodes of t or lies below one of them. */
  ghost predicate Covered(n: Node, t: set<Node>) {
    exists p | p in t :: n == p || Before(n, p)
  }

  lemma {:induction false} ChainAscends(previous: set<Node>, facts: seq<Fact>, i: nat)
    requires i < |facts|
    ensures var chain := Chain(previous, facts); chain[0] == chain[i] || Before(chain[0], chain[i])
  {
    var chain := Chain(previous, facts);
    if i > 0 {
      ChainAscends(previous, facts, i - 1);
      assert chain[i - 1] in chain[i].previous;
      assert Before(chain[i - 1], chain[i]);
      if chain[0] != chain[i - 1] {
        BeforeTransitive(chain[0], chain[i - 1], chain[i]);
      }
    }
  }

  /** Whatever a chain is put after lies below its first and its last node. */
  lemma CoveredBelowChain(n: Node, previous: set<Node>, facts: seq<Fact>)
    requires |facts| > 0 && Covered(n, previous)
    ensures var chain := Chain(previous, facts); Before(n, chain[0]) && Before(n, Last(chain))
  {
    var chain := Chain(previous, facts);
    assert chain[0].previous == previous;
    var p :| p in previous && (n == p || Before(n, p));
    assert p in chain[0].previous;
    assert Before(n, chain[0]);
    ChainAscends(previous, facts, |facts| - 1);
    if chain[0] != Last(chain) {
      BeforeTransitive(n, chain[0], Last(chain));
    }
  }

  /** Two chains joined end to end are one chain. */
  lemma {:induction false} ChainAppend(previous: set<Node>, a: seq<Fact>, b: seq<Fact>)
    ensures Chain(previous, a + b) ==
            Chain(previous, a) + Chain(if a == [] then previous else {Last(Chain(previous, a))}, b)
    decreases |a|
  {
    if a == [] {
      assert a + b == b;
    } else {
      var n := Node(previous, a[0]);
      assert (a + b)[1..] == a[1..] + b;
      ChainAppend({n}, a[1..], b);
      if a[1..] != [] {
        assert Last(Chain(previous, a)) == Last(Chain({n}, a[1..]));
      } else {
        assert Last(Chain(previous, a)) == n;
      }
    }
  }
}
