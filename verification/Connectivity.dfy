/** Undirected connectivity by a set of edges, and what one more edge does to it. */
module Connectivity {

  ghost predicate Touching<T(!new)>(edges: set<(T, T)>, a: T, b: T) {
    (a, b) in edges || (b, a) in edges
  }

  /** b is n edges away from a. */
  ghost predicate Walk<T(!new)>(edges: set<(T, T)>, n: nat, a: T, b: T) {
    if n == 0 then a == b else exists m :: Walk(edges, n - 1, a, m) && Touching(edges, m, b)
  }

  ghost predicate Connected<T(!new)>(edges: set<(T, T)>, a: T, b: T) {
    exists n: nat :: Walk(edges, n, a, b)
  }

  lemma {:induction false} WalkTransitive<T(!new)>(edges: set<(T, T)>, m: nat, n: nat, a: T, b: T, c: T)
    requires Walk(edges, m, a, b) && Walk(edges, n, b, c)
    ensures Walk(edges, m + n, a, c)
    decreases n
  {
    if n > 0 {
      var d :| Walk(edges, n - 1, b, d) && Touching(edges, d, c);
      WalkTransitive(edges, m, n - 1, a, b, d);
    }
  }

  lemma ConnectedTransitive<T(!new)>(edges: set<(T, T)>, a: T, b: T, c: T)
    requires Connected(edges, a, b) && Connected(edges, b, c)
    ensures Connected(edges, a, c)
  {
    var m: nat :| Walk(edges, m, a, b);
    var n: nat :| Walk(edges, n, b, c);
    WalkTransitive(edges, m, n, a, b, c);
  }

  lemma ConnectedSelf<T(!new)>(edges: set<(T, T)>, a: T)
    ensures Connected(edges, a, a)
  {
    assert Walk(edges, 0, a, a);
  }

  lemma ConnectedTouching<T(!new)>(edges: set<(T, T)>, a: T, b: T)
    requires Touching(edges, a, b)
    ensures Connected(edges, a, b)
  {
    assert Walk(edges, 0, a, a);
    assert Walk(edges, 1, a, b);
  }

  lemma {:induction false} WalkBack<T(!new)>(edges: set<(T, T)>, n: nat, a: T, b: T)
    requires Walk(edges, n, a, b)
    ensures Connected(edges, b, a)
  {
    if n == 0 {
      ConnectedSelf(edges, a);
    } else {
      var m :| Walk(edges, n - 1, a, m) && Touching(edges, m, b);
      WalkBack(edges, n - 1, a, m);
      ConnectedTouching(edges, b, m);
      ConnectedTransitive(edges, b, m, a);
    }
  }

  lemma ConnectedSymmetric<T(!new)>(edges: set<(T, T)>, a: T, b: T)
    requires Connected(edges, a, b)
    ensures Connected(edges, b, a)
  {
    var n: nat :| Walk(edges, n, a, b);
    WalkBack(edges, n, a, b);
  }

  lemma {:induction false} WalkMore<T(!new)>(edges: set<(T, T)>, more: set<(T, T)>, n: nat, a: T, b: T)
    requires edges <= more && Walk(edges, n, a, b)
    ensures Connected(more, a, b)
  {
    if n == 0 {
      ConnectedSelf(more, a);
    } else {
      var m :| Walk(edges, n - 1, a, m) && Touching(edges, m, b);
      WalkMore(edges, more, n - 1, a, m);
      ConnectedTouching(more, m, b);
      ConnectedTransitive(more, a, m, b);
    }
  }

  lemma ConnectedMore<T(!new)>(edges: set<(T, T)>, more: set<(T, T)>, a: T, b: T)
    requires edges <= more && Connected(edges, a, b)
    ensures Connected(more, a, b)
  {
    var n: nat :| Walk(edges, n, a, b);
    WalkMore(edges, more, n, a, b);
  }

  /** a and b are connected once l and r are joined. */
  ghost predicate Bridged<T(!new)>(edges: set<(T, T)>, l: T, r: T, a: T, b: T) {
    || Connected(edges, a, b)
    || (Connected(edges, a, l) && Connected(edges, r, b))
    || (Connected(edges, a, r) && Connected(edges, l, b))
  }

  lemma {:induction false} WalkBridged<T(!new)>(edges: set<(T, T)>, l: T, r: T, n: nat, a: T, b: T)
    requires Walk(edges + {(l, r)}, n, a, b)
    ensures Bridged(edges, l, r, a, b)
  {
    if n == 0 {
      ConnectedSelf(edges, a);
    } else {
      var m :| Walk(edges + {(l, r)}, n - 1, a, m) && Touching(edges + {(l, r)}, m, b);
      WalkBridged(edges, l, r, n - 1, a, m);
      BridgedStep(edges, l, r, a, m, b);
    }
  }

  lemma BridgedStep<T(!new)>(edges: set<(T, T)>, l: T, r: T, a: T, m: T, b: T)
    requires Bridged(edges, l, r, a, m) && Touching(edges + {(l, r)}, m, b)
    ensures Bridged(edges, l, r, a, b)
  {
    hide Connected;
    if Touching(edges, m, b) {
      ConnectedTouching(edges, m, b);
      if Connected(edges, a, m) {
        ConnectedTransitive(edges, a, m, b);
      } else if Connected(edges, r, m) && Connected(edges, a, l) {
        ConnectedTransitive(edges, r, m, b);
      } else {
        ConnectedTransitive(edges, l, m, b);
      }
    } else {
      ConnectedSelf(edges, l);
      ConnectedSelf(edges, r);
    }
  }

  /** One more edge joins exactly the components of its ends. */
  lemma JoinedBy<T(!new)>(edges: set<(T, T)>, l: T, r: T, a: T, b: T)
    ensures Connected(edges + {(l, r)}, a, b) <==> Bridged(edges, l, r, a, b)
  {
    var more := edges + {(l, r)};
    if Connected(more, a, b) {
      var n: nat :| Walk(more, n, a, b);
      WalkBridged(edges, l, r, n, a, b);
    }
    if Bridged(edges, l, r, a, b) {
      BridgedConnects(edges, l, r, a, b);
    }
  }

  lemma BridgedConnects<T(!new)>(edges: set<(T, T)>, l: T, r: T, a: T, b: T)
    requires Bridged(edges, l, r, a, b)
    ensures Connected(edges + {(l, r)}, a, b)
  {
    hide Connected;
    var more := edges + {(l, r)};
    ConnectedTouching(more, l, r);
    ConnectedTouching(more, r, l);
    if Connected(edges, a, b) {
      ConnectedMore(edges, more, a, b);
    } else if Connected(edges, a, l) && Connected(edges, r, b) {
      ConnectedMore(edges, more, a, l);
      ConnectedMore(edges, more, r, b);
      ConnectedTransitive(more, a, l, r);
      ConnectedTransitive(more, a, r, b);
    } else {
      ConnectedMore(edges, more, a, r);
      ConnectedMore(edges, more, l, b);
      ConnectedTransitive(more, a, r, l);
      ConnectedTransitive(more, a, l, b);
    }
  }

  /** With no edges everything stands alone. */
  lemma NotConnected<T(!new)>(a: T, b: T)
    ensures Connected({}, a, b) <==> a == b
  {
    if Connected({}, a, b) {
      var n: nat :| Walk({}, n, a, b);
      assert n == 0;
    }
    if a == b {
      ConnectedSelf({}, a);
    }
  }
}
