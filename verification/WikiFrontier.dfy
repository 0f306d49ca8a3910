/** Which revisions of a wiki are current: scanning every component of the
    supersedes relation by hand finds what one subtraction over all finds. */
module WikiFrontiers {
  import opened Base
  import opened Sorting
  import opened Connectivity
  import opened Graphs

  datatype Revision = Revision(id: Key, supersedes: set<Key>)

  type Edges = set<(Key, Key)>

  // --------------------------------------------------------------- the forest

  /** Every key's parent is known and no greater: following parents ends. */
  ghost predicate Descends(parent: map<Key, Key>) {
    forall k {:trigger DescendsAt(parent, k)} | k in parent :: DescendsAt(parent, k)
  }

  ghost predicate DescendsAt(parent: map<Key, Key>, k: Key) {
    k in parent && parent[k] in parent && Le(parent[k], k)
  }

  /** How many keys of the map are smaller: falls on the way to the root. */
  ghost function Below(parent: map<Key, Key>, k: Key): set<Key> {
    set x | x in parent && Lt(x, k)
  }

  lemma BelowFalls(parent: map<Key, Key>, k: Key)
    requires k in parent && parent[k] in parent && Le(parent[k], k) && parent[k] != k
    ensures |Below(parent, parent[k])| < |Below(parent, k)|
  {
    var less, more := Below(parent, parent[k]), Below(parent, k);
    assert parent[k] in more && parent[k] !in less;
    SubsetSize(less + {parent[k]}, more);
  }

  ghost function RootOf(parent: map<Key, Key>, k: Key): (r: Key)
    requires Descends(parent) && k in parent
    ensures r in parent && Le(r, k) && parent[r] == r
    decreases |Below(parent, k)|
  {
    assert DescendsAt(parent, k);
    if parent[k] == k then k
    else
      BelowFalls(parent, k);
      RootOf(parent, parent[k])
  }

  lemma RootStep(parent: map<Key, Key>, k: Key)
    requires Descends(parent) && k in parent
    ensures DescendsAt(parent, k) && RootOf(parent, k) == RootOf(parent, parent[k])
    ensures parent[k] == k <==> RootOf(parent, k) == k
    ensures parent[k] != k ==> |Below(parent, parent[k])| < |Below(parent, k)|
  {
    assert DescendsAt(parent, k);
    if parent[k] != k {
      BelowFalls(parent, k);
    }
  }

  lemma PointsDown(parent: map<Key, Key>, cursor: Key, to: Key)
    requires Descends(parent) && cursor in parent && to in parent && Le(to, cursor)
    ensures Descends(parent[cursor := to])
  {
    var next := parent[cursor := to];
    forall k | k in next ensures DescendsAt(next, k) {
      assert DescendsAt(parent, k);
    }
  }

  /** Linking a key directly to its root moves no key to another root. */
  lemma {:induction false} CompressKeepsRoots(parent: map<Key, Key>, cursor: Key, k: Key)
    requires Descends(parent) && cursor in parent && k in parent
    ensures var next := parent[cursor := RootOf(parent, cursor)];
            Descends(next) && RootOf(next, k) == RootOf(parent, k)
    decreases |Below(parent, k)|
  {
    var r := RootOf(parent, cursor);
    var next := parent[cursor := r];
    PointsDown(parent, cursor, r);
    RootStep(parent, k);
    RootStep(next, k);
    RootStep(next, r);
    if k != cursor && parent[k] != k {
      CompressKeepsRoots(parent, cursor, parent[k]);
    }
  }

  /** Linking one root below another joins exactly their two classes. */
  lemma {:induction false} LinkJoinsRoots(parent: map<Key, Key>, larger: Key, smaller: Key, k: Key)
    requires Descends(parent) && larger in parent && smaller in parent && k in parent
    requires parent[larger] == larger && parent[smaller] == smaller && Lt(smaller, larger)
    ensures var next := parent[larger := smaller];
            && Descends(next)
            && RootOf(next, k) == if RootOf(parent, k) == larger then smaller else RootOf(parent, k)
    decreases |Below(parent, k)|
  {
    var next := parent[larger := smaller];
    PointsDown(parent, larger, smaller);
    RootStep(parent, k);
    RootStep(next, k);
    RootStep(next, smaller);
    if parent[k] != k {
      LinkJoinsRoots(parent, larger, smaller, parent[k]);
    }
  }

  ghost predicate SameRoots(parent: map<Key, Key>, next: map<Key, Key>) {
    && Descends(parent) && Descends(next) && parent.Keys == next.Keys
    && forall k {:trigger SameRootAt(parent, next, k)} | k in parent :: SameRootAt(parent, next, k)
  }

  ghost predicate SameRootAt(parent: map<Key, Key>, next: map<Key, Key>, k: Key)
    requires Descends(parent) && Descends(next)
  {
    k in parent && k in next && RootOf(parent, k) == RootOf(next, k)
  }

  lemma CompressSameRoots(first: map<Key, Key>, parent: map<Key, Key>, cursor: Key)
    requires SameRoots(first, parent) && cursor in parent
    ensures SameRoots(first, parent[cursor := RootOf(parent, cursor)])
  {
    var next := parent[cursor := RootOf(parent, cursor)];
    CompressKeepsRoots(parent, cursor, cursor);
    forall k | k in first ensures SameRootAt(first, next, k) {
      assert SameRootAt(first, parent, k);
      CompressKeepsRoots(parent, cursor, k);
    }
  }

  /** What is passed on the way from k to its root. */
  ghost function Passed(parent: map<Key, Key>, k: Key): (passed: set<Key>)
    requires Descends(parent) && k in parent
    ensures k in passed && forall x | x in passed :: Le(x, k)
    decreases |Below(parent, k)|
  {
    RootStep(parent, k);
    if parent[k] == k then {k} else {k} + Passed(parent, parent[k])
  }

  /** The keys of `done` linked directly to root, and no other link changed. */
  ghost predicate Relinked(parent: map<Key, Key>, next: map<Key, Key>, done: set<Key>, root: Key) {
    next.Keys == parent.Keys && forall k | k in parent :: next[k] == if k in done then root else parent[k]
  }

  lemma PassedStep(parent: map<Key, Key>, k: Key)
    requires Descends(parent) && k in parent && parent[k] != k
    ensures parent[k] in parent && Passed(parent, k) == {k} + Passed(parent, parent[k])
    ensures k !in Passed(parent, parent[k])
  {
    assert DescendsAt(parent, k);
  }

  lemma PassedLast(parent: map<Key, Key>, k: Key, root: Key)
    requires Descends(parent) && k in parent && root == RootOf(parent, k) && parent[k] == root
    ensures forall x | x in Passed(parent, k) :: x in parent && parent[x] == root
  {
    RootStep(parent, k);
    RootStep(parent, root);
  }

  /** The least key of id's class; everything passed is linked to it, and nothing else. */
  method Root(parent: map<Key, Key>, id: Key) returns (next: map<Key, Key>, result: Key)
    requires Descends(parent) && id in parent
    ensures SameRoots(parent, next) && result == RootOf(parent, id)
    ensures Relinked(parent, next, Passed(parent, id), result)
  {
    hide Descends, RootOf, Below, Passed;
    var cursor := id;
    RootStep(parent, cursor);
    while parent[cursor] != cursor
      invariant cursor in parent && RootOf(parent, cursor) == RootOf(parent, id)
      decreases |Below(parent, cursor)|
    {
      RootStep(parent, cursor);
      cursor := parent[cursor];
    }
    RootStep(parent, cursor);
    result := cursor;
    next := parent;
    SameRootsSelf(parent);
    cursor := id;
    RootStep(next, cursor);
    while next[cursor] != result
      invariant SameRoots(parent, next) && cursor in next && RootOf(next, cursor) == result
      invariant RootOf(parent, cursor) == result && Passed(parent, cursor) <= Passed(parent, id)
      invariant Relinked(parent, next, Passed(parent, id) - Passed(parent, cursor), result)
      decreases |Below(parent, cursor)|
    {
      RootStep(next, cursor);
      PassedStep(parent, cursor);
      RootStep(parent, cursor);
      RootBelow(parent, next, cursor);
      var up := next[cursor];
      CompressSameRoots(parent, next, cursor);
      CompressKeepsRoots(next, cursor, up);
      next := next[cursor := result];
      cursor := up;
    }
    PassedLast(parent, cursor, result);
  }

  lemma SameRootsSelf(parent: map<Key, Key>)
    requires Descends(parent)
    ensures SameRoots(parent, parent)
  {
    forall k | k in parent ensures SameRootAt(parent, parent, k) {
    }
  }

  lemma RootBelow(parent: map<Key, Key>, next: map<Key, Key>, cursor: Key)
    requires SameRoots(parent, next) && cursor in next && next[cursor] != RootOf(next, cursor)
    ensures next[cursor] in parent && |Below(parent, next[cursor])| < |Below(parent, cursor)|
  {
    assert DescendsAt(next, cursor);
    RootStep(next, cursor);
    assert Below(parent, cursor) == Below(next, cursor) && Below(parent, next[cursor]) == Below(next, next[cursor]);
  }

  // ------------------------------------------------------------ components

  function Ids(records: seq<Revision>): set<Key> {
    set r | r in records :: r.id
  }

  /** The supersedes edges among known revisions. */
  function Supersessions(records: seq<Revision>, ids: set<Key>): Edges {
    set r, p | r in records && p in r.supersedes && p in ids :: (r.id, p)
  }

  /** Two keys have one root exactly when the edges connect them. */
  ghost predicate Groups(parent: map<Key, Key>, edges: Edges) {
    && Descends(parent)
    && forall a, b {:trigger GroupsAt(parent, edges, a, b)} | a in parent && b in parent ::
        GroupsAt(parent, edges, a, b)
  }

  ghost predicate GroupsAt(parent: map<Key, Key>, edges: Edges, a: Key, b: Key)
    requires Descends(parent)
  {
    a in parent && b in parent && (RootOf(parent, a) == RootOf(parent, b) <==> Connected(edges, a, b))
  }

  lemma GroupsSame(parent: map<Key, Key>, next: map<Key, Key>, edges: Edges)
    requires Groups(parent, edges) && SameRoots(parent, next)
    ensures Groups(next, edges)
  {
    hide Connected, RootOf;
    forall a, b | a in next && b in next ensures GroupsAt(next, edges, a, b) {
      assert GroupsAt(parent, edges, a, b);
      assert SameRootAt(parent, next, a) && SameRootAt(parent, next, b);
    }
  }

  lemma GroupsStart(parent: map<Key, Key>)
    requires forall k | k in parent :: parent[k] == k
    ensures Groups(parent, {})
  {
    forall k | k in parent ensures DescendsAt(parent, k) {
    }
    forall a, b | a in parent && b in parent ensures GroupsAt(parent, {}, a, b) {
      NotConnected(a, b);
      RootStep(parent, a);
      RootStep(parent, b);
    }
  }

  /** The forest after joining l and r. */
  function JoinedUp(parent: map<Key, Key>, left: Key, right: Key): map<Key, Key> {
    if left == right then parent else if Lt(left, right) then parent[right := left] else parent[left := right]
  }

  lemma JoinedRoots(parent: map<Key, Key>, left: Key, right: Key, k: Key)
    requires Descends(parent) && left in parent && right in parent && parent[left] == left && parent[right] == right
    requires k in parent
    ensures var next := JoinedUp(parent, left, right);
            && Descends(next) && next.Keys == parent.Keys
            && RootOf(next, k) == if RootOf(parent, k) in {left, right} then (if Lt(left, right) then left else right)
                                  else RootOf(parent, k)
  {
    if left != right {
      if Lt(left, right) {
        LinkJoinsRoots(parent, right, left, k);
      } else {
        LinkJoinsRoots(parent, left, right, k);
      }
    }
  }

  lemma GroupsJoin(parent: map<Key, Key>, edges: Edges, l: Key, r: Key)
    requires Groups(parent, edges) && l in parent && r in parent
    ensures Groups(JoinedUp(parent, RootOf(parent, l), RootOf(parent, r)), edges + {(l, r)})
  {
    hide Connected, RootOf, Below;
    var left, right := RootOf(parent, l), RootOf(parent, r);
    var next := JoinedUp(parent, left, right);
    JoinedRoots(parent, left, right, l);
    forall a, b | a in next && b in next ensures GroupsAt(next, edges + {(l, r)}, a, b) {
      JoinedRoots(parent, left, right, a);
      JoinedRoots(parent, left, right, b);
      JoinedBy(edges, l, r, a, b);
      assert GroupsAt(parent, edges, a, b) && GroupsAt(parent, edges, a, l) && GroupsAt(parent, edges, a, r);
      assert GroupsAt(parent, edges, l, b) && GroupsAt(parent, edges, r, b);
    }
  }

  /** Join a revision with every known one it supersedes. */
  method JoinPredecessors(before: map<Key, Key>, record: Revision, ghost edges: Edges) returns (parent: map<Key, Key>)
    requires Groups(before, edges) && record.id in before
    ensures parent.Keys == before.Keys
    ensures Groups(parent, edges + (set p | p in record.supersedes && p in before :: (record.id, p)))
  {
    hide Groups, RootOf, SameRoots;
    parent := before;
    var predecessors := Sorted(record.supersedes);
    ghost var joined: Edges := {};
    assert edges + {} == edges;
    for i := 0 to |predecessors|
      invariant parent.Keys == before.Keys && Groups(parent, edges + joined)
      invariant forall e :: e in joined <==> e.0 == record.id && e.1 in predecessors[..i] && e.1 in before
    {
      var p := predecessors[i];
      TakeNext(predecessors, i);
      if p in parent {
        parent := JoinOne(parent, record.id, p, edges + joined);
        assert edges + joined + {(record.id, p)} == edges + (joined + {(record.id, p)});
        joined := joined + {(record.id, p)};
      }
    }
    TakeAll(predecessors);
    assert joined == set p | p in record.supersedes && p in before :: (record.id, p);
  }

  method JoinOne(before: map<Key, Key>, id: Key, predecessor: Key, ghost edges: Edges) returns (parent: map<Key, Key>)
    requires Groups(before, edges) && id in before && predecessor in before
    ensures parent.Keys == before.Keys && Groups(parent, edges + {(id, predecessor)})
  {
    hide RootOf, GroupsAt;
    var left, right;
    parent, left := Root(before, id);
    GroupsSame(before, parent, edges);
    ghost var middle := parent;
    parent, right := Root(parent, predecessor);
    GroupsSame(middle, parent, edges);
    assert SameRootAt(before, middle, id) && SameRootAt(middle, parent, id) && SameRootAt(middle, parent, predecessor);
    GroupsJoin(parent, edges, id, predecessor);
    if left != right {
      var smaller, larger := if Lt(left, right) then left else right, if Lt(left, right) then right else left;
      parent := parent[larger := smaller];
    }
  }

  /** Every revision starts on its own; then all supersedes edges join. */
  method JoinAll(records: seq<Revision>) returns (parent: map<Key, Key>)
    ensures parent.Keys == Ids(records) && Groups(parent, Supersessions(records, Ids(records)))
  {
    hide Groups;
    parent := map k | k in Ids(records) :: k;
    GroupsStart(parent);
    ghost var edges: Edges := {};
    for i := 0 to |records|
      invariant parent.Keys == Ids(records) && Groups(parent, edges)
      invariant edges == Supersessions(records[..i], Ids(records))
    {
      assert records[i] in records;
      var next := JoinPredecessors(parent, records[i], edges);
      SupersessionsNext(records, i, Ids(records));
      edges := edges + (set p | p in records[i].supersedes && p in parent :: (records[i].id, p));
      parent := next;
    }
    TakeAll(records);
  }

  lemma SupersessionsNext(records: seq<Revision>, i: nat, ids: set<Key>)
    requires i < |records|
    ensures Supersessions(records[..i + 1], ids) ==
            Supersessions(records[..i], ids) + (set p | p in records[i].supersedes && p in ids :: (records[i].id, p))
  {
    TakeNext(records, i);
    var more := set p | p in records[i].supersedes && p in ids :: (records[i].id, p);
    forall e ensures e in Supersessions(records[..i + 1], ids) <==> e in Supersessions(records[..i], ids) || e in more {
    }
  }

  /** How many of the first n records have this id. */
  ghost function Copies(records: seq<Revision>, n: nat, x: Key): nat
    requires n <= |records|
  {
    if n == 0 then 0 else Copies(records, n - 1, x) + (if records[n - 1].id == x then 1 else 0)
  }

  /** The members of every component, under its root, each as often as there are records of it. */
  ghost predicate Components(records: seq<Revision>, parent: map<Key, Key>, n: nat, components: map<Key, seq<Key>>)
    requires Descends(parent) && Ids(records) <= parent.Keys && n <= |records|
  {
    && (forall r :: r in components <==> exists i | 0 <= i < n :: RootAt(records, parent, i, r))
    && (forall r, x | r in components :: x in components[r] <==>
          exists i | 0 <= i < n :: RootAt(records, parent, i, r) && records[i].id == x)
    && (forall r, x | r in components && x in components[r] :: multiset(components[r])[x] == Copies(records, n, x))
  }

  ghost predicate RootAt(records: seq<Revision>, parent: map<Key, Key>, i: int, r: Key)
    requires Descends(parent)
  {
    0 <= i < |records| && records[i].id in parent && RootOf(parent, records[i].id) == r
  }

  lemma ComponentsNext(records: seq<Revision>, parent: map<Key, Key>, n: nat, components: map<Key, seq<Key>>)
    requires Descends(parent) && Ids(records) <= parent.Keys && n < |records|
    requires Components(records, parent, n, components) && records[n].id in parent
    ensures var r := RootOf(parent, records[n].id);
            Components(records, parent, n + 1,
                       components[r := (if r in components then components[r] else []) + [records[n].id]])
  {
    hide RootOf, Descends;
    var root := RootOf(parent, records[n].id);
    var next := components[root := (if root in components then components[root] else []) + [records[n].id]];
    assert RootAt(records, parent, n, root);
    forall r ensures r in next <==> exists i | 0 <= i < n + 1 :: RootAt(records, parent, i, r) {
      if i :| 0 <= i < n + 1 && RootAt(records, parent, i, r) {
        assert i < n || r == root;
      }
    }
    forall r, x | r in next
      ensures x in next[r] <==> exists i | 0 <= i < n + 1 :: RootAt(records, parent, i, r) && records[i].id == x
    {
      MemberNext(records, parent, n, components, r, x);
    }
    forall r, x | r in next && x in next[r] ensures multiset(next[r])[x] == Copies(records, n + 1, x) {
      OccursNext(records, parent, n, components, r, x);
    }
  }

  lemma {:induction false} CopiesCounted(records: seq<Revision>, n: nat, x: Key)
    requires n <= |records|
    ensures Copies(records, n, x) > 0 <==> exists i | 0 <= i < n :: records[i].id == x
  {
    if n > 0 {
      CopiesCounted(records, n - 1, x);
    }
  }

  lemma OccursNext(records: seq<Revision>, parent: map<Key, Key>, n: nat, components: map<Key, seq<Key>>, r: Key,
                   x: Key)
    requires Descends(parent) && Ids(records) <= parent.Keys && n < |records|
    requires Components(records, parent, n, components) && records[n].id in parent
    requires r in components || r == RootOf(parent, records[n].id)
    ensures var before := if r in components then components[r] else [];
            var now := if r == RootOf(parent, records[n].id) then before + [records[n].id] else before;
            x in now ==> multiset(now)[x] == Copies(records, n + 1, x)
  {
    hide RootOf, Descends, Ids;
    var before := if r in components then components[r] else [];
    var id := records[n].id;
    if x !in before {
      CopiesCounted(records, n, x);
      if i :| 0 <= i < n && records[i].id == x && x == id {
        assert RootAt(records, parent, i, RootOf(parent, id));
      }
    }
  }

  lemma MemberNext(records: seq<Revision>, parent: map<Key, Key>, n: nat, components: map<Key, seq<Key>>, r: Key,
                   x: Key)
    requires Descends(parent) && Ids(records) <= parent.Keys && n < |records|
    requires Components(records, parent, n, components) && records[n].id in parent
    ensures (r in components && x in components[r]) || (r == RootOf(parent, records[n].id) && x == records[n].id) <==>
            exists i | 0 <= i < n + 1 :: RootAt(records, parent, i, r) && records[i].id == x
  {
    hide RootOf, Descends;
    assert RootAt(records, parent, n, RootOf(parent, records[n].id));
    if i :| 0 <= i < n && RootAt(records, parent, i, r) && records[i].id == x {
      assert r in components;
    }
  }

  /** Put every revision under its root. */
  method GroupByRoot(records: seq<Revision>, parent: map<Key, Key>) returns (components: map<Key, seq<Key>>)
    requires Descends(parent) && parent.Keys == Ids(records)
    ensures Components(records, parent, |records|, components)
  {
    hide RootOf, Components, SameRoots;
    components := map[];
    var forest := parent;
    SameRootsSelf(parent);
    NoComponents(records, parent);
    for i := 0 to |records|
      invariant SameRoots(parent, forest) && Components(records, parent, i, components)
    {
      var id := records[i].id;
      assert records[i] in records;
      SameRootsAt(parent, forest, id);
      var next, root := Root(forest, id);
      SameRootsTwice(parent, forest, next);
      forest := next;
      ComponentsNext(records, parent, i, components);
      components := components[root := (if root in components then components[root] else []) + [id]];
    }
  }

  lemma NoComponents(records: seq<Revision>, parent: map<Key, Key>)
    requires Descends(parent) && Ids(records) <= parent.Keys
    ensures Components(records, parent, 0, map[])
  {
  }

  lemma SameRootsAt(parent: map<Key, Key>, next: map<Key, Key>, k: Key)
    requires SameRoots(parent, next) && k in parent
    ensures Descends(next) && k in next && RootOf(next, k) == RootOf(parent, k)
  {
    assert SameRootAt(parent, next, k);
  }

  lemma SameRootsTwice(a: map<Key, Key>, b: map<Key, Key>, c: map<Key, Key>)
    requires SameRoots(a, b) && SameRoots(b, c)
    ensures SameRoots(a, c)
  {
    hide RootOf;
    forall k | k in a ensures SameRootAt(a, c, k) {
      assert SameRootAt(a, b, k) && SameRootAt(b, c, k);
    }
  }

  // ------------------------------------------------------------- frontiers

  /** The record an id stands for; the last one, should several carry it. */
  function ById(records: seq<Revision>): map<Key, Revision> {
    if records == [] then map[]
    else ById(records[..|records| - 1])[records[|records| - 1].id := records[|records| - 1]]
  }

  lemma {:induction false} ByIdHolds(records: seq<Revision>)
    ensures ById(records).Keys == Ids(records)
    ensures forall k | k in ById(records) :: ById(records)[k] in records && ById(records)[k].id == k
    decreases |records|
  {
    if records != [] {
      var n := |records| - 1;
      ByIdHolds(records[..n]);
      assert records == records[..n] + [records[n]];
    }
  }

  predicate Ascending(s: seq<Key>) {
    forall i, j | 0 <= i < j < |s| :: Le(s[i], s[j])
  }

  function Itself(k: Key): Key {
    k
  }

  function SortKeys(s: seq<Key>): seq<Key> {
    StableSort(s, Itself)
  }

  lemma SortKeysHolds(s: seq<Key>)
    ensures Ascending(SortKeys(s)) && forall x :: x in SortKeys(s) <==> x in s
    ensures multiset(SortKeys(s)) == multiset(s)
  {
    SortHolds(s, Itself);
    SortPermutes(s, Itself);
  }

  /** A member observed by a member. */
  predicate ObservedAmong(byId: map<Key, Revision>, members: seq<Key>, id: Key) {
    exists candidate | candidate in members :: candidate in byId && id in byId[candidate].supersedes
  }

  ghost predicate FrontierIn(byId: map<Key, Revision>, component: seq<Key>, frontier: seq<Key>) {
    && Ascending(frontier)
    && (forall x :: x in frontier <==> x in component && !ObservedAmong(byId, component, x))
    && (forall x | x in frontier :: multiset(frontier)[x] == multiset(component)[x])
  }

  /** Of one component, in order, the members no member observes. */
  method FrontierAmong(byId: map<Key, Revision>, component: seq<Key>) returns (frontier: seq<Key>)
    requires forall k | k in component :: k in byId
    ensures FrontierIn(byId, component, frontier)
  {
    hide ObservedAmong, SortKeys, Ascending;
    var members := SortKeys(component);
    SortKeysHolds(component);
    var kept: seq<Key> := [];
    for i := 0 to |members|
      invariant forall x :: x in kept <==> x in members[..i] && !ObservedAmong(byId, members, x)
      invariant forall x | x in kept :: multiset(kept)[x] == multiset(members[..i])[x]
    {
      TakeNext(members, i);
      if !ObservedAmong(byId, members, members[i]) {
        kept := kept + [members[i]];
      }
    }
    TakeAll(members);
    ObservedSame(byId, members, component);
    frontier := SortKeys(kept);
    SortKeysHolds(kept);
  }

  lemma ObservedSame(byId: map<Key, Revision>, members: seq<Key>, component: seq<Key>)
    requires forall x :: x in members <==> x in component
    ensures forall x :: ObservedAmong(byId, members, x) <==> ObservedAmong(byId, component, x)
  {
  }

  /** f lists, in order and each as often as it is recorded, the revisions joined to k
      that none joined to k observes. */
  ghost predicate FrontierOf(records: seq<Revision>, k: Key, f: seq<Key>) {
    && Ascending(f)
    && (forall x :: x in f <==> OnFrontier(records, k, x))
    && (forall x | x in f :: multiset(f)[x] == Copies(records, |records|, x))
  }

  ghost predicate OnFrontier(records: seq<Revision>, k: Key, x: Key) {
    var ids := Ids(records);
    var edges := Supersessions(records, ids);
    && x in ids && Connected(edges, k, x)
    && !exists c | c in ById(records) :: Connected(edges, k, c) && x in ById(records)[c].supersedes
  }

  /** Some of the frontiers is that of k's component. */
  ghost predicate HasFrontier(records: seq<Revision>, frontiers: set<seq<Key>>, k: Key) {
    exists f | f in frontiers :: FrontierOf(records, k, f)
  }

  ghost predicate IsFrontier(records: seq<Revision>, f: seq<Key>) {
    exists k | k in Ids(records) :: FrontierOf(records, k, f)
  }

  /** The components of the forest, each with its frontier. */
  method FrontiersOf(records: seq<Revision>, ghost parent: map<Key, Key>, components: map<Key, seq<Key>>)
      returns (frontiers: set<seq<Key>>)
    requires parent.Keys == Ids(records) && Groups(parent, Supersessions(records, Ids(records)))
    requires Components(records, parent, |records|, components)
    ensures forall f | f in frontiers :: IsFrontier(records, f)
    ensures forall r | r in components :: HasFrontier(records, frontiers, r)
  {
    hide Groups, Components, FrontierOf, HasFrontier, IsFrontier, ById, FrontierIn, RootOf, Increasing, Distinct,
      Supersessions, Ids, Descends;
    var byId := ById(records);
    GroupsDescend(parent, Supersessions(records, Ids(records)));
    frontiers := {};
    var roots := Sorted(components.Keys);
    for i := 0 to |roots|
      invariant forall f | f in frontiers :: IsFrontier(records, f)
      invariant forall r | r in roots[..i] :: HasFrontier(records, frontiers, r)
    {
      var r := roots[i];
      assert r in roots;
      TakeNext(roots, i);
      ComponentById(records, parent, components, r);
      var frontier := FrontierAmong(byId, components[r]);
      ComponentFrontier(records, parent, components, r, frontier);
      frontiers := MoreFrontiers(records, frontiers, r, frontier, roots[..i]);
    }
    TakeAll(roots);
  }

  /** Add the frontier of r's component to those of the components done. */
  method MoreFrontiers(records: seq<Revision>, frontiers: set<seq<Key>>, r: Key, frontier: seq<Key>,
                       ghost done: seq<Key>)
      returns (more: set<seq<Key>>)
    requires (forall f | f in frontiers :: IsFrontier(records, f)) && r in Ids(records) &&
             FrontierOf(records, r, frontier)
    requires forall k | k in done :: HasFrontier(records, frontiers, k)
    ensures forall f | f in more :: IsFrontier(records, f)
    ensures forall k | k in done + [r] :: HasFrontier(records, more, k)
  {
    hide FrontierOf;
    more := frontiers + {frontier};
    assert IsFrontier(records, frontier);
    forall k | k in done ensures HasFrontier(records, more, k) {
      var f :| f in frontiers && FrontierOf(records, k, f);
      assert f in more;
    }
  }

  lemma ComponentById(records: seq<Revision>, parent: map<Key, Key>, components: map<Key, seq<Key>>, r: Key)
    requires Descends(parent) && parent.Keys == Ids(records) && Components(records, parent, |records|, components)
    requires r in components
    ensures r in Ids(records) && forall k | k in components[r] :: k in ById(records)
  {
    hide Components, RootOf, ById;
    ComponentMembers(records, parent, components, r);
    ByIdHolds(records);
  }

  /** One frontier for every component. */
  method WikiFrontiersByHand(records: seq<Revision>) returns (frontiers: set<seq<Key>>)
    ensures forall f | f in frontiers :: IsFrontier(records, f)
    ensures forall k | k in Ids(records) :: HasFrontier(records, frontiers, k)
  {
    hide Groups, Components, FrontierOf, RootOf, HasFrontier, IsFrontier, Supersessions;
    var parent := JoinAll(records);
    GroupsDescend(parent, Supersessions(records, Ids(records)));
    var components := GroupByRoot(records, parent);
    frontiers := FrontiersOf(records, parent, components);
    ComponentRoots(records, parent, components);
    AllHaveFrontiers(records, parent, components, frontiers);
  }

  lemma AllHaveFrontiers(records: seq<Revision>, parent: map<Key, Key>, components: map<Key, seq<Key>>,
                         frontiers: set<seq<Key>>)
    requires parent.Keys == Ids(records) && Groups(parent, Supersessions(records, Ids(records)))
    requires Components(records, parent, |records|, components)
    requires forall r | r in components :: HasFrontier(records, frontiers, r)
    ensures forall k | k in Ids(records) :: HasFrontier(records, frontiers, k)
  {
    hide Groups, Components, FrontierOf, RootOf, Ids, Supersessions, Descends;
    GroupsDescend(parent, Supersessions(records, Ids(records)));
    ComponentRoots(records, parent, components);
    forall k | k in Ids(records) ensures HasFrontier(records, frontiers, k) {
      var r := RootOf(parent, k);
      var f :| f in frontiers && FrontierOf(records, r, f);
      RootFrontier(records, parent, k, f);
    }
  }

  lemma GroupsDescend(parent: map<Key, Key>, edges: Edges)
    requires Groups(parent, edges)
    ensures Descends(parent)
  {
  }

  lemma ComponentRoots(records: seq<Revision>, parent: map<Key, Key>, components: map<Key, seq<Key>>)
    requires Descends(parent) && parent.Keys == Ids(records) && Components(records, parent, |records|, components)
    ensures forall k | k in Ids(records) :: RootOf(parent, k) in components
    ensures components.Keys <= Ids(records)
  {
    hide RootOf;
    forall k | k in Ids(records) ensures RootOf(parent, k) in components {
      var i :| 0 <= i < |records| && records[i].id == k;
      assert RootAt(records, parent, i, RootOf(parent, k));
    }
    forall r | r in components ensures r in Ids(records) {
      var i :| 0 <= i < |records| && RootAt(records, parent, i, r);
    }
  }

  lemma ComponentMembers(records: seq<Revision>, parent: map<Key, Key>, components: map<Key, seq<Key>>, r: Key)
    requires Descends(parent) && parent.Keys == Ids(records) && Components(records, parent, |records|, components)
    requires r in components
    ensures r in parent && RootOf(parent, r) == r
    ensures forall x :: x in components[r] <==> x in Ids(records) && RootOf(parent, x) == r
  {
    hide RootOf;
    var i :| 0 <= i < |records| && RootAt(records, parent, i, r);
    RootStep(parent, records[i].id);
    RootStep(parent, r);
    forall x ensures x in components[r] <==> x in Ids(records) && RootOf(parent, x) == r {
      if x in components[r] {
        var j :| 0 <= j < |records| && RootAt(records, parent, j, r) && records[j].id == x;
        assert records[j] in records;
      }
      if x in Ids(records) && RootOf(parent, x) == r {
        var j :| 0 <= j < |records| && records[j].id == x;
        assert RootAt(records, parent, j, r);
      }
    }
  }

  lemma ComponentFrontier(records: seq<Revision>, parent: map<Key, Key>, components: map<Key, seq<Key>>, r: Key,
                          f: seq<Key>)
    requires parent.Keys == Ids(records) && Groups(parent, Supersessions(records, Ids(records)))
    requires Components(records, parent, |records|, components) && r in components
    requires FrontierIn(ById(records), components[r], f)
    ensures FrontierOf(records, r, f)
  {
    ComponentMembers(records, parent, components, r);
    ComponentCopies(records, parent, components, r);
    hide RootOf, ById, Connected, Components, Copies, Ids, Ascending;
    ByIdHolds(records);
    var edges := Supersessions(records, Ids(records));
    forall x | x in Ids(records) ensures x in components[r] <==> Connected(edges, r, x) {
      assert GroupsAt(parent, edges, r, x);
    }
  }

  lemma ComponentCopies(records: seq<Revision>, parent: map<Key, Key>, components: map<Key, seq<Key>>, r: Key)
    requires Descends(parent) && Ids(records) <= parent.Keys && Components(records, parent, |records|, components)
    requires r in components
    ensures forall x | x in components[r] :: multiset(components[r])[x] == Copies(records, |records|, x)
  {
    hide RootAt, Copies;
  }

  /** A key and its root have one frontier. */
  lemma RootFrontier(records: seq<Revision>, parent: map<Key, Key>, k: Key, f: seq<Key>)
    requires parent.Keys == Ids(records) && Groups(parent, Supersessions(records, Ids(records)))
    requires k in parent && FrontierOf(records, RootOf(parent, k), f)
    ensures FrontierOf(records, k, f)
  {
    hide RootOf, ById, Connected, Ascending;
    var edges := Supersessions(records, Ids(records));
    var r := RootOf(parent, k);
    RootStep(parent, r);
    assert GroupsAt(parent, edges, k, r);
    ConnectedSymmetric(edges, k, r);
    forall x ensures Connected(edges, k, x) <==> Connected(edges, r, x) {
      if Connected(edges, k, x) {
        ConnectedTransitive(edges, r, k, x);
      }
      if Connected(edges, r, x) {
        ConnectedTransitive(edges, k, r, x);
      }
    }
  }

  // ---------------------------------------------------------- main results

  /** Records of one id observe the same. */
  ghost predicate Consistent(records: seq<Revision>) {
    forall r, r' | r in records && r' in records && r.id == r'.id :: r.supersedes == r'.supersedes
  }

  ghost predicate Superseded(records: seq<Revision>, id: Key) {
    exists r | r in records :: id in r.supersedes
  }

  lemma AscendingHead(a: seq<Key>, x: Key)
    requires Ascending(a) && x in a
    ensures Le(a[0], x)
  {
    var i :| 0 <= i < |a| && a[i] == x;
  }

  lemma RestOfMultiset(a: seq<Key>)
    requires a != []
    ensures multiset(a[1..]) == multiset(a) - multiset{a[0]}
  {
    assert a == [a[0]] + a[1..];
  }

  lemma SameMembers(a: seq<Key>, b: seq<Key>)
    requires multiset(a) == multiset(b)
    ensures |a| == |b| && (a != [] ==> a[0] in b)
  {
    assert |multiset(a)| == |a| && |multiset(b)| == |b|;
    if a != [] {
      assert a[0] in multiset(a);
    }
  }

  lemma {:induction false} OneAscending(a: seq<Key>, b: seq<Key>)
    requires Ascending(a) && Ascending(b) && multiset(a) == multiset(b)
    ensures a == b
  {
    SameMembers(a, b);
    SameMembers(b, a);
    if a != [] {
      AscendingHead(b, a[0]);
      AscendingHead(a, b[0]);
      RestOfMultiset(a);
      RestOfMultiset(b);
      OneAscending(a[1..], b[1..]);
      assert a == [a[0]] + a[1..] && b == [b[0]] + b[1..];
    }
  }

  /** A component has one frontier, and so the records make one set of frontiers. */
  lemma OneFrontier(records: seq<Revision>, k: Key, f: seq<Key>, f': seq<Key>)
    requires FrontierOf(records, k, f) && FrontierOf(records, k, f')
    ensures f == f'
  {
    hide Ascending, OnFrontier;
    forall x ensures multiset(f)[x] == multiset(f')[x] {
      assert x in multiset(f) <==> x in f;
      assert x in multiset(f') <==> x in f';
    }
    assert multiset(f) == multiset(f');
    OneAscending(f, f');
  }

  /** Current in one's own component is current in the whole. */
  lemma CurrentIffNotSuperseded(records: seq<Revision>, k: Key)
    requires Consistent(records) && k in Ids(records)
    ensures OnFrontier(records, k, k) <==> !Superseded(records, k)
  {
    hide Connected, ById;
    var ids := Ids(records);
    var edges := Supersessions(records, ids);
    ByIdHolds(records);
    ConnectedSelf(edges, k);
    if Superseded(records, k) {
      var r :| r in records && k in r.supersedes;
      assert (r.id, k) in edges;
      ConnectedTouching(edges, k, r.id);
      assert r.id in ById(records) && k in ById(records)[r.id].supersedes;
    }
  }

  lemma FrontierOfMember(records: seq<Revision>, k: Key, x: Key)
    requires k in Ids(records)
    ensures OnFrontier(records, k, x) ==> OnFrontier(records, x, x)
    ensures OnFrontier(records, x, x) && Connected(Supersessions(records, Ids(records)), k, x) ==>
            OnFrontier(records, k, x)
  {
    hide Connected, ById;
    var edges := Supersessions(records, Ids(records));
    ConnectedSelf(edges, x);
    if Connected(edges, k, x) {
      ConnectedSymmetric(edges, k, x);
      forall c ensures Connected(edges, k, c) <==> Connected(edges, x, c) {
        if Connected(edges, k, c) {
          ConnectedTransitive(edges, x, k, c);
        }
        if Connected(edges, x, c) {
          ConnectedTransitive(edges, k, x, c);
        }
      }
    }
  }

  /** The frontiers together are exactly the revisions left by one subtraction. */
  lemma ScanIsSubtraction(records: seq<Revision>, frontiers: set<seq<Key>>, x: Key)
    requires Consistent(records)
    requires forall f | f in frontiers :: IsFrontier(records, f)
    requires forall k | k in Ids(records) :: HasFrontier(records, frontiers, k)
    ensures (exists f | f in frontiers :: x in f) <==> x in Ids(records) && !Superseded(records, x)
  {
    hide Superseded, Ascending, Consistent, OnFrontier;
    if f :| f in frontiers && x in f {
      var k :| k in Ids(records) && FrontierOf(records, k, f);
      FrontierOfMember(records, k, x);
      OnFrontierKnown(records, k, x);
      CurrentIffNotSuperseded(records, x);
    }
    if x in Ids(records) && !Superseded(records, x) {
      var f :| f in frontiers && FrontierOf(records, x, f);
      CurrentIffNotSuperseded(records, x);
    }
  }

  lemma OnFrontierKnown(records: seq<Revision>, k: Key, x: Key)
    requires OnFrontier(records, k, x)
    ensures x in Ids(records)
  {
  }

  /** A revision stands below those that supersede it. */
  ghost function SupersededBy(records: seq<Revision>): Graph {
    map k | k in Ids(records) :: set r | r in records && k in r.supersedes :: r.id
  }

  lemma SupersededByUp(records: seq<Revision>, k: Key)
    requires k in Ids(records)
    ensures forall p :: p in Up(SupersededBy(records), k) <==> exists r | r in records :: k in r.supersedes && r.id == p
  {
  }

  /** Where no revision supersedes itself, however indirectly, every component
      has a current revision. */
  lemma EveryComponentIsCurrent(records: seq<Revision>, k: Key, f: seq<Key>)
    requires Consistent(records) && Acyclic(SupersededBy(records))
    requires k in Ids(records) && FrontierOf(records, k, f)
    ensures f != []
  {
    hide Connected, Ascending, Consistent, OnFrontier, SupersededBy, Superseded;
    var edges := Supersessions(records, Ids(records));
    var g := SupersededBy(records);
    var component := set x | x in Ids(records) && Connected(edges, k, x);
    ConnectedSelf(edges, k);
    assert k in component;
    AcyclicHasSource(g, component);
    var x :| x in component && Up(g, x) * component == {};
    NothingAbove(records, k, x, component);
    CurrentIffNotSuperseded(records, x);
    FrontierOfMember(records, k, x);
    assert x in f;
  }

  lemma NothingAbove(records: seq<Revision>, k: Key, x: Key, component: set<Key>)
    requires component == set x | x in Ids(records) && Connected(Supersessions(records, Ids(records)), k, x)
    requires x in component && Up(SupersededBy(records), x) * component == {}
    ensures !Superseded(records, x)
  {
    hide Connected;
    var edges := Supersessions(records, Ids(records));
    SupersededByUp(records, x);
    forall r | r in records && x in r.supersedes ensures r.id in Up(SupersededBy(records), x) * component {
      assert (r.id, x) in edges;
      ConnectedTouching(edges, x, r.id);
      ConnectedTransitive(edges, k, x, r.id);
    }
  }
}
