/** Keys, optional values and the sorted view of a set of keys. */
module Base {
  /** A source key (session, uuid), ordered as the source derives it: session
      first, then uuid. Only equality and order of the two strings matter, so
      each is an integer. */
  datatype Key = Key(session: int, uuid: int)

  predicate Lt(a: Key, b: Key) {
    a.session < b.session || (a.session == b.session && a.uuid < b.uuid)
  }

  predicate Le(a: Key, b: Key) {
    a == b || Lt(a, b)
  }

  datatype Option<+T> = None | Some(value: T)

  datatype Result<+T, +E> = Ok(value: T) | Err(error: E)

  lemma HasLeast(s: set<Key>)
    requires s != {}
    ensures exists m :: m in s && forall x | x in s :: Le(m, x)
  {
    var a :| a in s;
    var t := s - {a};
    if t != {} {
      HasLeast(t);
      var m :| m in t && forall x | x in t :: Le(m, x);
      var l := if Le(m, a) then m else a;
      forall x | x in s ensures Le(l, x) {
        assert x == a || x in t;
      }
    } else {
      assert s == {a};
    }
  }

  /** The least key of a set: what iterating a sorted set yields first. */
  function Least(s: set<Key>): (m: Key)
    requires s != {}
    ensures m in s && forall x | x in s :: Le(m, x)
  {
    HasLeast(s);
    var m :| m in s && forall x | x in s :: Le(m, x);
    m
  }

  ghost predicate Increasing(s: seq<Key>) {
    forall i, j :: 0 <= i < j < |s| ==> Lt(s[i], s[j])
  }

  ghost predicate Distinct<T>(s: seq<T>) {
    forall i, j :: 0 <= i < j < |s| ==> s[i] != s[j]
  }

  /** The members of a set in increasing order. */
  function Sorted(s: set<Key>): (r: seq<Key>)
    ensures Increasing(r) && Distinct(r)
    ensures |r| == |s|
    ensures forall k :: k in r <==> k in s
  {
    if s == {} then []
    else
      var m := Least(s);
      var rest := Sorted(s - {m});
      [m] + rest
  }

  lemma Member<T>(s: set<T>) returns (x: T)
    requires s != {}
    ensures x in s
  {
    x :| x in s;
  }

  /** The members of a sequence. */
  function Elements<T(!new)>(s: seq<T>): (r: set<T>)
    ensures forall x :: x in r <==> x in s
  {
    set x | x in s
  }

  lemma TakeNext<T>(s: seq<T>, i: nat)
    requires i < |s|
    ensures s[..i + 1] == s[..i] + [s[i]]
  {
  }

  lemma TakeAll<T>(s: seq<T>)
    ensures s[..|s|] == s
  {
  }

  lemma DistinctInit<T(!new)>(s: seq<T>, x: T)
    requires Distinct(s + [x])
    ensures Distinct(s) && x !in s
  {
    var t := s + [x];
    assert t[|s|] == x;
    assert forall i | 0 <= i < |s| :: t[i] == s[i];
  }

  lemma ElementsCons<T(!new)>(s: seq<T>)
    requires s != []
    ensures Elements(s) == {s[0]} + Elements(s[1..])
  {
    assert s == [s[0]] + s[1..];
  }

  lemma ElementsAppend<T(!new)>(s: seq<T>, x: T)
    ensures Elements(s + [x]) == Elements(s) + {x}
  {
  }

  lemma {:induction false} DistinctSize<T(!new)>(s: seq<T>)
    requires Distinct(s)
    ensures |Elements(s)| == |s|
  {
    if s == [] {
      assert Elements(s) == {};
    } else {
      var n := |s| - 1;
      DistinctSize(s[..n]);
      assert Elements(s) == Elements(s[..n]) + {s[n]};
    }
  }

  lemma SubsetSize<T(!new)>(a: set<T>, b: set<T>)
    requires a <= b
    ensures |a| <= |b|
  {
    assert b == a + (b - a);
  }

  lemma {:induction false} DistinctFits<T(!new)>(s: seq<T>, u: set<T>)
    requires Distinct(s) && forall x :: x in s ==> x in u
    ensures |s| <= |u|
  {
    DistinctSize(s);
    SubsetSize(Elements(s), u);
  }

  lemma SortedElements(s: set<Key>)
    ensures Elements(Sorted(s)) == s
  {
  }

  /** Pairs of keys, ordered by the first and then the second. */
  predicate LePair(a: (Key, Key), b: (Key, Key)) {
    Lt(a.0, b.0) || (a.0 == b.0 && Le(a.1, b.1))
  }

  lemma HasLeastPair(s: set<(Key, Key)>)
    requires s != {}
    ensures exists m :: m in s && forall x | x in s :: LePair(m, x)
  {
    var a :| a in s;
    var t := s - {a};
    if t != {} {
      HasLeastPair(t);
      var m :| m in t && forall x | x in t :: LePair(m, x);
      var l := if LePair(m, a) then m else a;
      forall x | x in s ensures LePair(l, x) {
        assert x == a || x in t;
      }
    } else {
      assert s == {a};
    }
  }

  function LeastPair(s: set<(Key, Key)>): (m: (Key, Key))
    requires s != {}
    ensures m in s && forall x | x in s :: LePair(m, x)
  {
    HasLeastPair(s);
    var m :| m in s && forall x | x in s :: LePair(m, x);
    m
  }

  /** The members of a set of pairs in order. */
  function SortedPairs(s: set<(Key, Key)>): (r: seq<(Key, Key)>)
    ensures Distinct(r) && forall e :: e in r <==> e in s
  {
    if s == {} then []
    else
      var m := LeastPair(s);
      [m] + SortedPairs(s - {m})
  }
}
