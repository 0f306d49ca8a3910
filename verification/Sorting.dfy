/** Stable sorting by a key. */
module Sorting {
  import opened Base

  ghost predicate InKeyOrder<T>(s: seq<T>, key: T -> Key) {
    forall i, j | 0 <= i < j < |s| :: Le(key(s[i]), key(s[j]))
  }

  /** Before every element of the same key. */
  function Insert<T>(s: seq<T>, x: T, key: T -> Key): seq<T> {
    if s == [] || Le(key(x), key(s[0])) then [x] + s else [s[0]] + Insert(s[1..], x, key)
  }

  function StableSort<T>(s: seq<T>, key: T -> Key): seq<T> {
    if s == [] then [] else Insert(StableSort(s[1..], key), s[0], key)
  }

  lemma {:induction false} InsertHolds<T(!new)>(s: seq<T>, x: T, key: T -> Key)
    requires InKeyOrder(s, key)
    ensures InKeyOrder(Insert(s, x, key), key) && forall y :: y in Insert(s, x, key) <==> y in s || y == x
  {
    if s != [] && !Le(key(x), key(s[0])) {
      InsertHolds(s[1..], x, key);
      var rest := Insert(s[1..], x, key);
      assert s == [s[0]] + s[1..];
      forall i | 0 <= i < |rest| ensures Le(key(s[0]), key(rest[i])) {
        assert rest[i] in rest;
      }
    }
  }

  lemma {:induction false} SortHolds<T(!new)>(s: seq<T>, key: T -> Key)
    ensures InKeyOrder(StableSort(s, key), key) && forall y :: y in StableSort(s, key) <==> y in s
  {
    if s != [] {
      SortHolds(s[1..], key);
      InsertHolds(StableSort(s[1..], key), s[0], key);
      assert s == [s[0]] + s[1..];
    }
  }

  lemma {:induction false} InsertAdds<T(!new)>(s: seq<T>, x: T, key: T -> Key)
    ensures multiset(Insert(s, x, key)) == multiset(s) + multiset{x}
  {
    if s != [] && !Le(key(x), key(s[0])) {
      InsertAdds(s[1..], x, key);
      assert s == [s[0]] + s[1..];
    }
  }

  /** Sorting neither drops nor repeats anything. */
  lemma {:induction false} SortPermutes<T(!new)>(s: seq<T>, key: T -> Key)
    ensures multiset(StableSort(s, key)) == multiset(s)
  {
    if s != [] {
      SortPermutes(s[1..], key);
      InsertAdds(StableSort(s[1..], key), s[0], key);
      assert s == [s[0]] + s[1..];
    }
  }
}
