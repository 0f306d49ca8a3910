/** What deriving a member's text index comes to, read off its rows. */
module TextRows {
  import opened Base
  import opened TextIndexes

  /** Some row of the member names this text as a payload. */
  ghost predicate Names(store: Store, rows: seq<Row>, h: Handle) {
    exists row | row in rows :: row.attribute == store.payload && row.value == h
  }

  /** The member names h, and all it names before h can be read or is merely missing. */
  ghost predicate FirstUnreadable(store: Store, rows: seq<Row>, h: Handle) {
    && Names(store, rows, h) && (store.read(h).Failed? || store.read(h).NotUtf8?)
    && forall x | Names(store, rows, x) && Lt(x, h) :: store.read(x).Text? || store.read(x).Missing?
  }

  /** The member names h, which is missing; all it names is there or missing, and
      what it names before h is there. */
  ghost predicate FirstAbsent(store: Store, rows: seq<Row>, h: Handle) {
    && Names(store, rows, h) && store.read(h).Missing?
    && (forall x | Names(store, rows, x) :: store.read(x).Text? || store.read(x).Missing?)
    && forall x | Names(store, rows, x) && Lt(x, h) :: store.read(x).Text?
  }

  /** Document h counts each term of its text, and no other, as often as it occurs. */
  ghost predicate CountsExactly(store: Store, index: Index, h: Handle)
    requires h in index && store.read(h).Text?
  {
    var tokens := store.tokens(store.read(h).text);
    && (forall t :: t in index[h] <==> t in tokens)
    && (forall t | t in tokens :: index[h][t] == multiset(tokens)[t] <= 0xFFFF_FFFF)
  }

  /** The documents of the index are exactly the texts the member names, each there
      and counted exactly. */
  ghost predicate Indexes(store: Store, rows: seq<Row>, index: Index) {
    && (forall h :: h in index <==> Names(store, rows, h))
    && (forall h | h in index :: store.read(h).Text? && CountsExactly(store, index, h))
  }

  lemma HandlesNamed(store: Store, rows: seq<Row>, h: Handle)
    ensures h in Handles(store, rows) <==> Names(store, rows, h)
  {
  }

  lemma HandlesAreNamed(store: Store, rows: seq<Row>)
    ensures forall h :: h in Handles(store, rows) <==> Names(store, rows, h)
  {
    hide Handles, Names;
    forall h ensures h in Handles(store, rows) <==> Names(store, rows, h) {
      HandlesNamed(store, rows, h);
    }
  }

  lemma StopIff(store: Store, rows: seq<Row>, h: Handle)
    ensures FirstStop(store, Handles(store, rows), h) <==> FirstUnreadable(store, rows, h)
  {
    HandlesAreNamed(store, rows);
    hide Handles, Names;
  }

  lemma AbsentIff(store: Store, rows: seq<Row>, h: Handle)
    ensures FirstAbsent(store, rows, h) <==>
              (forall x | x in Handles(store, rows) :: !Stops(store, x)) && FirstMissing(store, Handles(store, rows), h)
  {
    HandlesAreNamed(store, rows);
    hide Handles, Names;
  }

  lemma FrequenciesExactly(store: Store, index: Index, h: Handle)
    requires h in index && store.read(h).Text?
    ensures CountsExactly(store, index, h) <==>
            Indexable(store, h) && index[h] == Frequencies(TokensOf(store, h))
  {
    var tokens := TokensOf(store, h);
    if CountsExactly(store, index, h) {
      forall t ensures t in index[h] <==> t in tokens {
      }
      assert index[h] == Frequencies(tokens);
    }
  }

  lemma ImageIff(store: Store, rows: seq<Row>, index: Index)
    ensures var handles := Handles(store, rows);
            Indexes(store, rows, index) <==>
              (forall x | x in handles :: Indexable(store, x)) && index == Image(store, handles)
  {
    HandlesAreNamed(store, rows);
    hide Handles, Names, Frequencies, CountsExactly, Countable, TokensOf;
    forall h | h in index && store.read(h).Text?
      ensures CountsExactly(store, index, h) <==> Indexable(store, h) && index[h] == Frequencies(TokensOf(store, h))
    {
      FrequenciesExactly(store, index, h);
    }
    if Indexes(store, rows, index) {
      assert index.Keys == Image(store, Handles(store, rows)).Keys;
      assert index == Image(store, Handles(store, rows));
    }
  }

  lemma ReadyExactly(store: Store, rows: seq<Row>, index: Index)
    ensures Derives(store, rows, Ok(Ready(index))) <==>
            Canonical(rows) && Indexes(store, rows, index) && store.builds(index)
  {
    hide Handles, Image, Indexable, Indexes, Canonical;
    ImageIff(store, rows, index);
  }

  /** Some term occurs in this text more often than 32 bits can count. */
  ghost predicate Overflows(store: Store, h: Handle) {
    store.read(h).Text? && exists t :: multiset(store.tokens(store.read(h).text))[t] > 0xFFFF_FFFF
  }

  /** Why a member is refused. */
  ghost predicate Refusable(store: Store, rows: seq<Row>) {
    || !Canonical(rows)
    || (exists h :: FirstUnreadable(store, rows, h) && store.read(h).NotUtf8?)
    || ((forall x | Names(store, rows, x) :: store.read(x).Text?)
        && exists x | Names(store, rows, x) :: Overflows(store, x))
    || (exists index :: Indexes(store, rows, index) && !store.builds(index))
  }

  lemma OverflowsIff(store: Store, h: Handle)
    requires store.read(h).Text?
    ensures Overflows(store, h) <==> !Countable(TokensOf(store, h))
  {
    var tokens := TokensOf(store, h);
    forall t ensures t in tokens <==> multiset(tokens)[t] > 0 {
    }
  }

  lemma RefusedIff(store: Store, rows: seq<Row>)
    ensures Derives(store, rows, Ok(Rejected)) <==> Refusable(store, rows)
  {
    HandlesAreNamed(store, rows);
    var handles := Handles(store, rows);
    hide Canonical, Handles, Names, FirstStop, FirstUnreadable, Overflows, Countable, TokensOf, Image, Indexes;
    forall h ensures FirstStop(store, handles, h) <==> FirstUnreadable(store, rows, h) {
      StopIff(store, rows, h);
    }
    forall h | store.read(h).Text? ensures Overflows(store, h) <==> !Countable(TokensOf(store, h)) {
      OverflowsIff(store, h);
    }
    forall index ensures Indexes(store, rows, index) <==>
                         (forall x | x in handles :: Indexable(store, x)) && index == Image(store, handles) {
      ImageIff(store, rows, index);
    }
  }

  /** Every outcome, by the rows that name payloads: rows of other attributes never
      matter. A store that cannot be read fails the derivation at the first text it
      cannot read, unless one before it is malformed; a missing text leaves it
      pending where none is unreadable or malformed; a ready index holds exactly the
      named texts, with exact counts; and a refusal has one of four reasons. */
  lemma OutcomeByRows(store: Store, rows: seq<Row>)
    ensures forall h :: Derives(store, rows, Err(h)) <==>
              Canonical(rows) && FirstUnreadable(store, rows, h) && store.read(h).Failed?
    ensures forall h :: Derives(store, rows, Ok(Pending(h))) <==> Canonical(rows) && FirstAbsent(store, rows, h)
    ensures forall index :: Derives(store, rows, Ok(Ready(index))) <==>
              Canonical(rows) && Indexes(store, rows, index) && store.builds(index)
    ensures Derives(store, rows, Ok(Rejected)) <==> Refusable(store, rows)
  {
    RefusedIff(store, rows);
    forall h ensures Derives(store, rows, Err(h)) <==>
              Canonical(rows) && FirstUnreadable(store, rows, h) && store.read(h).Failed? {
      hide Canonical, Handles, FirstStop, FirstUnreadable;
      StopIff(store, rows, h);
    }
    forall h ensures Derives(store, rows, Ok(Pending(h))) <==> Canonical(rows) && FirstAbsent(store, rows, h) {
      hide Canonical, Handles, FirstMissing, FirstAbsent, Stops;
      AbsentIff(store, rows, h);
    }
    forall index ensures Derives(store, rows, Ok(Ready(index))) <==>
              Canonical(rows) && Indexes(store, rows, index) && store.builds(index) {
      hide Canonical, Derives, Indexes;
      ReadyExactly(store, rows, index);
    }
  }

  /** Canonical members with the same payload rows come to the same. */
  lemma OtherRowsNeverMatter(store: Store, rows: seq<Row>, rows': seq<Row>, r: Result<Validation, Handle>)
    requires Canonical(rows) && Canonical(rows')
    requires forall row: Row | row.attribute == store.payload :: row in rows <==> row in rows'
    ensures Derives(store, rows, r) <==> Derives(store, rows', r)
  {
    hide Canonical, FirstStop, FirstMissing, Indexable, Stops;
    assert Handles(store, rows) == Handles(store, rows');
  }

  /** A row as it is written: entity, attribute, value. */
  function Written(row: Row): seq<int> {
    [row.entity.session, row.entity.uuid, row.attribute.session, row.attribute.uuid, row.value.session, row.value.uuid]
  }

  /** The two first differ at i, where the first is less. */
  ghost predicate LessAt(x: seq<int>, y: seq<int>, i: nat)
    requires i < |x| && i < |y|
  {
    (forall j | 0 <= j < i :: x[j] == y[j]) && x[i] < y[i]
  }

  /** Rows are ordered as they are written, and of two different rows one is less. */
  lemma RowsAsWritten(a: Row, b: Row)
    ensures RowLt(a, b) <==> exists i | 0 <= i < 6 :: LessAt(Written(a), Written(b), i)
    ensures a != b <==> RowLt(a, b) || RowLt(b, a)
    ensures !(RowLt(a, b) && RowLt(b, a))
  {
    var (x, y) := (Written(a), Written(b));
    assert x[0] == a.entity.session && x[1] == a.entity.uuid && x[2] == a.attribute.session;
    assert x[3] == a.attribute.uuid && x[4] == a.value.session && x[5] == a.value.uuid;
    assert y[0] == b.entity.session && y[1] == b.entity.uuid && y[2] == b.attribute.session;
    assert y[3] == b.attribute.uuid && y[4] == b.value.session && y[5] == b.value.uuid;
    if RowLt(a, b) {
      var i :=
        if x[0] != y[0] then 0 else if x[1] != y[1] then 1 else if x[2] != y[2] then 2
        else if x[3] != y[3] then 3 else if x[4] != y[4] then 4 else 5;
      assert LessAt(x, y, i);
    }
  }

  lemma LeastRow(rows: set<Row>) returns (least: Row)
    requires rows != {}
    ensures least in rows && forall row | row in rows :: row == least || RowLt(least, row)
  {
    least :| least in rows;
    var rest := rows - {least};
    if rest != {} {
      var other := LeastRow(rest);
      if RowLt(other, least) {
        least := other;
      } else {
        assert forall row | row in rest :: RowLt(least, row);
      }
    }
  }

  /** Every set of rows makes a canonical member. */
  lemma {:induction false} CanonicalMember(rows: set<Row>) returns (member: seq<Row>)
    ensures Canonical(member) && forall row :: row in member <==> row in rows
  {
    if rows == {} {
      return [];
    }
    var least := LeastRow(rows);
    var rest := CanonicalMember(rows - {least});
    member := [least] + rest;
    if rest != [] {
      assert rest[0] in rest;
    }
    assert forall i | 1 <= i < |member| - 1 :: RowLt(rest[i - 1], rest[i]);
  }

  /** A canonical member is strictly sorted throughout, and so a set of rows makes
      only one. */
  lemma {:induction false} CanonicalSorted(rows: seq<Row>, i: nat, j: nat)
    requires Canonical(rows) && i < j < |rows|
    ensures RowLt(rows[i], rows[j])
    decreases j
  {
    if i + 1 < j {
      CanonicalSorted(rows, i, j - 1);
    }
  }

  lemma FirstRow(rows: seq<Row>, row: Row)
    requires Canonical(rows) && row in rows && row != rows[0]
    ensures RowLt(rows[0], row)
  {
    var j :| 0 <= j < |rows| && rows[j] == row;
    CanonicalSorted(rows, 0, j);
  }

  lemma {:induction false} OneCanonicalMember(rows: seq<Row>, rows': seq<Row>)
    requires Canonical(rows) && Canonical(rows') && forall row :: row in rows <==> row in rows'
    ensures rows == rows'
    decreases |rows|
  {
    assert rows' == [] || rows'[0] in rows';
    if rows != [] {
      assert rows[0] in rows';
      assert rows'[0] in rows;
      if rows[0] != rows'[0] {
        FirstRow(rows, rows'[0]);
        FirstRow(rows', rows[0]);
      } else {
        forall row ensures row in rows[1..] <==> row in rows'[1..] {
          RestOf(rows, row);
          RestOf(rows', row);
        }
        CanonicalRest(rows);
        CanonicalRest(rows');
        OneCanonicalMember(rows[1..], rows'[1..]);
        assert rows == [rows[0]] + rows[1..] && rows' == [rows'[0]] + rows'[1..];
      }
    }
  }

  lemma CanonicalRest(rows: seq<Row>)
    requires Canonical(rows) && rows != []
    ensures Canonical(rows[1..])
  {
  }

  lemma RestOf(rows: seq<Row>, row: Row)
    requires Canonical(rows) && rows != []
    ensures row in rows[1..] <==> row in rows && row != rows[0]
  {
    if j :| 1 <= j < |rows| && rows[j] == row {
      CanonicalSorted(rows, 0, j);
    }
    if row in rows && row != rows[0] {
      var j :| 0 <= j < |rows| && rows[j] == row;
      assert rows[1..][j - 1] == row;
    }
  }

  // ------------------------------------------------------------- the carrier

  /** Everything a counts, b counts at least as often. */
  ghost predicate AtMost(a: Index, b: Index) {
    forall h, t | h in a && t in a[h] :: h in b && t in b[h] && a[h][t] <= b[h][t]
  }

  /** The same documents, terms or not. */
  ghost predicate Within(a: Index, b: Index) {
    (forall h | h in a :: h in b) && AtMost(a, b)
  }

  /** Joining two indexes makes the least that holds both, the pointwise maximum. */
  lemma MergeIsJoin(a: Index, b: Index, bound: Index)
    ensures Within(a, Merge(a, b)) && Within(b, Merge(a, b))
    ensures Within(a, bound) && Within(b, bound) ==> Within(Merge(a, b), bound)
  {
  }
}
