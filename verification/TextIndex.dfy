/** Deriving the text index of an archive member: every text payload is one
    document, its terms counted exactly. */
module TextIndexes {
  import opened Base

  /** Payload handles, attributes and entities are ordered byte strings; the
      ordered keys of Base stand for them. */
  type Handle = Key
  type Term = nat

  datatype Row = Row(entity: Key, attribute: Key, value: Handle)

  const U32_MAX := 0xFFFF_FFFF

  predicate RowLt(a: Row, b: Row) {
    || Lt(a.entity, b.entity)
    || (a.entity == b.entity && Lt(a.attribute, b.attribute))
    || (a.entity == b.entity && a.attribute == b.attribute && Lt(a.value, b.value))
  }

  /** A canonical member is a strictly sorted run of rows. */
  predicate Canonical(rows: seq<Row>) {
    forall i | 0 <= i < |rows| - 1 :: RowLt(rows[i], rows[i + 1])
  }

  /** What reading a payload by its handle gives. */
  datatype Fetched = Text(text: string) | NotUtf8 | Missing | Failed

  type Counts = map<Term, nat>
  type Index = map<Handle, Counts>

  /** The store, the tokenizer, and whether the portable carrier of an index can be
      built; all are functions of what they are asked. */
  datatype Store = Store(read: Handle -> Fetched, tokens: string -> seq<Term>, builds: Index -> bool, payload: Key)

  datatype Validation = Ready(index: Index) | Pending(missing: Handle) | Rejected

  /** The distinct payload handles a member names. */
  function Handles(store: Store, rows: seq<Row>): set<Handle> {
    set row | row in rows && row.attribute == store.payload :: row.value
  }

  function Frequencies(tokens: seq<Term>): Counts {
    map t | t in tokens :: multiset(tokens)[t]
  }

  predicate Countable(tokens: seq<Term>) {
    forall t | t in tokens :: multiset(tokens)[t] <= U32_MAX
  }

  function TokensOf(store: Store, h: Handle): seq<Term>
    requires store.read(h).Text?
  {
    store.tokens(store.read(h).text)
  }

  /** The handle's text is there, and its terms can be counted. */
  predicate Indexable(store: Store, h: Handle) {
    store.read(h).Text? && Countable(TokensOf(store, h))
  }

  /** The exact index of the documents of a set of handles. */
  ghost function Image(store: Store, handles: set<Handle>): Index {
    map h | h in handles && store.read(h).Text? :: Frequencies(TokensOf(store, h))
  }

  // ------------------------------------------------------------------ the code

  /** Count the tokens of one text; fails exactly when a count would pass 32 bits. */
  method CountTerms(tokens: seq<Term>) returns (frequencies: Option<Counts>)
    ensures frequencies == if Countable(tokens) then Some(Frequencies(tokens)) else None
  {
    var counted: Counts := map[];
    assert Countable(tokens[..0]);
    for i := 0 to |tokens|
      invariant counted == Frequencies(tokens[..i]) && Countable(tokens[..i])
    {
      var t := tokens[i];
      OneMoreToken(tokens, i);
      var frequency := if t in counted then counted[t] else 0;
      if frequency == U32_MAX {
        return None;
      }
      counted := counted[t := frequency + 1];
    }
    TakeAll(tokens);
    frequencies := Some(counted);
  }

  lemma OneMoreToken(tokens: seq<Term>, i: nat)
    requires i < |tokens| && Countable(tokens[..i])
    ensures var t := tokens[i];
            var counted := Frequencies(tokens[..i]);
            var frequency := if t in counted then counted[t] else 0;
            && Frequencies(tokens[..i + 1]) == counted[t := frequency + 1]
            && (frequency < U32_MAX ==> Countable(tokens[..i + 1]))
            && (frequency == U32_MAX ==> !Countable(tokens))
  {
    var t := tokens[i];
    TakeNext(tokens, i);
    var before, after := tokens[..i], tokens[..i + 1];
    forall x ensures multiset(after)[x] == multiset(before)[x] + (if x == t then 1 else 0) {
    }
    assert forall x :: x in before <==> multiset(before)[x] > 0;
    assert forall x :: x in after <==> x in before || x == t;
    assert tokens == after + tokens[i + 1..];
    assert multiset(tokens)[t] >= multiset(after)[t];
  }

  /** Reading h settles the outcome at once. */
  predicate Stops(store: Store, h: Handle) {
    store.read(h).NotUtf8? || store.read(h).Failed?
  }

  ghost predicate FirstStop(store: Store, handles: set<Handle>, h: Handle) {
    h in handles && Stops(store, h) && forall x | x in handles && Stops(store, x) :: Le(h, x)
  }

  ghost predicate FirstMissing(store: Store, handles: set<Handle>, h: Handle) {
    h in handles && store.read(h).Missing? && forall x | x in handles && store.read(x).Missing? :: Le(h, x)
  }

  /** What deriving a member comes to, and why: what a missing text could still
      change is only said where nothing is refused already. */
  ghost predicate Derives(store: Store, rows: seq<Row>, result: Result<Validation, Handle>) {
    var handles := Handles(store, rows);
    match result
    case Err(h) => Canonical(rows) && FirstStop(store, handles, h) && store.read(h).Failed?
    case Ok(Pending(h)) =>
      Canonical(rows) && (forall x | x in handles :: !Stops(store, x)) && FirstMissing(store, handles, h)
    case Ok(Rejected) =>
      || !Canonical(rows)
      || (exists h :: FirstStop(store, handles, h) && store.read(h).NotUtf8?)
      || ((forall x | x in handles :: store.read(x).Text?) && exists x | x in handles :: !Countable(TokensOf(store, x)))
      || ((forall x | x in handles :: Indexable(store, x)) && !store.builds(Image(store, handles)))
    case Ok(Ready(index)) =>
      && Canonical(rows) && (forall x | x in handles :: Indexable(store, x))
      && index == Image(store, handles) && store.builds(index)
  }

  datatype Reading = AllRead | Lacks(missing: Handle) | Refuses | Fails(handle: Handle)

  /** Read every text, in order, before anything is counted; a missing one does not
      hide a malformed one behind it. */
  method ReadTexts(store: Store, handles: set<Handle>) returns (reading: Reading)
    ensures match reading
            case AllRead => forall x | x in handles :: store.read(x).Text?
            case Lacks(h) => FirstMissing(store, handles, h) && forall x | x in handles :: !Stops(store, x)
            case Refuses => exists h :: FirstStop(store, handles, h) && store.read(h).NotUtf8?
            case Fails(h) => FirstStop(store, handles, h) && store.read(h).Failed?
  {
    var ordered := Sorted(handles);
    var missing: Option<Handle> := None;
    for i := 0 to |ordered|
      invariant forall x | x in ordered[..i] :: !Stops(store, x)
      invariant missing.None? ==> forall x | x in ordered[..i] :: store.read(x).Text?
      invariant missing.Some? ==>
                  && missing.value in ordered[..i] && store.read(missing.value).Missing?
                  && forall x | x in ordered[..i] && store.read(x).Missing? :: Le(missing.value, x)
    {
      var h := ordered[i];
      assert h in ordered;
      TakeNext(ordered, i);
      BeforeAndAfter(ordered, i);
      match store.read(h) {
        case Text(_) =>
        case Missing =>
          if missing.None? {
            missing := Some(h);
          }
        case Failed =>
          assert FirstStop(store, handles, h);
          return Fails(h);
        case NotUtf8 =>
          assert FirstStop(store, handles, h);
          return Refuses;
      }
    }
    TakeAll(ordered);
    reading := if missing.Some? then Lacks(missing.value) else AllRead;
  }

  lemma BeforeAndAfter(ordered: seq<Handle>, i: nat)
    requires Increasing(ordered) && i < |ordered|
    ensures forall x | x in ordered[..i] :: Le(x, ordered[i])
    ensures forall x | x in ordered && x !in ordered[..i] :: Le(ordered[i], x)
  {
    assert forall j | 0 <= j < i :: ordered[..i][j] == ordered[j];
    forall x | x in ordered && x !in ordered[..i] ensures Le(ordered[i], x) {
      var j :| 0 <= j < |ordered| && ordered[j] == x;
    }
  }

  /** Derive the index of one member. */
  method DeriveForValidation(store: Store, rows: seq<Row>) returns (result: Result<Validation, Handle>)
    ensures Derives(store, rows, result)
  {
    hide FirstStop, FirstMissing, Countable, Frequencies, Canonical, Increasing, Distinct;
    if !Canonical(rows) {
      return Ok(Rejected);
    }
    var handles := Handles(store, rows);
    var reading := ReadTexts(store, handles);
    match reading {
      case Fails(h) =>
        return Err(h);
      case Refuses =>
        return Ok(Rejected);
      case Lacks(h) =>
        return Ok(Pending(h));
      case AllRead =>
        var index := CountTexts(store, handles);
        result := Ok(if index.Some? && store.builds(index.value) then Ready(index.value) else Rejected);
    }
  }

  /** Count the terms of every text. */
  method CountTexts(store: Store, handles: set<Handle>) returns (index: Option<Index>)
    requires forall h | h in handles :: store.read(h).Text?
    ensures index == if forall h | h in handles :: Indexable(store, h) then Some(Image(store, handles)) else None
  {
    hide Countable, Frequencies, Increasing, Distinct;
    var ordered := Sorted(handles);
    var counted: Index := map[];
    for i := 0 to |ordered|
      invariant forall h | h in ordered[..i] :: Indexable(store, h)
      invariant forall h :: h in counted <==> h in ordered[..i]
      invariant forall h | h in counted :: h in handles && counted[h] == Frequencies(TokensOf(store, h))
    {
      var h := ordered[i];
      assert h in ordered;
      TakeNext(ordered, i);
      var frequencies := CountTerms(store.tokens(store.read(h).text));
      if frequencies.None? {
        assert !Indexable(store, h);
        return None;
      }
      counted := counted[h := frequencies.value];
    }
    TakeAll(ordered);
    assert counted == Image(store, handles);
    index := Some(counted);
  }

  // ---------------------------------------------------------------- the union

  /** Where two members count one document, the larger counts stand. */
  function MergeCounts(a: Counts, b: Counts): Counts {
    map t | t in a.Keys + b.Keys ::
      if t in a && t in b then (if a[t] < b[t] then b[t] else a[t]) else if t in a then a[t] else b[t]
  }

  function Merge(a: Index, b: Index): Index {
    map h | h in a.Keys + b.Keys ::
      if h in a && h in b then MergeCounts(a[h], b[h]) else if h in a then a[h] else b[h]
  }

  function MergeAll(images: seq<Index>): Index {
    if images == [] then map[] else Merge(MergeAll(images[..|images| - 1]), images[|images| - 1])
  }

  /** Members derived from one store never count a document differently. */
  lemma CountsAgree(store: Store, a: set<Handle>, b: set<Handle>, h: Handle)
    requires h in Image(store, a) && h in Image(store, b)
    ensures Image(store, a)[h] == Image(store, b)[h]
    ensures MergeCounts(Image(store, a)[h], Image(store, b)[h]) == Image(store, a)[h]
  {
  }

  lemma MergeImages(store: Store, a: set<Handle>, b: set<Handle>)
    ensures Merge(Image(store, a), Image(store, b)) == Image(store, a + b)
  {
    hide Frequencies, MergeCounts;
    forall h | h in a + b && store.read(h).Text?
      ensures Merge(Image(store, a), Image(store, b))[h] == Image(store, a + b)[h]
    {
      if h in a && h in b {
        CountsAgree(store, a, b, h);
      }
    }
  }

  /** Every member is derived, its image beside it. */
  ghost predicate EachReady(store: Store, members: seq<seq<Row>>, images: seq<Index>) {
    |images| == |members| && forall i | 0 <= i < |members| :: Derives(store, members[i], Ok(Ready(images[i])))
  }

  ghost function AllHandles(store: Store, members: seq<seq<Row>>): set<Handle> {
    if members == [] then {} else AllHandles(store, members[..|members| - 1]) + Handles(store, members[|members| - 1])
  }

  lemma {:induction false} MembersMerge(store: Store, members: seq<seq<Row>>, images: seq<Index>)
    requires EachReady(store, members, images)
    ensures MergeAll(images) == Image(store, AllHandles(store, members))
    decreases |members|
  {
    hide Frequencies, Canonical, Countable, Merge;
    if members != [] {
      var n := |members| - 1;
      MembersMerge(store, members[..n], images[..n]);
      MergeImages(store, AllHandles(store, members[..n]), Handles(store, members[n]));
    }
  }

  /** The members cover the whole: every row is some member's, and no other. */
  ghost predicate Covers(members: seq<seq<Row>>, whole: seq<Row>) {
    forall row :: row in whole <==> exists m | m in members :: row in m
  }

  lemma {:induction false} HandlesOfMembers(store: Store, members: seq<seq<Row>>, h: Handle)
    ensures h in AllHandles(store, members) <==> exists m | m in members :: h in Handles(store, m)
    decreases |members|
  {
    if members != [] {
      var n := |members| - 1;
      HandlesOfMembers(store, members[..n], h);
      assert members == members[..n] + [members[n]];
      if m :| m in members && h in Handles(store, m) {
        assert m in members[..n] || m == members[n];
      }
    }
  }

  lemma CoverHandles(store: Store, members: seq<seq<Row>>, whole: seq<Row>)
    requires Covers(members, whole)
    ensures AllHandles(store, members) == Handles(store, whole)
  {
    forall h ensures h in AllHandles(store, members) <==> h in Handles(store, whole) {
      HandlesOfMembers(store, members, h);
      if m :| m in members && h in Handles(store, m) {
        var row :| row in m && row.attribute == store.payload && row.value == h;
        assert row in whole;
      }
      if h in Handles(store, whole) {
        var row :| row in whole && row.attribute == store.payload && row.value == h;
        var m :| m in members && row in m;
        assert h in Handles(store, m);
      }
    }
  }

  /** Deriving commutes with union: merging the images of any members that cover a
      member, however they overlap and in whatever order, is its own image; it is
      ready exactly if its carrier can be built. */
  lemma DerivationIsHomomorphic(store: Store, members: seq<seq<Row>>, images: seq<Index>, whole: seq<Row>)
    requires Covers(members, whole) && Canonical(whole) && EachReady(store, members, images)
    ensures MergeAll(images) == Image(store, Handles(store, whole))
    ensures Derives(store, whole, Ok(if store.builds(MergeAll(images)) then Ready(MergeAll(images)) else Rejected))
  {
    hide Frequencies, Canonical, Countable, Covers, MergeAll, Derives;
    CoverHandles(store, members, whole);
    MembersMerge(store, members, images);
    forall h | h in Handles(store, whole) ensures Indexable(store, h) {
      HandlesOfMembers(store, members, h);
      var m :| m in members && h in Handles(store, m);
      var i :| 0 <= i < |members| && members[i] == m;
      ReadyIndexable(store, m, images[i], h);
    }
    ReadyWhole(store, whole, MergeAll(images));
  }

  lemma ReadyIndexable(store: Store, rows: seq<Row>, index: Index, h: Handle)
    requires Derives(store, rows, Ok(Ready(index))) && h in Handles(store, rows)
    ensures Indexable(store, h)
  {
  }

  lemma ReadyWhole(store: Store, rows: seq<Row>, index: Index)
    requires Canonical(rows) && forall h | h in Handles(store, rows) :: Indexable(store, h)
    requires index == Image(store, Handles(store, rows))
    ensures Derives(store, rows, Ok(if store.builds(index) then Ready(index) else Rejected))
  {
  }

  /** The carrier of this member's image can be built. */
  ghost predicate Buildable(store: Store, rows: seq<Row>) {
    store.builds(Image(store, Handles(store, rows)))
  }

  /** Every text of this member can be indexed. */
  ghost predicate AllIndexable(store: Store, rows: seq<Row>) {
    forall h | h in Handles(store, rows) :: Indexable(store, h)
  }

  ghost predicate IsReady(store: Store, rows: seq<Row>) {
    exists index :: Derives(store, rows, Ok(Ready(index)))
  }

  lemma ReadyIff(store: Store, rows: seq<Row>)
    requires Canonical(rows)
    ensures IsReady(store, rows) <==> AllIndexable(store, rows) && Buildable(store, rows)
  {
    hide Frequencies, Canonical, Countable;
    if AllIndexable(store, rows) && Buildable(store, rows) {
      ReadyWhole(store, rows, Image(store, Handles(store, rows)));
    }
  }

  /** A whole is ready exactly when its carrier can be built and every member is, as
      far as its texts go: where members' carriers can be built, when all are ready. */
  lemma ReadyIffMembersReady(store: Store, members: seq<seq<Row>>, whole: seq<Row>)
    requires Covers(members, whole) && Canonical(whole) && forall m | m in members :: Canonical(m)
    ensures IsReady(store, whole) <==> Buildable(store, whole) && forall m | m in members :: AllIndexable(store, m)
    ensures forall m | m in members :: IsReady(store, m) <==> AllIndexable(store, m) && Buildable(store, m)
  {
    hide Frequencies, Canonical, Covers, IsReady, Buildable, Indexable;
    CoverHandles(store, members, whole);
    forall h ensures h in Handles(store, whole) <==> exists m | m in members :: h in Handles(store, m) {
      HandlesOfMembers(store, members, h);
    }
    ReadyIff(store, whole);
    forall m | m in members ensures IsReady(store, m) <==> AllIndexable(store, m) && Buildable(store, m) {
      ReadyIff(store, m);
    }
  }

  /** One member, one outcome. */
  lemma OneOutcome(store: Store, rows: seq<Row>, r: Result<Validation, Handle>, r': Result<Validation, Handle>)
    requires Derives(store, rows, r) && Derives(store, rows, r')
    ensures r == r'
  {
    hide Frequencies, Canonical, Countable;
  }
}
