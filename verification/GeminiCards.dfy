/** Cutting a Gemini activity page into its outer cards by counting div tags. */
module GeminiCards {
  import opened Base
  import opened Bytes
  import opened HtmlTags

  /** Whether a tag's class attribute names an outer card; None where the attribute
      is not UTF-8. */
  type Marks = (seq<byte>, Tag) -> Option<bool>

  datatype Card = Card(start: nat, end: nat)

  datatype CardError = BadPage(error: TagError) | BadClass | Unterminated

  datatype Open = Open(start: nat, depth: nat)

  /** What the scanner knows after some tags. */
  datatype Scan = Scan(cards: seq<Card>, depth: nat, current: Option<Open>)

  function Lower(b: byte): byte {
    if 65 <= b <= 90 then b + 32 else b
  }

  /** The tag's name is div, in any case. */
  predicate IsDiv(bytes: seq<byte>, tag: Tag) {
    && tag.nameStart + 3 == tag.nameEnd && tag.nameEnd <= |bytes|
    && Lower(bytes[tag.nameStart]) == 100 && Lower(bytes[tag.nameStart + 1]) == 105
    && Lower(bytes[tag.nameStart + 2]) == 118
  }

  /** The spellings of div. */
  const DIV_NAMES: set<seq<byte>> :=
    {[100, 105, 118], [100, 105, 86], [100, 73, 118], [100, 73, 86],
     [68, 105, 118], [68, 105, 86], [68, 73, 118], [68, 73, 86]}

  lemma NamesDiv(bytes: seq<byte>, tag: Tag)
    requires tag.nameStart <= tag.nameEnd <= |bytes|
    ensures IsDiv(bytes, tag) <==> bytes[tag.nameStart..tag.nameEnd] in DIV_NAMES
  {
    var name := bytes[tag.nameStart..tag.nameEnd];
    if |name| == 3 {
      assert name == [bytes[tag.nameStart], bytes[tag.nameStart + 1], bytes[tag.nameStart + 2]];
    }
  }

  predicate Opens(bytes: seq<byte>, tag: Tag) {
    IsDiv(bytes, tag) && !tag.closing
  }

  predicate Closes(bytes: seq<byte>, tag: Tag) {
    IsDiv(bytes, tag) && tag.closing
  }

  predicate Marked(bytes: seq<byte>, marks: Marks, tag: Tag) {
    Opens(bytes, tag) && marks(bytes, tag) == Some(true)
  }

  function LessOne(depth: nat): nat {
    if depth == 0 then 0 else depth - 1
  }

  /** One tag more. */
  function Step(bytes: seq<byte>, marks: Marks, s: Scan, tag: Tag): Result<Scan, CardError> {
    if !IsDiv(bytes, tag) then Ok(s)
    else if tag.closing then
      if s.current.Some? && s.current.value.depth == s.depth then
        Ok(Scan(s.cards + [Card(s.current.value.start, tag.end)], LessOne(s.depth), None))
      else Ok(s.(depth := LessOne(s.depth)))
    else if s.current.None? && marks(bytes, tag).None? then Err(BadClass)
    else
      Ok(Scan(
        s.cards,
        if tag.selfClosing then s.depth else s.depth + 1,
        if s.current.None? && marks(bytes, tag).value then Some(Open(tag.start, s.depth + 1)) else s.current))
  }

  function Fold(bytes: seq<byte>, marks: Marks, tags: seq<Tag>): Result<Scan, CardError> {
    if tags == [] then Ok(Scan([], 0, None))
    else
      match Fold(bytes, marks, tags[..|tags| - 1])
      case Err(e) => Err(e)
      case Ok(s) => Step(bytes, marks, s, tags[|tags| - 1])
  }

  /** Where the search for tag k begins. */
  function Position(tags: seq<Tag>, k: nat): nat
    requires k <= |tags|
  {
    if k == 0 then 0 else tags[k - 1].end
  }

  /** These are the page's first tags, one after the other. */
  ghost predicate ReadInOrder(bytes: seq<byte>, tags: seq<Tag>) {
    forall k | 0 <= k < |tags| :: IsNextTag(bytes, Position(tags, k), Ok(Some(tags[k])))
  }

  /** These are all of the page's tags. */
  ghost predicate AllTags(bytes: seq<byte>, tags: seq<Tag>) {
    ReadInOrder(bytes, tags) && IsNextTag(bytes, Position(tags, |tags|), Ok(None))
  }

  // ------------------------------------------------------------------ the code

  /** Why a page is refused: its tags cannot be read on, a card's class cannot be
      read, or a card does not end. */
  ghost predicate Refused(bytes: seq<byte>, marks: Marks, tags: seq<Tag>, error: CardError) {
    ReadInOrder(bytes, tags) &&
    match error
    case BadPage(e) => Fold(bytes, marks, tags).Ok? && IsNextTag(bytes, Position(tags, |tags|), Err(e))
    case BadClass => Fold(bytes, marks, tags) == Err(BadClass)
    case Unterminated =>
      AllTags(bytes, tags) && Fold(bytes, marks, tags).Ok? && Fold(bytes, marks, tags).value.current.Some?
  }

  /** The page is cut into these cards. */
  ghost predicate CutInto(bytes: seq<byte>, marks: Marks, cards: seq<Card>) {
    exists tags, depth :: AllTags(bytes, tags) && Fold(bytes, marks, tags) == Ok(Scan(cards, depth, None))
  }

  /** All cards of the page, in page order. */
  method ScanOuterCards(bytes: seq<byte>, marks: Marks) returns (result: Result<seq<Card>, CardError>)
    ensures match result
            case Ok(cards) => CutInto(bytes, marks, cards)
            case Err(error) => exists tags :: Refused(bytes, marks, tags, error)
  {
    hide IsNextTag, IsDiv;
    var cards: seq<Card> := [];
    var position, divDepth := 0, 0;
    var current: Option<Open> := None;
    ghost var tags: seq<Tag> := [];
    while true
      invariant position == Position(tags, |tags|) <= |bytes| && ReadInOrder(bytes, tags)
      invariant Fold(bytes, marks, tags) == Ok(Scan(cards, divDepth, current))
      decreases |bytes| - position
    {
      var next := NextTag(bytes, position);
      if next.Err? {
        assert Refused(bytes, marks, tags, BadPage(next.error));
        return Err(BadPage(next.error));
      }
      if next.value.None? {
        break;
      }
      var tag := next.value.value;
      NextTagAhead(bytes, position, tag);
      ReadOn(bytes, tags, tag);
      FoldNext(bytes, marks, tags, tag);
      tags := tags + [tag];
      position := tag.end;
      if !IsDiv(bytes, tag) {
        continue;
      }
      if tag.closing {
        if current.Some? && current.value.depth == divDepth {
          cards := cards + [Card(current.value.start, tag.end)];
          current := None;
        }
        divDepth := LessOne(divDepth);
      } else {
        divDepth := divDepth + 1;
        if current.None? {
          var marked := marks(bytes, tag);
          if marked.None? {
            assert Refused(bytes, marks, tags, BadClass);
            return Err(BadClass);
          }
          if marked.value {
            current := Some(Open(tag.start, divDepth));
          }
        }
        if tag.selfClosing {
          divDepth := LessOne(divDepth);
        }
      }
    }
    if current.Some? {
      assert Refused(bytes, marks, tags, Unterminated);
      return Err(Unterminated);
    }
    result := Ok(cards);
  }

  lemma ReadOn(bytes: seq<byte>, tags: seq<Tag>, tag: Tag)
    requires ReadInOrder(bytes, tags) && IsNextTag(bytes, Position(tags, |tags|), Ok(Some(tag)))
    ensures ReadInOrder(bytes, tags + [tag])
  {
    hide IsNextTag;
    var more := tags + [tag];
    forall k | 0 <= k < |more| ensures IsNextTag(bytes, Position(more, k), Ok(Some(more[k]))) {
      assert Position(more, k) == Position(tags, k);
    }
  }

  lemma FoldNext(bytes: seq<byte>, marks: Marks, tags: seq<Tag>, tag: Tag)
    requires Fold(bytes, marks, tags).Ok?
    ensures Fold(bytes, marks, tags + [tag]) == Step(bytes, marks, Fold(bytes, marks, tags).value, tag)
  {
    assert (tags + [tag])[..|tags|] == tags;
  }

  // -------------------------------------------------------------- properties

  function Weight(bytes: seq<byte>, tag: Tag): int {
    if Closes(bytes, tag) then -1 else if Opens(bytes, tag) && !tag.selfClosing then 1 else 0
  }

  /** Div opens less div closes among the tags from i below j. */
  function Balance(bytes: seq<byte>, tags: seq<Tag>, i: nat, j: nat): int
    requires i <= j <= |tags|
    decreases j
  {
    if i == j then 0 else Balance(bytes, tags, i, j - 1) + Weight(bytes, tags[j - 1])
  }

  lemma {:induction false} BalancePrefix(bytes: seq<byte>, tags: seq<Tag>, more: seq<Tag>, i: nat, j: nat)
    requires i <= j <= |tags| && tags <= more
    ensures Balance(bytes, tags, i, j) == Balance(bytes, more, i, j)
    decreases j
  {
    hide Weight;
    if i < j {
      BalancePrefix(bytes, tags, more, i, j - 1);
    }
  }

  /** From tag i on the divs stay open until tag j. */
  ghost predicate StaysOpen(bytes: seq<byte>, tags: seq<Tag>, i: nat, j: nat)
    requires j <= |tags|
  {
    forall m: nat | i < m <= j :: Balance(bytes, tags, i, m) > 0
  }

  /** The card runs from tag i to tag j, and a card that opens a div ends exactly
      where its divs are first balanced. */
  ghost predicate IsCard(bytes: seq<byte>, marks: Marks, tags: seq<Tag>, c: Card, i: nat, j: nat) {
    && i < j < |tags| && c.start == tags[i].start && c.end == tags[j].end
    && Marked(bytes, marks, tags[i]) && Closes(bytes, tags[j])
    && (!tags[i].selfClosing ==> StaysOpen(bytes, tags, i, j) && Balance(bytes, tags, i, j + 1) == 0)
  }

  ghost predicate SomeCard(bytes: seq<byte>, marks: Marks, tags: seq<Tag>, c: Card) {
    exists i: nat, j: nat :: IsCard(bytes, marks, tags, c, i, j)
  }

  /** The open card began at tag i. */
  ghost predicate IsOpen(bytes: seq<byte>, marks: Marks, tags: seq<Tag>, open: Open, depth: nat, i: nat) {
    && i < |tags| && open.start == tags[i].start && open.depth > 0 && Marked(bytes, marks, tags[i])
    && (!tags[i].selfClosing ==>
          StaysOpen(bytes, tags, i, |tags|) && depth == open.depth - 1 + Balance(bytes, tags, i, |tags|))
  }

  ghost predicate SomeOpen(bytes: seq<byte>, marks: Marks, tags: seq<Tag>, open: Open, depth: nat) {
    exists i: nat :: IsOpen(bytes, marks, tags, open, depth, i)
  }

  /** The cards lie one after the other, and before what is open. */
  ghost predicate InPageOrder(cards: seq<Card>, limit: nat) {
    && (forall i | 0 <= i < |cards| :: cards[i].start < cards[i].end <= limit)
    && (forall i, j | 0 <= i < j < |cards| :: cards[i].end <= cards[j].start)
  }

  predicate Inside(tag: Tag, c: Card) {
    c.start <= tag.start && tag.end <= c.end
  }

  ghost predicate Held(s: Scan, tag: Tag) {
    (exists c | c in s.cards :: Inside(tag, c)) || (s.current.Some? && s.current.value.start <= tag.start)
  }

  ghost predicate Good(bytes: seq<byte>, marks: Marks, tags: seq<Tag>, s: Scan) {
    && InPageOrder(s.cards, if s.current.Some? then s.current.value.start else Position(tags, |tags|))
    && (s.current.Some? ==> s.current.value.start < Position(tags, |tags|))
    && (forall c | c in s.cards :: SomeCard(bytes, marks, tags, c))
    && (s.current.Some? ==> SomeOpen(bytes, marks, tags, s.current.value, s.depth))
    && (forall k | 0 <= k < |tags| && Marked(bytes, marks, tags[k]) :: Held(s, tags[k]))
  }

  lemma CardStays(bytes: seq<byte>, marks: Marks, tags: seq<Tag>, tag: Tag, c: Card)
    requires SomeCard(bytes, marks, tags, c)
    ensures SomeCard(bytes, marks, tags + [tag], c)
  {
    hide Marked, Closes, Balance;
    var i: nat, j: nat :| IsCard(bytes, marks, tags, c, i, j);
    StaysOpenMore(bytes, tags, tag, i, j);
    BalancePrefix(bytes, tags, tags + [tag], i, j + 1);
    assert IsCard(bytes, marks, tags + [tag], c, i, j);
  }

  lemma StaysOpenMore(bytes: seq<byte>, tags: seq<Tag>, tag: Tag, i: nat, j: nat)
    requires j <= |tags|
    ensures StaysOpen(bytes, tags, i, j) <==> StaysOpen(bytes, tags + [tag], i, j)
  {
    hide Balance;
    forall m: nat | i < m <= j ensures Balance(bytes, tags, i, m) == Balance(bytes, tags + [tag], i, m) {
      BalancePrefix(bytes, tags, tags + [tag], i, m);
    }
  }

  /** One tag more inside an open card. */
  lemma OpenNext(bytes: seq<byte>, marks: Marks, tags: seq<Tag>, tag: Tag, s: Scan)
    requires s.current.Some? && SomeOpen(bytes, marks, tags, s.current.value, s.depth)
    requires Step(bytes, marks, s, tag).Ok?
    ensures var next := Step(bytes, marks, s, tag).value;
            if next.current.Some? then
              next.current == s.current && SomeOpen(bytes, marks, tags + [tag], s.current.value, next.depth)
            else
              next.cards == s.cards + [Card(s.current.value.start, tag.end)] && Closes(bytes, tag)
              && SomeCard(bytes, marks, tags + [tag], Card(s.current.value.start, tag.end))
  {
    hide Marked, IsDiv;
    var open := s.current.value;
    var i: nat :| IsOpen(bytes, marks, tags, open, s.depth, i);
    var more := tags + [tag];
    var n := |tags|;
    StaysOpenMore(bytes, tags, tag, i, n);
    BalancePrefix(bytes, tags, more, i, n);
    assert Balance(bytes, more, i, n + 1) == Balance(bytes, more, i, n) + Weight(bytes, tag);
    var next := Step(bytes, marks, s, tag).value;
    if next.current.Some? {
      assert IsOpen(bytes, marks, more, open, next.depth, i);
    } else {
      assert IsCard(bytes, marks, more, Card(open.start, tag.end), i, n);
    }
  }

  lemma CardStarts(bytes: seq<byte>, marks: Marks, tags: seq<Tag>, tag: Tag, depth: nat)
    requires Marked(bytes, marks, tag)
    ensures var next := if tag.selfClosing then depth else depth + 1;
            SomeOpen(bytes, marks, tags + [tag], Open(tag.start, depth + 1), next)
  {
    var more := tags + [tag];
    var n := |tags|;
    assert Balance(bytes, more, n, n + 1) == Balance(bytes, more, n, n) + Weight(bytes, tag);
    assert IsOpen(bytes, marks, more, Open(tag.start, depth + 1), if tag.selfClosing then depth else depth + 1, n);
  }

  lemma HeldNext(bytes: seq<byte>, marks: Marks, tags: seq<Tag>, s: Scan, tag: Tag, x: Tag)
    requires Step(bytes, marks, s, tag).Ok? && Held(s, x) && x.end <= tag.end
    ensures Held(Step(bytes, marks, s, tag).value, x)
  {
    hide IsDiv;
    var next := Step(bytes, marks, s, tag).value;
    if c :| c in s.cards && Inside(x, c) {
      assert c in next.cards;
    } else if next.current.None? {
      var c := Card(s.current.value.start, tag.end);
      assert next.cards == s.cards + [c];
      assert c in next.cards && Inside(x, c);
    }
  }

  lemma StepGood(bytes: seq<byte>, marks: Marks, tags: seq<Tag>, tag: Tag, s: Scan)
    requires ReadInOrder(bytes, tags + [tag]) && Good(bytes, marks, tags, s) && Step(bytes, marks, s, tag).Ok?
    ensures Good(bytes, marks, tags + [tag], Step(bytes, marks, s, tag).value)
  {
    hide IsDiv, Marked, SomeCard, SomeOpen, InPageOrder, Held, IsNextTag;
    var next := Step(bytes, marks, s, tag).value;
    var more := tags + [tag];
    Ahead(bytes, tags, tag);
    if s.current.Some? {
      OpenNext(bytes, marks, tags, tag, s);
    } else if next.current.Some? {
      MarkedNext(bytes, marks, s, tag);
      CardStarts(bytes, marks, tags, tag, s.depth);
    }
    OrderNext(bytes, marks, tags, tag, s);
    forall c | c in next.cards ensures SomeCard(bytes, marks, more, c) {
      if c in s.cards {
        CardStays(bytes, marks, tags, tag, c);
      }
    }
    forall k | 0 <= k < |more| && Marked(bytes, marks, more[k]) ensures Held(next, more[k]) {
      if k < |tags| {
        EndsBefore(bytes, tags, tag, k);
        HeldNext(bytes, marks, tags, s, tag, tags[k]);
      } else {
        NewHeld(bytes, marks, s, tag, Position(tags, |tags|));
      }
    }
  }

  lemma Ahead(bytes: seq<byte>, tags: seq<Tag>, tag: Tag)
    requires ReadInOrder(bytes, tags + [tag])
    ensures Position(tags, |tags|) <= tag.start < tag.end && Position(tags + [tag], |tags| + 1) == tag.end
  {
    hide IsNextTag;
    var more := tags + [tag];
    assert IsNextTag(bytes, Position(more, |tags|), Ok(Some(more[|tags|])));
    assert Position(more, |tags|) == Position(tags, |tags|);
    NextTagAhead(bytes, Position(tags, |tags|), tag);
  }

  lemma {:induction false} EndsInOrder(bytes: seq<byte>, tags: seq<Tag>, k: nat, n: nat)
    requires ReadInOrder(bytes, tags) && k < n <= |tags|
    ensures tags[k].end <= Position(tags, n)
    decreases n
  {
    hide IsNextTag;
    if k < n - 1 {
      EndsInOrder(bytes, tags, k, n - 1);
      NextTagAhead(bytes, Position(tags, n - 1), tags[n - 1]);
    }
  }

  lemma EndsBefore(bytes: seq<byte>, tags: seq<Tag>, tag: Tag, k: nat)
    requires ReadInOrder(bytes, tags + [tag]) && k < |tags|
    ensures tags[k].end <= tag.end
  {
    hide IsNextTag;
    EndsInOrder(bytes, tags + [tag], k, |tags| + 1);
  }

  lemma MarkedNext(bytes: seq<byte>, marks: Marks, s: Scan, tag: Tag)
    requires s.current.None? && Step(bytes, marks, s, tag).Ok? && Step(bytes, marks, s, tag).value.current.Some?
    ensures Marked(bytes, marks, tag)
    ensures var next := Step(bytes, marks, s, tag).value;
            && next.current == Some(Open(tag.start, s.depth + 1)) && next.cards == s.cards
            && next.depth == if tag.selfClosing then s.depth else s.depth + 1
  {
  }

  lemma OrderNext(bytes: seq<byte>, marks: Marks, tags: seq<Tag>, tag: Tag, s: Scan)
    requires Step(bytes, marks, s, tag).Ok?
    requires InPageOrder(s.cards, if s.current.Some? then s.current.value.start else Position(tags, |tags|))
    requires s.current.Some? ==> s.current.value.start < Position(tags, |tags|)
    requires Position(tags, |tags|) <= tag.start < tag.end
    ensures var next := Step(bytes, marks, s, tag).value;
            && InPageOrder(next.cards, if next.current.Some? then next.current.value.start else tag.end)
            && (next.current.Some? ==> next.current.value.start < tag.end)
  {
    hide IsDiv;
  }

  lemma NewHeld(bytes: seq<byte>, marks: Marks, s: Scan, tag: Tag, position: nat)
    requires Step(bytes, marks, s, tag).Ok? && Marked(bytes, marks, tag)
    requires s.current.Some? ==> s.current.value.start < position
    requires position <= tag.start
    ensures Held(Step(bytes, marks, s, tag).value, tag)
  {
    hide IsDiv;
  }

  lemma {:induction false} FoldGood(bytes: seq<byte>, marks: Marks, tags: seq<Tag>)
    requires ReadInOrder(bytes, tags) && Fold(bytes, marks, tags).Ok?
    ensures Good(bytes, marks, tags, Fold(bytes, marks, tags).value)
    decreases |tags|
  {
    hide Good, IsNextTag, Step;
    if tags == [] {
      NothingGood(bytes, marks);
    } else {
      var n := |tags| - 1;
      assert tags[..n] + [tags[n]] == tags;
      ReadLess(bytes, tags, n);
      FoldGood(bytes, marks, tags[..n]);
      StepGood(bytes, marks, tags[..n], tags[n], Fold(bytes, marks, tags[..n]).value);
    }
  }

  lemma NothingGood(bytes: seq<byte>, marks: Marks)
    ensures Good(bytes, marks, [], Scan([], 0, None))
  {
  }

  lemma ReadLess(bytes: seq<byte>, tags: seq<Tag>, n: nat)
    requires ReadInOrder(bytes, tags) && n <= |tags|
    ensures ReadInOrder(bytes, tags[..n])
  {
    hide IsNextTag;
    forall k | 0 <= k < n ensures IsNextTag(bytes, Position(tags[..n], k), Ok(Some(tags[..n][k]))) {
      assert Position(tags[..n], k) == Position(tags, k);
    }
  }

  lemma {:induction false} OneReading(bytes: seq<byte>, tags: seq<Tag>, tags': seq<Tag>, n: nat)
    requires ReadInOrder(bytes, tags) && ReadInOrder(bytes, tags') && n <= |tags| && n <= |tags'|
    ensures tags[..n] == tags'[..n]
    decreases n
  {
    hide IsNextTag;
    if n > 0 {
      OneReading(bytes, tags, tags', n - 1);
      assert tags[..n - 1] == tags'[..n - 1];
      assert forall i | 0 <= i < n - 1 :: tags[i] == tags[..n - 1][i] && tags'[i] == tags'[..n - 1][i];
      assert Position(tags, n - 1) == Position(tags', n - 1);
      OneNextTag(bytes, Position(tags, n - 1), Ok(Some(tags[n - 1])), Ok(Some(tags'[n - 1])));
    }
  }

  /** A page has one list of tags, and so one list of cards. */
  lemma OneTagList(bytes: seq<byte>, tags: seq<Tag>, tags': seq<Tag>)
    requires AllTags(bytes, tags) && AllTags(bytes, tags') && |tags| <= |tags'|
    ensures tags == tags'
  {
    hide IsNextTag, ReadInOrder;
    var n := |tags|;
    OneReading(bytes, tags, tags', n);
    if n < |tags'| {
      LastPosition(bytes, tags, tags');
      NextOf(bytes, tags', n);
      OneNextTag(bytes, Position(tags, n), Ok(None), Ok(Some(tags'[n])));
    }
  }

  lemma LastPosition(bytes: seq<byte>, tags: seq<Tag>, tags': seq<Tag>)
    requires |tags| <= |tags'| && tags == tags'[..|tags|]
    ensures Position(tags, |tags|) == Position(tags', |tags|)
  {
  }

  lemma NextOf(bytes: seq<byte>, tags: seq<Tag>, n: nat)
    requires ReadInOrder(bytes, tags) && n < |tags|
    ensures IsNextTag(bytes, Position(tags, n), Ok(Some(tags[n])))
  {
  }

  // ------------------------------------------------------------ main result

  /** The cards of a page lie one after the other; each runs from a marked opening
      div to a closing one, balanced there and nowhere before unless its own tag
      closes itself; and no marked opening div is left outside. */
  lemma CardsOfPage(bytes: seq<byte>, marks: Marks, tags: seq<Tag>, cards: seq<Card>, depth: nat)
    requires AllTags(bytes, tags) && Fold(bytes, marks, tags) == Ok(Scan(cards, depth, None))
    ensures InPageOrder(cards, |bytes|)
    ensures forall c | c in cards :: SomeCard(bytes, marks, tags, c)
    ensures forall k | 0 <= k < |tags| && Marked(bytes, marks, tags[k]) :: exists c | c in cards :: Inside(tags[k], c)
  {
    hide IsNextTag, SomeCard, Marked, Inside, Fold;
    FoldGood(bytes, marks, tags);
    if tags != [] {
      NextTagAhead(bytes, Position(tags, |tags| - 1), tags[|tags| - 1]);
    }
    forall k | 0 <= k < |tags| && Marked(bytes, marks, tags[k]) ensures exists c | c in cards :: Inside(tags[k], c) {
      assert Held(Scan(cards, depth, None), tags[k]);
    }
  }

  /** A page is cut in one way. */
  lemma OneCut(bytes: seq<byte>, marks: Marks, cards: seq<Card>, cards': seq<Card>)
    requires CutInto(bytes, marks, cards) && CutInto(bytes, marks, cards')
    ensures cards == cards'
  {
    hide AllTags, Fold;
    var tags, depth :| AllTags(bytes, tags) && Fold(bytes, marks, tags) == Ok(Scan(cards, depth, None));
    var tags', depth' :| AllTags(bytes, tags') && Fold(bytes, marks, tags') == Ok(Scan(cards', depth', None));
    if |tags| <= |tags'| {
      OneTagList(bytes, tags, tags');
    } else {
      OneTagList(bytes, tags', tags);
    }
  }

  // ---------------------------------------------------- self-closing openings

  /** A card first balances where it ends exactly if its opening tag does not close
      itself. */
  lemma BalancedIffNotSelfClosing(bytes: seq<byte>, marks: Marks, tags: seq<Tag>, c: Card, i: nat, j: nat)
    requires IsCard(bytes, marks, tags, c, i, j)
    ensures StaysOpen(bytes, tags, i, j) && Balance(bytes, tags, i, j + 1) == 0 <==> !tags[i].selfClosing
  {
    if tags[i].selfClosing {
      assert Balance(bytes, tags, i, i) == 0;
      assert Balance(bytes, tags, i, i + 1) == 0;
    }
  }

  /** `<div class=`, up to the quoted value */
  const TAG_OPENING: seq<byte> := [60, 100, 105, 118, 32, 99, 108, 97, 115, 115, 61]

  /** outer-cell mdl-cell--12-col mdl-shadow--2dp */
  const CARD_CLASSES: seq<byte> := [
    111, 117, 116, 101, 114, 45, 99, 101, 108, 108, 32, 109, 100, 108, 45, 99, 101, 108, 108, 45, 45, 49, 50,
    45, 99, 111, 108, 32, 109, 100, 108, 45, 115, 104, 97, 100, 111, 119, 45, 45, 50, 100, 112
  ]

  /** `/><div></div>` */
  const PAGE_REST: seq<byte> := [47, 62, 60, 100, 105, 118, 62, 60, 47, 100, 105, 118, 62]

  /** A page whose one card is opened by a tag that closes itself. */
  const PAGE: seq<byte> := TAG_OPENING + [DOUBLE] + CARD_CLASSES + [DOUBLE] + PAGE_REST

  const PAGE_TAGS := [
    Tag(0, 58, 1, 4, false, true), Tag(58, 63, 59, 62, false, false), Tag(63, 69, 65, 68, true, false)
  ]

  /** What the class attributes of the page's tags say: the first has one, and it
      names a card's classes; the others have none. */
  function FirstMarked(bytes: seq<byte>, tag: Tag): Option<bool> {
    Some(tag.start == 0)
  }

  lemma PageFolds()
    ensures Fold(PAGE, FirstMarked, PAGE_TAGS) == Ok(Scan([Card(0, 69)], 0, None))
  {
    var tags := PAGE_TAGS;
    assert tags[..2] == [tags[0], tags[1]];
    assert [tags[0], tags[1]][..1] == [tags[0]];
    assert [tags[0]][..0] == [];
    assert Fold(PAGE, FirstMarked, [tags[0]]) == Ok(Scan([], 0, Some(Open(0, 1))));
    assert Fold(PAGE, FirstMarked, [tags[0], tags[1]]) == Ok(Scan([], 1, Some(Open(0, 1))));
    assert Closes(PAGE, tags[2]);
    assert [] + [Card(0, 69)] == [Card(0, 69)];
    assert Step(PAGE, FirstMarked, Scan([], 1, Some(Open(0, 1))), tags[2]) == Ok(Scan([Card(0, 69)], 0, None));
    assert Fold(PAGE, FirstMarked, tags[..2]) == Ok(Scan([], 1, Some(Open(0, 1))));
  }

  /** The tag is written plainly: no quote and no `>` before its own. */
  lemma PlainEnd(bytes: seq<byte>, from: nat, i: nat)
    requires from <= i < |bytes| && bytes[i] == GREATER
    requires forall k | from <= k < i :: bytes[k] != GREATER && bytes[k] != QUOTE && bytes[k] != DOUBLE
    ensures EndsAt(bytes, from, i)
  {
    NoQuote(bytes, from, i);
  }

  lemma {:induction false} NoQuote(bytes: seq<byte>, from: nat, limit: nat)
    requires from <= limit <= |bytes| && forall k | from <= k < limit :: bytes[k] != QUOTE && bytes[k] != DOUBLE
    ensures QuoteAt(bytes, from, limit).None?
    decreases limit
  {
    if from < limit {
      NoQuote(bytes, from, limit - 1);
    }
  }

  /** A tag without spaces, quotes or attributes. */
  ghost predicate Plain(bytes: seq<byte>, tag: Tag) {
    && tag.start + 2 < tag.end <= |bytes| && bytes[tag.start] == LESS && bytes[tag.end - 1] == GREATER
    && (forall k | tag.start < k < tag.end - 1 ::
          bytes[k] != GREATER && bytes[k] != QUOTE && bytes[k] != DOUBLE && !Space(bytes[k]))
    && bytes[tag.start + 1] != COMMENT_OPEN[1]
    && (tag.closing <==> bytes[tag.start + 1] == SLASH)
    && tag.nameStart == tag.start + (if tag.closing then 2 else 1) && tag.nameStart <= tag.nameEnd < tag.end
    && (forall k | tag.nameStart <= k < tag.nameEnd :: NameByte(bytes[k]))
    && (tag.nameEnd < tag.end - 1 ==> !NameByte(bytes[tag.nameEnd]))
    && (tag.selfClosing <==> bytes[tag.end - 2] == SLASH)
  }

  lemma PlainDescribed(bytes: seq<byte>, tag: Tag)
    requires Plain(bytes, tag)
    ensures Describes(bytes, tag)
  {
    PlainEnd(bytes, tag.start + 1, tag.end - 1);
    hide EndsAt, NameByte;
    assert SpacesEnd(bytes, tag.start + 1, tag.end - 1, tag.start + 1);
    assert tag.closing ==> SpacesEnd(bytes, tag.start + 2, tag.end - 1, tag.nameStart);
    assert TextEnds(bytes, tag, tag.end - 1);
  }

  lemma PlainIsNext(bytes: seq<byte>, tag: Tag)
    requires Plain(bytes, tag)
    ensures IsNextTag(bytes, tag.start, Ok(Some(tag)))
  {
    PlainDescribed(bytes, tag);
    hide Describes, Space, NameByte;
    assert bytes[tag.start..tag.start + 1] == [LESS];
    assert tag.start + 4 <= |bytes| ==> bytes[tag.start..tag.start + 4][1] == bytes[tag.start + 1];
  }

  lemma {:induction false} QuoteStays(bytes: seq<byte>, from: nat, at: nat, limit: nat)
    requires from <= at <= limit <= |bytes| && QuoteAt(bytes, from, at).Some?
    requires forall k | at <= k < limit :: bytes[k] != QuoteAt(bytes, from, at).value
    ensures QuoteAt(bytes, from, limit) == QuoteAt(bytes, from, at)
    decreases limit
  {
    if at < limit {
      QuoteStays(bytes, from, at, limit - 1);
    }
  }

  lemma PageBytes()
    ensures |TAG_OPENING| == 11 && |CARD_CLASSES| == 43 && |PAGE| == 69
    ensures PAGE[..11] == TAG_OPENING && PAGE[11] == DOUBLE && PAGE[12..55] == CARD_CLASSES && PAGE[55] == DOUBLE
    ensures PAGE[56..] == PAGE_REST
  {
  }

  /** In the first tag only the value of the class attribute is quoted. */
  lemma PageQuotes()
    ensures |PAGE| == 69 && QuoteAt(PAGE, 1, 57).None?
    ensures forall k | 0 < k < 57 :: PAGE[k] != GREATER
  {
    PageBytes();
    forall k | 0 <= k < 11 ensures PAGE[k] != DOUBLE && PAGE[k] != QUOTE && PAGE[k] != GREATER {
      assert PAGE[k] == PAGE[..11][k];
    }
    NoQuote(PAGE, 1, 11);
    assert QuoteAt(PAGE, 1, 12) == Some(DOUBLE);
    forall k | 12 <= k < 55 ensures PAGE[k] != DOUBLE && PAGE[k] != GREATER {
      assert PAGE[k] == PAGE[12..55][k - 12];
      ClassByte(k - 12);
    }
    QuoteStays(PAGE, 1, 12, 55);
    assert PAGE[56] == PAGE[56..][0];
  }

  lemma ClassByte(k: nat)
    requires k < |CARD_CLASSES|
    ensures CARD_CLASSES[k] != DOUBLE && CARD_CLASSES[k] != GREATER
  {
  }

  lemma FirstPageTag()
    ensures IsNextTag(PAGE, 0, Ok(Some(PAGE_TAGS[0])))
  {
    var tag := PAGE_TAGS[0];
    PageBytes();
    PageQuotes();
    hide QuoteAt;
    forall k | 0 <= k < 5 ensures PAGE[k] == TAG_OPENING[k] {
      assert PAGE[k] == PAGE[..11][k];
    }
    assert PAGE[56] == PAGE[56..][0] && PAGE[57] == PAGE[56..][1];
    assert EndsAt(PAGE, 1, 57);
    assert SpacesEnd(PAGE, 1, 57, 1);
    assert TextEnds(PAGE, tag, 57);
    assert Describes(PAGE, tag);
    assert PAGE[0..1] == [LESS];
    assert PAGE[0..4][1] == PAGE[1];
  }

  /** <div> */
  lemma PlainOpening(bytes: seq<byte>, s: nat)
    requires s + 5 <= |bytes| && bytes[s..s + 5] == [60, 100, 105, 118, 62]
    ensures IsNextTag(bytes, s, Ok(Some(Tag(s, s + 5, s + 1, s + 4, false, false))))
  {
    var word := bytes[s..s + 5];
    assert word[0] == bytes[s] && word[1] == bytes[s + 1] && word[2] == bytes[s + 2];
    assert word[3] == bytes[s + 3] && word[4] == bytes[s + 4];
    assert Plain(bytes, Tag(s, s + 5, s + 1, s + 4, false, false));
    PlainIsNext(bytes, Tag(s, s + 5, s + 1, s + 4, false, false));
  }

  /** </div> */
  lemma PlainClosing(bytes: seq<byte>, s: nat)
    requires s + 6 <= |bytes| && bytes[s..s + 6] == [60, 47, 100, 105, 118, 62]
    ensures IsNextTag(bytes, s, Ok(Some(Tag(s, s + 6, s + 2, s + 5, true, false))))
  {
    var word := bytes[s..s + 6];
    assert word[0] == bytes[s] && word[1] == bytes[s + 1] && word[2] == bytes[s + 2];
    assert word[3] == bytes[s + 3] && word[4] == bytes[s + 4] && word[5] == bytes[s + 5];
    assert Plain(bytes, Tag(s, s + 6, s + 2, s + 5, true, false));
    PlainIsNext(bytes, Tag(s, s + 6, s + 2, s + 5, true, false));
  }

  lemma PlainPageTags()
    ensures IsNextTag(PAGE, 58, Ok(Some(PAGE_TAGS[1]))) && IsNextTag(PAGE, 63, Ok(Some(PAGE_TAGS[2])))
  {
    hide IsNextTag;
    PageBytes();
    assert PAGE[58..63] == PAGE[56..][2..7] && PAGE[63..69] == PAGE[56..][7..13];
    assert PAGE_REST[2..7] == [60, 100, 105, 118, 62] && PAGE_REST[7..13] == [60, 47, 100, 105, 118, 62];
    PlainOpening(PAGE, 58);
    PlainClosing(PAGE, 63);
  }

  lemma NoMoreTags()
    ensures IsNextTag(PAGE, 69, Ok(None))
  {
    PageBytes();
    forall j | 69 <= j ensures !At(PAGE, j, [LESS]) {
    }
  }

  lemma PageRead()
    ensures AllTags(PAGE, PAGE_TAGS)
  {
    hide IsNextTag;
    FirstPageTag();
    PlainPageTags();
    NoMoreTags();
    forall k | 0 <= k < 3 ensures IsNextTag(PAGE, Position(PAGE_TAGS, k), Ok(Some(PAGE_TAGS[k]))) {
      assert k == 0 || k == 1 || k == 2;
    }
  }

  /** A card whose opening tag closes itself can still hold as many opened as
      closed divs; what it lacks is that they first balance at its end. */
  lemma SelfClosingCard()
    ensures CutInto(PAGE, FirstMarked, [Card(0, 69)])
    ensures PAGE_TAGS[0].selfClosing && Balance(PAGE, PAGE_TAGS, 0, 3) == 0 && !StaysOpen(PAGE, PAGE_TAGS, 0, 2)
  {
    hide IsNextTag, Fold;
    PageRead();
    PageFolds();
    assert Balance(PAGE, PAGE_TAGS, 0, 0) == 0;
    assert Balance(PAGE, PAGE_TAGS, 0, 1) == 0;
    assert Balance(PAGE, PAGE_TAGS, 0, 2) == 1;
  }
}
