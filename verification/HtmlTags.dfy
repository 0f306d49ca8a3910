/** The next tag of an HTML page, found byte by byte. */
module HtmlTags {
  import opened Base
  import opened Bytes

  datatype Tag = Tag(start: nat, end: nat, nameStart: nat, nameEnd: nat, closing: bool, selfClosing: bool)

  datatype TagError = UnterminatedComment | UnterminatedTag

  const LESS: byte := 60
  const GREATER: byte := 62
  const SLASH: byte := 47
  const QUOTE: byte := 39
  const DOUBLE: byte := 34

  const COMMENT_OPEN: seq<byte> := [60, 33, 45, 45]
  const COMMENT_CLOSE: seq<byte> := [45, 45, 62]

  predicate At(bytes: seq<byte>, i: int, word: seq<byte>) {
    0 <= i <= |bytes| - |word| && bytes[i..i + |word|] == word
  }

  // ------------------------------------------------------- what is looked for

  /** Position i is the first from `from` on at which the word stands. */
  ghost predicate FirstAt(bytes: seq<byte>, from: nat, word: seq<byte>, i: nat) {
    from <= i && At(bytes, i, word) && forall j | from <= j < i :: !At(bytes, j, word)
  }

  ghost predicate NowhereFrom(bytes: seq<byte>, from: nat, word: seq<byte>) {
    forall j | from <= j :: !At(bytes, j, word)
  }

  /** The quote still open at `limit`, reading from `from` outside quotes. */
  function QuoteAt(bytes: seq<byte>, from: nat, limit: nat): Option<byte>
    requires from <= limit <= |bytes|
    decreases limit
  {
    if from == limit then None
    else
      var before := QuoteAt(bytes, from, limit - 1);
      var b := bytes[limit - 1];
      if before.Some? then (if b == before.value then None else before)
      else if b == QUOTE || b == DOUBLE then Some(b)
      else None
  }

  predicate Ends(bytes: seq<byte>, from: nat, i: nat) {
    from <= i < |bytes| && bytes[i] == GREATER && QuoteAt(bytes, from, i).None?
  }

  /** The tag opened just before `from` ends at i: the first `>` outside quotes. */
  ghost predicate EndsAt(bytes: seq<byte>, from: nat, i: nat) {
    Ends(bytes, from, i) && forall j: nat | from <= j < i :: !Ends(bytes, from, j)
  }

  ghost predicate NeverEnds(bytes: seq<byte>, from: nat) {
    forall j: nat | from <= j :: !Ends(bytes, from, j)
  }

  /** The first byte from `from` below `limit` that is no space, or `limit`. */
  ghost predicate SpacesEnd(bytes: seq<byte>, from: nat, limit: nat, i: nat)
    requires limit <= |bytes|
  {
    from <= i <= limit && (forall j | from <= j < i :: Space(bytes[j])) && (i < limit ==> !Space(bytes[i]))
  }

  /** The byte before e is the tag's last before its `>` that is no space. */
  ghost predicate TextEnds(bytes: seq<byte>, tag: Tag, e: nat)
    requires tag.end <= |bytes|
  {
    tag.start < e < tag.end && (forall j | e <= j < tag.end - 1 :: Space(bytes[j])) && !Space(bytes[e - 1])
  }

  predicate NameByte(b: byte) {
    !Space(b) && b != SLASH && b != GREATER
  }

  /** A tag as its bytes say: its end, its name, its slashes. */
  ghost predicate Describes(bytes: seq<byte>, tag: Tag) {
    && tag.start + 1 < tag.end <= |bytes| && bytes[tag.start] == LESS
    && EndsAt(bytes, tag.start + 1, tag.end - 1)
    && tag.start < tag.nameStart <= tag.nameEnd < tag.end
    && (forall j | tag.nameStart <= j < tag.nameEnd :: NameByte(bytes[j]))
    && (tag.nameEnd < tag.end - 1 ==> !NameByte(bytes[tag.nameEnd]))
    && (exists s: nat ::
          && SpacesEnd(bytes, tag.start + 1, tag.end - 1, s)
          && (tag.closing <==> bytes[s] == SLASH)
          && (if tag.closing then SpacesEnd(bytes, s + 1, tag.end - 1, tag.nameStart) else tag.nameStart == s))
    && (exists e: nat :: TextEnds(bytes, tag, e) && (tag.selfClosing <==> bytes[e - 1] == SLASH))
  }

  /** A comment counts as a self-closing tag without a name. */
  ghost predicate DescribesComment(bytes: seq<byte>, tag: Tag) {
    && tag.end >= tag.start + 7 && At(bytes, tag.start, COMMENT_OPEN)
    && FirstAt(bytes, tag.start + 4, COMMENT_CLOSE, tag.end - 3)
    && tag == Tag(tag.start, tag.end, tag.start + 1, tag.start + 1, false, true)
  }

  /** What the next tag from `from` on comes to. */
  ghost predicate IsNextTag(bytes: seq<byte>, from: nat, result: Result<Option<Tag>, TagError>) {
    match result
    case Ok(None) => NowhereFrom(bytes, from, [LESS])
    case Ok(Some(tag)) =>
      && FirstAt(bytes, from, [LESS], tag.start)
      && if At(bytes, tag.start, COMMENT_OPEN) then DescribesComment(bytes, tag) else Describes(bytes, tag)
    case Err(UnterminatedComment) =>
      exists s: nat :: FirstAt(bytes, from, [LESS], s) && At(bytes, s, COMMENT_OPEN) &&
          NowhereFrom(bytes, s + 4, COMMENT_CLOSE)
    case Err(UnterminatedTag) =>
      exists s: nat :: FirstAt(bytes, from, [LESS], s) && !At(bytes, s, COMMENT_OPEN) && NeverEnds(bytes, s + 1)
  }

  // ------------------------------------------------------------------ the code

  method Find(bytes: seq<byte>, from: nat, word: seq<byte>) returns (found: Option<nat>)
    requires from <= |bytes| && word != []
    ensures found.Some? ==> FirstAt(bytes, from, word, found.value)
    ensures found.None? ==> NowhereFrom(bytes, from, word)
  {
    var i := from;
    while i + |word| <= |bytes|
      invariant from <= i
      invariant forall j | from <= j < i :: !At(bytes, j, word)
    {
      if bytes[i..i + |word|] == word {
        return Some(i);
      }
      i := i + 1;
    }
    found := None;
  }

  /** The end of the tag whose first byte after `<` is at `from`. */
  method FindEnd(bytes: seq<byte>, from: nat) returns (cursor: nat)
    requires from <= |bytes|
    ensures from <= cursor <= |bytes|
    ensures cursor < |bytes| ==> EndsAt(bytes, from, cursor)
    ensures cursor == |bytes| ==> NeverEnds(bytes, from)
  {
    var quote: Option<byte> := None;
    cursor := from;
    while cursor < |bytes|
      invariant from <= cursor <= |bytes| && quote == QuoteAt(bytes, from, cursor)
      invariant forall j: nat | from <= j < cursor :: !Ends(bytes, from, j)
    {
      var b := bytes[cursor];
      if quote.Some? {
        if b == quote.value {
          quote := None;
        }
      } else if b == QUOTE || b == DOUBLE {
        quote := Some(b);
      } else if b == GREATER {
        return;
      }
      cursor := cursor + 1;
    }
  }

  method SkipSpaces(bytes: seq<byte>, from: nat, limit: nat) returns (i: nat)
    requires from <= limit <= |bytes|
    ensures SpacesEnd(bytes, from, limit, i)
  {
    i := from;
    while i < limit && Space(bytes[i])
      invariant from <= i <= limit && forall j | from <= j < i :: Space(bytes[j])
    {
      i := i + 1;
    }
  }

  method SkipName(bytes: seq<byte>, from: nat, limit: nat) returns (i: nat)
    requires from <= limit <= |bytes|
    ensures from <= i <= limit && (forall j | from <= j < i :: NameByte(bytes[j])) &&
            (i < limit ==> !NameByte(bytes[i]))
  {
    i := from;
    while i < limit && NameByte(bytes[i])
      invariant from <= i <= limit && forall j | from <= j < i :: NameByte(bytes[j])
    {
      i := i + 1;
    }
  }

  /** The tag at `start` whose `>` is at `cursor`. */
  method ReadTag(bytes: seq<byte>, start: nat, cursor: nat) returns (tag: Tag)
    requires start < cursor < |bytes| && bytes[start] == LESS && EndsAt(bytes, start + 1, cursor)
    ensures tag.start == start && Describes(bytes, tag)
  {
    hide Ends;
    assert bytes[cursor] == GREATER by { EndIsGreater(bytes, start + 1, cursor); }
    var first := SkipSpaces(bytes, start + 1, cursor);
    var nameStart := first;
    var closing := bytes[first] == SLASH;
    if closing {
      nameStart := SkipSpaces(bytes, first + 1, cursor);
    }
    var nameEnd := SkipName(bytes, nameStart, cursor);
    var beforeClose := cursor;
    while beforeClose > start && Space(bytes[beforeClose - 1])
      invariant start < beforeClose <= cursor && forall j | beforeClose <= j < cursor :: Space(bytes[j])
    {
      beforeClose := beforeClose - 1;
    }
    tag := Tag(start, cursor + 1, nameStart, nameEnd, closing, bytes[beforeClose - 1] == SLASH);
    assert SpacesEnd(bytes, tag.start + 1, tag.end - 1, first);
    assert TextEnds(bytes, tag, beforeClose);
  }

  lemma EndIsGreater(bytes: seq<byte>, from: nat, i: nat)
    requires EndsAt(bytes, from, i)
    ensures bytes[i] == GREATER
  {
  }

  /** Find the next tag or comment from `from` on. */
  method NextTag(bytes: seq<byte>, from: nat) returns (result: Result<Option<Tag>, TagError>)
    requires from <= |bytes|
    ensures IsNextTag(bytes, from, result)
  {
    hide Ends, NowhereFrom, EndsAt, NeverEnds, Describes;
    var found := Find(bytes, from, [LESS]);
    if found.None? {
      return Ok(None);
    }
    var start := found.value;
    assert bytes[start..start + 1][0] == LESS;
    if start + 4 <= |bytes| && bytes[start..start + 4] == COMMENT_OPEN {
      var close := Find(bytes, start + 4, COMMENT_CLOSE);
      if close.None? {
        return Err(UnterminatedComment);
      }
      var end := close.value + 3;
      return Ok(Some(Tag(start, end, start + 1, start + 1, false, true)));
    }
    var cursor := FindEnd(bytes, start + 1);
    if cursor == |bytes| {
      return Err(UnterminatedTag);
    }
    var tag := ReadTag(bytes, start, cursor);
    result := Ok(Some(tag));
  }

  // -------------------------------------------------------------- properties

  /** Every tag found lies ahead and is not empty: repeated search ends. */
  lemma NextTagAhead(bytes: seq<byte>, from: nat, tag: Tag)
    requires IsNextTag(bytes, from, Ok(Some(tag)))
    ensures from <= tag.start < tag.end <= |bytes| && tag.start <= tag.nameStart <= tag.nameEnd <= tag.end
  {
    hide Ends, EndsAt;
    if At(bytes, tag.start, COMMENT_OPEN) {
      assert DescribesComment(bytes, tag);
    } else {
      assert Describes(bytes, tag);
    }
  }

  lemma OneFirst(bytes: seq<byte>, from: nat, word: seq<byte>, i: nat, j: nat)
    requires FirstAt(bytes, from, word, i) && FirstAt(bytes, from, word, j)
    ensures i == j
  {
  }

  lemma OneEnd(bytes: seq<byte>, from: nat, i: nat, j: nat)
    requires EndsAt(bytes, from, i) && EndsAt(bytes, from, j)
    ensures i == j
  {
    assert Ends(bytes, from, i) && Ends(bytes, from, j);
  }

  /** A page says one thing: there is one answer to every search. */
  lemma OneTag(bytes: seq<byte>, tag: Tag, tag': Tag)
    requires Describes(bytes, tag) && Describes(bytes, tag') && tag.start == tag'.start
    ensures tag == tag'
  {
    hide Ends, EndsAt;
    OneEnd(bytes, tag.start + 1, tag.end - 1, tag'.end - 1);
    OneName(bytes, tag, tag');
    var e: nat :| TextEnds(bytes, tag, e) && (tag.selfClosing <==> bytes[e - 1] == SLASH);
    var e': nat :| TextEnds(bytes, tag', e') && (tag'.selfClosing <==> bytes[e' - 1] == SLASH);
    assert e == e';
  }

  lemma OneSpacesEnd(bytes: seq<byte>, from: nat, limit: nat, i: nat, j: nat)
    requires limit <= |bytes| && SpacesEnd(bytes, from, limit, i) && SpacesEnd(bytes, from, limit, j)
    ensures i == j
  {
  }

  lemma OneName(bytes: seq<byte>, tag: Tag, tag': Tag)
    requires Describes(bytes, tag) && Describes(bytes, tag') && tag.start == tag'.start && tag.end == tag'.end
    ensures tag.nameStart == tag'.nameStart && tag.nameEnd == tag'.nameEnd && tag.closing == tag'.closing
  {
    hide Ends, EndsAt, NameByte;
    var limit := tag.end - 1;
    var s: nat :| SpacesEnd(bytes, tag.start + 1, limit, s) && (tag.closing <==> bytes[s] == SLASH)
                  && (if tag.closing then SpacesEnd(bytes, s + 1, limit, tag.nameStart) else tag.nameStart == s);
    var s': nat :| SpacesEnd(bytes, tag.start + 1, limit, s') && (tag'.closing <==> bytes[s'] == SLASH)
                  && (if tag'.closing then SpacesEnd(bytes, s' + 1, limit, tag'.nameStart) else tag'.nameStart == s');
    OneSpacesEnd(bytes, tag.start + 1, limit, s, s');
    if tag.closing {
      OneSpacesEnd(bytes, s + 1, limit, tag.nameStart, tag'.nameStart);
    }
  }

  lemma OneComment(bytes: seq<byte>, tag: Tag, tag': Tag)
    requires DescribesComment(bytes, tag) && DescribesComment(bytes, tag') && tag.start == tag'.start
    ensures tag == tag'
  {
    OneFirst(bytes, tag.start + 4, COMMENT_CLOSE, tag.end - 3, tag'.end - 3);
  }

  /** The next tag is determined by the page. */
  lemma OneNextTag(bytes: seq<byte>, from: nat, r: Result<Option<Tag>, TagError>, r': Result<Option<Tag>, TagError>)
    requires IsNextTag(bytes, from, r) && IsNextTag(bytes, from, r')
    ensures r == r'
  {
    hide DescribesComment, Describes, At, Ends;
    if r.Ok? && r'.Ok? {
      if r.value.Some? && r'.value.Some? {
        var tag, tag' := r.value.value, r'.value.value;
        OneFirst(bytes, from, [LESS], tag.start, tag'.start);
        if At(bytes, tag.start, COMMENT_OPEN) {
          OneComment(bytes, tag, tag');
        } else {
          OneTag(bytes, tag, tag');
        }
      }
    } else {
      OneRefusal(bytes, from, r, r');
    }
  }

  lemma OneRefusal(bytes: seq<byte>, from: nat, r: Result<Option<Tag>, TagError>, r': Result<Option<Tag>, TagError>)
    requires IsNextTag(bytes, from, r) && IsNextTag(bytes, from, r') && (r.Err? || r'.Err?)
    ensures r == r'
  {
    hide At, Ends;
  }
}
