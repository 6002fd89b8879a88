/** Stateless paging over a bounded local fixture, and why draining it returns every member once. */
module LocalJson {
  import opened Common
  import opened JsonText

  const MAX_FIXTURE_BYTES: nat := 1024 * 1024
  const MAX_PAGE_ITEMS: nat := 32
  const MAX_PAGE_BYTES: nat := 256 * 1024
  const MAX_ITEM_BYTES: nat := 32 * 1024

  // ---- Cursors ----

  const CURSOR_HEAD: string := "{\"fixture_sha256\":\""
  const CURSOR_MIDDLE: string := "\",\"offset\":"

  predicate IsHash(hash: string) {
    |hash| == 64 && forall c :: c in hash ==> IsDigit(c) || 'a' <= c <= 'f'
  }

  /** The canonical text of a cursor. */
  function CursorText(hash: string, offset: nat): string {
    CURSOR_HEAD + hash + CURSOR_MIDDLE + Digits(offset) + "}"
  }

  /** Reads the canonical text back: the fixture hash and the offset. */
  function ReadCursor(text: string): Option<(string, nat)> {
    var a, b := |CURSOR_HEAD|, |CURSOR_HEAD| + 64;
    var c := b + |CURSOR_MIDDLE|;
    if |text| <= c || text[|text| - 1] != '}' || text[..a] != CURSOR_HEAD || text[b..c] != CURSOR_MIDDLE then None
    else match Value(text[c..|text| - 1])
      case None => None
      case Some(offset) => Some((text[a..b], offset))
  }

  lemma CursorParts(hash: string, offset: nat)
    requires IsHash(hash)
    ensures var text, a, b := CursorText(hash, offset), |CURSOR_HEAD|, |CURSOR_HEAD| + 64;
      var c := b + |CURSOR_MIDDLE|;
      && |text| == c + |Digits(offset)| + 1 && text[|text| - 1] == '}'
      && text[..a] == CURSOR_HEAD && text[a..b] == hash && text[b..c] == CURSOR_MIDDLE && text[c..|text| - 1] == Digits(offset)
  {
  }

  lemma CursorRoundTrip(hash: string, offset: nat)
    requires IsHash(hash)
    ensures ReadCursor(CursorText(hash, offset)) == Some((hash, offset))
  {
    hide IsHash, Value, Digits, CursorText;
    CursorParts(hash, offset);
    ValueOfDigits(offset);
  }

  /** Only one text reads as a given hash and offset. */
  lemma CursorCanonical(text: string)
    requires ReadCursor(text).Some?
    ensures text == CursorText(ReadCursor(text).value.0, ReadCursor(text).value.1)
  {
    var a, b := |CURSOR_HEAD|, |CURSOR_HEAD| + 64;
    var c := b + |CURSOR_MIDDLE|;
    DigitsOfValue(text[c..|text| - 1]);
    assert text == text[..a] + text[a..b] + text[b..c] + text[c..|text| - 1] + [text[|text| - 1]];
  }

  // ---- Pages ----

  /** A text as a JSON string: a quote takes an escape; cursors contain nothing else to escape. */
  function Quoted(text: string): string {
    if text == [] then "" else Quoted(text[..|text| - 1]) + if text[|text| - 1] == '\"' then "\\\"" else [text[|text| - 1]]
  }

  function PageText(members: seq<string>, cursor: string): string {
    "{\"items\":[" + Join(members) + "],\"next_cursor\":\"" + Quoted(cursor) + "\"}"
  }

  lemma {:induction false} QuotedLength(text: string)
    ensures |text| <= |Quoted(text)| <= 2 * |text|
  {
    if text != [] {
      QuotedLength(text[..|text| - 1]);
    }
  }

  /** The fixture after validation: its size and digest, and the normalized text of every member. */
  datatype Fixture = Fixture(bytes: nat, hash: string, members: seq<string>) {
    /** Every member takes at least one byte of the file. */
    predicate Valid() {
      IsHash(hash) && |members| <= bytes
    }
  }

  datatype Refusal = TooLarge | MemberTooLarge | BadCursor | MemberCannotFit

  datatype Batch = Batch(members: seq<string>, next: string)

  function Offset(f: Fixture, cursor: Option<string>): (offset: Option<nat>)
    ensures offset.Some? ==> offset.value <= |f.members|
  {
    match cursor
    case None => Some(0)
    case Some(text) =>
      match ReadCursor(text)
      case None => None
      case Some((hash, offset)) => if hash == f.hash && offset <= |f.members| then Some(offset) else None
  }

  /** Whether the members from `offset` up to and including `index` fit a page with the cursor behind them. */
  predicate Fits(f: Fixture, offset: nat, index: nat)
    requires offset <= index < |f.members|
  {
    |PageText(f.members[offset..index + 1], CursorText(f.hash, index + 1))| <= MAX_PAGE_BYTES
  }

  /** Where the page that starts at `offset` ends: at the item limit, at the byte limit, or at the end. */
  function PageEnd(f: Fixture, offset: nat, index: nat): (end: nat)
    requires offset <= index <= |f.members|
    ensures index <= end <= |f.members|
    ensures end <= Max(index, offset + MAX_PAGE_ITEMS)
    ensures forall i :: index <= i < end ==> Fits(f, offset, i)
    ensures end < Min(|f.members|, offset + MAX_PAGE_ITEMS) ==> !Fits(f, offset, end)
    decreases |f.members| - index
  {
    if index < Min(|f.members|, offset + MAX_PAGE_ITEMS) && Fits(f, offset, index)
    then PageEnd(f, offset, index + 1)
    else index
  }

  function Poll(f: Fixture, cursor: Option<string>): Result<Batch, Refusal> {
    if f.bytes > MAX_FIXTURE_BYTES then Err(TooLarge)
    else match Offset(f, cursor)
      case None => Err(BadCursor)
      case Some(offset) =>
        if exists m :: m in f.members && |m| > MAX_ITEM_BYTES then Err(MemberTooLarge)
        else
          var end := PageEnd(f, offset, offset);
          if end == offset && offset < |f.members| then Err(MemberCannotFit)
          else
            Ok(Batch(f.members[offset..end],
                     if end == offset && cursor.Some? then cursor.value else CursorText(f.hash, end)))
  }

  lemma StopsAt(f: Fixture, offset: nat, index: nat)
    requires offset <= index <= |f.members| && index <= offset + MAX_PAGE_ITEMS
    requires forall i :: offset <= i < index ==> Fits(f, offset, i)
    ensures PageEnd(f, offset, offset) == PageEnd(f, offset, index)
    decreases index
  {
    hide Fits;
    if offset < index {
      StopsAt(f, offset, index - 1);
      assert Fits(f, offset, index - 1);
    }
  }

  /** Adds members while the page with the cursor behind them fits. */
  method SelectMembers(f: Fixture, offset: nat) returns (selected: seq<string>)
    requires offset <= |f.members|
    ensures selected == f.members[offset..PageEnd(f, offset, offset)]
  {
    hide PageText, CursorText;
    selected := [];
    var index, full := offset, false;
    while index < Min(|f.members|, offset + MAX_PAGE_ITEMS) && !full
      invariant offset <= index <= |f.members| && index <= offset + MAX_PAGE_ITEMS
      invariant selected == f.members[offset..index]
      invariant forall i :: offset <= i < index ==> Fits(f, offset, i)
      invariant full ==> index < |f.members| && !Fits(f, offset, index)
      decreases !full, |f.members| - index
    {
      var candidate := selected + [f.members[index]];
      assert candidate == f.members[offset..index + 1];
      if |PageText(candidate, CursorText(f.hash, index + 1))| > MAX_PAGE_BYTES {
        full := true;
      } else {
        selected, index := candidate, index + 1;
      }
    }
    StopsAt(f, offset, index);
  }

  method PollFixture(f: Fixture, cursor: Option<string>) returns (result: Result<Batch, Refusal>)
    ensures result == Poll(f, cursor)
  {
    hide PageText, CursorText, ReadCursor, Fits, PageEnd;
    if f.bytes > MAX_FIXTURE_BYTES {
      return Err(TooLarge);
    }
    var start := Offset(f, cursor);
    if start.None? {
      return Err(BadCursor);
    }
    if exists m :: m in f.members && |m| > MAX_ITEM_BYTES {
      return Err(MemberTooLarge);
    }
    var selected := SelectMembers(f, start.value);
    if selected == [] && start.value < |f.members| {
      return Err(MemberCannotFit);
    }
    var next := CursorText(f.hash, start.value + |selected|);
    if selected == [] && cursor.Some? {
      next := cursor.value;
    }
    result := Ok(Batch(selected, next));
  }

  /** One member within its own limit always fits a page by itself. */
  lemma AloneFits(f: Fixture, offset: nat)
    requires f.Valid() && f.bytes <= MAX_FIXTURE_BYTES && offset < |f.members| && |f.members[offset]| <= MAX_ITEM_BYTES
    ensures Fits(f, offset, offset)
  {
    var cursor := CursorText(f.hash, offset + 1);
    CursorParts(f.hash, offset + 1);
    SevenDigits(offset + 1);
    QuotedLength(cursor);
    assert f.members[offset..offset + 1] == [f.members[offset]];
  }

  lemma SevenDigits(n: nat)
    requires n <= MAX_FIXTURE_BYTES
    ensures |Digits(n)| <= 7
  {
    DigitsMonotone(n, 9999999);
    assert |Digits(9999999)| == 1 + |Digits(999999)| == 2 + |Digits(99999)| == 3 + |Digits(9999)|;
  }

  // ---- Draining ----

  ghost predicate Readable(f: Fixture) {
    f.Valid() && f.bytes <= MAX_FIXTURE_BYTES && forall m :: m in f.members ==> |m| <= MAX_ITEM_BYTES
  }

  /** One poll of a readable fixture: a bounded, nonempty, maximal run, or the end for good. */
  lemma PollAdvances(f: Fixture, cursor: Option<string>, offset: nat)
    requires Readable(f) && Offset(f, cursor) == Some(offset)
    ensures var result := Poll(f, cursor);
      && result.Ok?
      && var next := offset + |result.value.members|;
         && next <= |f.members| && result.value.members == f.members[offset..next]
         && Offset(f, Some(result.value.next)) == Some(next)
         && (offset < |f.members| ==> offset < next)
         && next - offset <= MAX_PAGE_ITEMS
         && (offset < next ==> |PageText(result.value.members, result.value.next)| <= MAX_PAGE_BYTES)
         && (next < Min(|f.members|, offset + MAX_PAGE_ITEMS) ==> !Fits(f, offset, next))
         && (offset == |f.members| && cursor.Some? ==> result.value.next == cursor.value)
  {
    hide CursorText, ReadCursor, PageEnd, PageText, Quoted;
    var end := PageEnd(f, offset, offset);
    if offset < end {
      assert Fits(f, offset, end - 1);
    }
    if offset < |f.members| {
      AloneFits(f, offset);
    }
    CursorRoundTrip(f.hash, end);
  }

  /** The members that `polls` polls in a row return, each continuing at the cursor of the one before. */
  ghost function Drained(f: Fixture, cursor: Option<string>, polls: nat): seq<string>
    requires Readable(f) && Offset(f, cursor).Some?
    decreases polls
  {
    if polls == 0 then []
    else
      PollAdvances(f, cursor, Offset(f, cursor).value);
      var batch := Poll(f, cursor).value;
      batch.members + Drained(f, Some(batch.next), polls - 1)
  }

  /** Draining from a cursor returns what lies behind it, once and in order, after at most that many polls. */
  lemma {:induction false} DrainReturnsRest(f: Fixture, cursor: Option<string>, offset: nat, polls: nat)
    requires Readable(f) && Offset(f, cursor) == Some(offset)
    ensures polls >= |f.members| - offset ==> Drained(f, cursor, polls) == f.members[offset..]
    ensures Drained(f, cursor, polls) <= f.members[offset..]
    decreases polls
  {
    hide Poll, Offset, Readable, PageText;
    if polls > 0 {
      PollAdvances(f, cursor, offset);
      var batch := Poll(f, cursor).value;
      var next := offset + |batch.members|;
      DrainReturnsRest(f, Some(batch.next), next, polls - 1);
      assert f.members[offset..] == f.members[offset..next] + f.members[next..];
    }
  }
}
