/** The document renderer: plain text and catalogue references in, Markdown out, in such a
    way that the Markdown can be read back to exactly what went in. */
module DocumentRender {

  type Byte = b: int | 0 <= b < 256
  type Bytes = seq<Byte>

  const MAX_SOURCES := 16
  const MAX_ID := 64
  const MAX_TITLE := 160
  const MAX_TEXT := 2048
  const MAX_PASSAGES := 8
  const MAX_OUTPUT := 40000

  const NEWLINE: Byte := 10
  const SPACE: Byte := 32
  const HASH: Byte := 35
  const COLON: Byte := 58
  const AT: Byte := 64
  const BACKSLASH: Byte := 92

  // ----- Validation -----

  /** The character tests of the validators. */
  predicate IdByte(b: Byte) {
    97 <= b <= 122 || 65 <= b <= 90 || 48 <= b <= 57 || b == 95 || b == 45
  }

  predicate TextByte(b: Byte, multiline: bool) {
    (b >= 32 || (multiline && b == NEWLINE)) && b != 127
  }

  /** What they decide, character by character. */
  predicate IdCharacter(b: Byte) {
    b as char in {
      'a', 'b', 'c', 'd', 'e', 'f', 'g', 'h', 'i', 'j', 'k', 'l', 'm', 'n', 'o', 'p', 'q', 'r', 's', 't', 'u', 'v', 'w',
      'x', 'y', 'z', 'A', 'B', 'C', 'D', 'E', 'F', 'G', 'H', 'I', 'J', 'K', 'L', 'M', 'N', 'O', 'P', 'Q', 'R', 'S', 'T',
      'U', 'V', 'W', 'X', 'Y', 'Z', '0', '1', '2', '3', '4', '5', '6', '7', '8', '9', '_', '-'}
  }

  predicate ControlByte(b: Byte) {
    b in {0, 1, 2, 3, 4, 5, 6, 7, 8, 9, 10, 11, 12, 13, 14, 15, 16, 17, 18, 19, 20, 21, 22, 23, 24, 25, 26, 27, 28, 29,
          30, 31, 127}
  }

  predicate IdValid(s: Bytes) {
    1 <= |s| <= 64 && forall i :: 0 <= i < |s| ==> IdCharacter(s[i])
  }

  predicate TextValid(s: Bytes, limit: nat, multiline: bool) {
    1 <= |s| <= limit && forall i :: 0 <= i < |s| ==> !ControlByte(s[i]) || (multiline && s[i] == 10)
  }

  lemma IdBytes(b: Byte)
    ensures IdByte(b) <==> IdCharacter(b)
  {
  }

  lemma TextBytes(b: Byte, multiline: bool)
    ensures TextByte(b, multiline) <==> !ControlByte(b) || (multiline && b == 10)
  {
  }

  datatype Source = Source(id: Bytes, revision: Bytes)
  type Catalog = seq<Source>

  ghost predicate CatalogValid(c: Catalog) {
    && 1 <= |c| <= 16
    && (forall i :: 0 <= i < |c| ==> IdValid(c[i].id) && IdValid(c[i].revision))
    && (forall i, j :: 0 <= i < j < |c| ==> c[i].id != c[j].id)
  }

  datatype Request = Request(title: Bytes, passages: seq<Passage>)
  datatype Passage = Passage(text: Bytes, sourceId: Bytes)

  ghost predicate RequestValid(c: Catalog, r: Request) {
    && TextValid(r.title, 160, false) && 1 <= |r.passages| <= 8
    && forall i :: 0 <= i < |r.passages| ==> PassageValid(c, r.passages[i])
  }

  ghost predicate PassageValid(c: Catalog, p: Passage) {
    && TextValid(p.text, 2048, true) && TextValid(p.sourceId, 64, false)
    && exists k :: 0 <= k < |c| && c[k].id == p.sourceId
  }

  method CheckId(s: Bytes) returns (ok: bool)
    ensures ok <==> IdValid(s)
  {
    if |s| == 0 || |s| > MAX_ID { return false; }
    for i := 0 to |s|
      invariant forall k :: 0 <= k < i ==> IdCharacter(s[k])
    {
      IdBytes(s[i]);
      if !IdByte(s[i]) { return false; }
    }
    return true;
  }

  method CheckText(s: Bytes, limit: nat, multiline: bool) returns (ok: bool)
    ensures ok <==> TextValid(s, limit, multiline)
  {
    if |s| == 0 || |s| > limit { return false; }
    for i := 0 to |s|
      invariant forall k :: 0 <= k < i ==> !ControlByte(s[k]) || (multiline && s[k] == 10)
    {
      TextBytes(s[i], multiline);
      if !TextByte(s[i], multiline) { return false; }
    }
    return true;
  }

  method CheckCatalog(c: Catalog) returns (ok: bool)
    ensures ok <==> CatalogValid(c)
  {
    if |c| == 0 || |c| > MAX_SOURCES { return false; }
    for i := 0 to |c|
      invariant forall k :: 0 <= k < i ==> IdValid(c[k].id) && IdValid(c[k].revision)
      invariant forall k, l :: 0 <= k < l < i ==> c[k].id != c[l].id
    {
      var idOk := CheckId(c[i].id);
      var revisionOk := CheckId(c[i].revision);
      if !idOk || !revisionOk { return false; }
      for j := 0 to i
        invariant forall k :: 0 <= k < j ==> c[k].id != c[i].id
      {
        if c[i].id == c[j].id { return false; }
      }
    }
    return true;
  }

  /** The first source with this id. */
  function Lookup(c: Catalog, id: Bytes, from: nat := 0): (k: nat)
    requires from <= |c|
    ensures from <= k <= |c| && (k < |c| ==> c[k].id == id) && forall j :: from <= j < k ==> c[j].id != id
    decreases |c| - from
  {
    if from == |c| || c[from].id == id then from else Lookup(c, id, from + 1)
  }

  method FindSource(c: Catalog, id: Bytes) returns (k: nat)
    ensures k == Lookup(c, id)
  {
    k := 0;
    while k < |c| && c[k].id != id
      invariant k <= |c| && Lookup(c, id) == Lookup(c, id, k)
    {
      k := k + 1;
    }
  }

  // ----- The document and its text -----

  /** What the Markdown stands for: the passages with the catalogue's own identities. */
  datatype Entry = Entry(text: Bytes, id: Bytes, revision: Bytes)
  datatype Document = Document(title: Bytes, entries: seq<Entry>)

  predicate EntryValid(e: Entry) {
    TextValid(e.text, 2048, true) && IdValid(e.id) && IdValid(e.revision)
  }

  predicate DocumentValid(d: Document) {
    && TextValid(d.title, 160, false) && 1 <= |d.entries| <= 8
    && forall i :: 0 <= i < |d.entries| ==> EntryValid(d.entries[i])
  }

  /** The ASCII punctuation characters, section 2.4 of CommonMark. */
  predicate AsciiPunctuation(b: Byte) {
    b as char in {
      '!', '"', '#', '$', '%', '&', '\'', '(', ')', '*', '+', ',', '-', '.', '/', ':', ';', '<', '=', '>', '?', '@',
      '[', '\\', ']', '^', '_', '`', '{', '|', '}', '~'}
  }

  function EscapeByte(b: Byte): Bytes {
    if AsciiPunctuation(b) then [92, b] else [b]
  }

  /** The renderer's own test. */
  predicate Punctuation(b: Byte) {
    33 <= b <= 47 || 58 <= b <= 64 || 91 <= b <= 96 || 123 <= b <= 126
  }

  lemma PunctuationBytes(b: Byte)
    ensures Punctuation(b) <==> AsciiPunctuation(b)
  {
  }

  function Escape(s: Bytes): Bytes {
    if s == [] then [] else EscapeByte(s[0]) + Escape(s[1..])
  }

  const TITLE_MARK: Bytes := [HASH, SPACE]
  const GAP: Bytes := [NEWLINE, NEWLINE]
  const SOURCE_MARK: Bytes := [NEWLINE, NEWLINE, 83, 111, 117, 114, 99, 101, COLON, SPACE]
  const AT_MARK: Bytes := [SPACE, AT, SPACE]

  /** One passage with its source annotation, in front of what follows. */
  function RenderEntry(e: Entry, rest: Bytes): Bytes {
    Escape(e.text) + (SOURCE_MARK + (Escape(e.id) + (AT_MARK + (Escape(e.revision) + (GAP + rest)))))
  }

  function RenderEntries(es: seq<Entry>): Bytes {
    if es == [] then [] else RenderEntry(es[0], RenderEntries(es[1..]))
  }

  function Render(d: Document): Bytes {
    TITLE_MARK + (Escape(d.title) + (GAP + RenderEntries(d.entries)))
  }

  // ----- The size bound -----

  lemma {:induction false} EscapeAtMostDoubles(s: Bytes)
    ensures |Escape(s)| <= 2 * |s|
  {
    if s != [] { EscapeAtMostDoubles(s[1..]); }
  }

  lemma EntrySize(e: Entry, rest: Bytes)
    requires EntryValid(e)
    ensures |RenderEntry(e, rest)| <= 4367 + |rest|
  {
    EscapeAtMostDoubles(e.text);
    EscapeAtMostDoubles(e.id);
    EscapeAtMostDoubles(e.revision);
  }

  lemma {:induction false} EntriesSize(es: seq<Entry>)
    requires forall i :: 0 <= i < |es| ==> EntryValid(es[i])
    ensures |RenderEntries(es)| <= 4367 * |es|
  {
    if es != [] {
      EntrySize(es[0], RenderEntries(es[1..]));
      EntriesSize(es[1..]);
    }
  }

  /** No valid document renders to more than 35260 bytes, well below the output limit. */
  lemma RenderSize(d: Document)
    requires DocumentValid(d)
    ensures |Render(d)| <= 35260 < MAX_OUTPUT
  {
    EscapeAtMostDoubles(d.title);
    EntriesSize(d.entries);
  }

  lemma {:induction false} EscapeDoubles(s: Bytes)
    requires forall i :: 0 <= i < |s| ==> AsciiPunctuation(s[i])
    ensures |Escape(s)| == 2 * |s|
  {
    if s != [] { EscapeDoubles(s[1..]); }
  }

  const MARK: Byte := 33
  const UNDERSCORE: Byte := 95

  function Repeat<T>(n: nat, x: T): (s: seq<T>)
    ensures |s| == n && forall i :: 0 <= i < n ==> s[i] == x
  {
    seq(n, _ => x)
  }

  /** All punctuation, at every length limit. */
  function LongestEntry(): Entry {
    Entry(Repeat(MAX_TEXT, MARK), Repeat(MAX_ID, UNDERSCORE), Repeat(MAX_ID, UNDERSCORE))
  }

  function LongestDocument(): Document {
    Document(Repeat(MAX_TITLE, MARK), Repeat(MAX_PASSAGES, LongestEntry()))
  }

  lemma LongestEntrySize(rest: Bytes)
    ensures EntryValid(LongestEntry()) && |RenderEntry(LongestEntry(), rest)| == 4367 + |rest|
  {
    hide Escape, Repeat;
    EscapeDoubles(Repeat(MAX_TEXT, MARK));
    EscapeDoubles(Repeat(MAX_ID, UNDERSCORE));
  }

  lemma {:induction false} LongestEntriesSize(es: seq<Entry>)
    requires forall i :: 0 <= i < |es| ==> es[i] == LongestEntry()
    ensures |RenderEntries(es)| == 4367 * |es|
  {
    hide RenderEntry, LongestEntry;
    if es != [] {
      LongestEntriesSize(es[1..]);
      LongestEntrySize(RenderEntries(es[1..]));
    }
  }

  /** The bound is exact: this document reaches it. */
  lemma BoundIsReached()
    ensures DocumentValid(LongestDocument()) && |Render(LongestDocument())| == 35260
  {
    hide Escape, Repeat, LongestEntry, RenderEntry, RenderEntries, EntryValid;
    EscapeDoubles(Repeat(MAX_TITLE, MARK));
    LongestEntrySize([]);
    LongestEntriesSize(Repeat(MAX_PASSAGES, LongestEntry()));
  }

  // ----- The renderer -----

  /** The growing output. */
  class Buffer {
    var text: Bytes

    constructor ()
      ensures text == []
    {
      text := [];
    }

    /** Refuses what would exceed the output limit. */
    method Append(part: Bytes) returns (ok: bool)
      modifies this
      ensures ok <==> |old(text)| + |part| <= 40000
      ensures text == if ok then old(text) + part else old(text)
    {
      if |part| > MAX_OUTPUT || |text| > MAX_OUTPUT - |part| { return false; }
      text, ok := text + part, true;
    }

    /** One byte, behind a backslash if it is punctuation. */
    method AppendByte(b: Byte) returns (ok: bool)
      modifies this
      ensures |old(text)| + |EscapeByte(b)| <= MAX_OUTPUT ==> ok
      ensures ok ==> text == old(text) + EscapeByte(b)
    {
      PunctuationBytes(b);
      ok := true;
      if Punctuation(b) { ok := Append([BACKSLASH]); }
      if ok { ok := Append([b]); }
    }

    method AppendText(s: Bytes) returns (ok: bool)
      modifies this
      ensures |old(text)| + |Escape(s)| <= MAX_OUTPUT ==> ok
      ensures ok ==> text == old(text) + Escape(s)
    {
      hide EscapeByte;
      for i := 0 to |s|
        invariant text + Escape(s[i..]) == old(text) + Escape(s)
      {
        assert s[i..][0] == s[i] && s[i..][1..] == s[i + 1..];
        Associate(text, EscapeByte(s[i]), Escape(s[i + 1..]));
        ok := AppendByte(s[i]);
        if !ok { return; }
      }
      ok := true;
    }

    /** Escaped text, then a mark, in front of `rest`, which is still to come. */
    method AppendPart(s: Bytes, mark: Bytes, ghost rest: Bytes) returns (ok: bool)
      modifies this
      ensures |old(text)| + |Escape(s) + (mark + rest)| <= MAX_OUTPUT ==> ok
      ensures ok ==> text + rest == old(text) + (Escape(s) + (mark + rest))
    {
      hide Escape;
      ok := AppendText(s);
      if ok { ok := Append(mark); }
      Associate(old(text), Escape(s), mark + rest);
      Associate(old(text) + Escape(s), mark, rest);
    }

    method AppendTitle(title: Bytes, ghost rest: Bytes) returns (ok: bool)
      modifies this
      ensures |old(text)| + |TITLE_MARK + (Escape(title) + (GAP + rest))| <= MAX_OUTPUT ==> ok
      ensures ok ==> text + rest == old(text) + (TITLE_MARK + (Escape(title) + (GAP + rest)))
    {
      hide Escape;
      ok := Append(TITLE_MARK);
      Associate(old(text), TITLE_MARK, Escape(title) + (GAP + rest));
      if ok { ok := AppendPart(title, GAP, rest); }
    }

    method AppendEntry(e: Entry, ghost rest: Bytes) returns (ok: bool)
      modifies this
      ensures |old(text)| + |RenderEntry(e, rest)| <= MAX_OUTPUT ==> ok
      ensures ok ==> text + rest == old(text) + RenderEntry(e, rest)
    {
      hide Escape;
      ghost var last := Escape(e.revision) + (GAP + rest);
      ok := AppendPart(e.text, SOURCE_MARK, Escape(e.id) + (AT_MARK + last));
      if !ok { return; }
      ok := AppendPart(e.id, AT_MARK, last);
      if !ok { return; }
      ok := AppendPart(e.revision, GAP, rest);
    }
  }

  lemma Associate(a: Bytes, b: Bytes, c: Bytes)
    ensures a + (b + c) == (a + b) + c
  {
  }

  datatype Status = Rendered | InvalidArgument | OutOfMemory

  /** Title and texts are the request's, and each passage carries the id that it names with the
      revision that the catalogue gives for it. */
  ghost predicate Denotes(c: Catalog, r: Request, d: Document) {
    && d.title == r.title && |d.entries| == |r.passages|
    && forall i :: 0 <= i < |d.entries| ==>
         && d.entries[i].text == r.passages[i].text && d.entries[i].id == r.passages[i].sourceId
         && Source(d.entries[i].id, d.entries[i].revision) in c
  }

  /** The document that a valid request denotes. */
  function EntryOf(c: Catalog, p: Passage): (e: Entry)
    requires Lookup(c, p.sourceId) < |c|
  {
    var k := Lookup(c, p.sourceId);
    Entry(p.text, c[k].id, c[k].revision)
  }

  ghost function DocumentOf(c: Catalog, r: Request): (d: Document)
    requires CatalogValid(c) && RequestValid(c, r)
    ensures DocumentValid(d) && Denotes(c, r, d)
  {
    Document(r.title, seq(|r.passages|, i requires 0 <= i < |r.passages| => Known(c, r, i); EntryOf(c, r.passages[i])))
  }

  lemma Known(c: Catalog, r: Request, i: nat)
    requires CatalogValid(c) && RequestValid(c, r) && i < |r.passages|
    ensures Lookup(c, r.passages[i].sourceId) < |c| && EntryValid(EntryOf(c, r.passages[i]))
    ensures EntryOf(c, r.passages[i]).text == r.passages[i].text
    ensures EntryOf(c, r.passages[i]).id == r.passages[i].sourceId
    ensures Source(EntryOf(c, r.passages[i]).id, EntryOf(c, r.passages[i]).revision) in c
  {
    assert PassageValid(c, r.passages[i]);
    assert c[Lookup(c, r.passages[i].sourceId)] in c;
  }

  method CheckRequest(c: Catalog, r: Request) returns (ok: bool)
    ensures ok <==> RequestValid(c, r)
  {
    if |r.passages| == 0 || |r.passages| > MAX_PASSAGES { return false; }
    ok := CheckText(r.title, MAX_TITLE, false);
    if !ok { return; }
    for i := 0 to |r.passages|
      invariant forall k :: 0 <= k < i ==> PassageValid(c, r.passages[k])
    {
      ok := CheckPassage(c, r.passages[i]);
      if !ok { return; }
    }
    return true;
  }

  method CheckPassage(c: Catalog, p: Passage) returns (ok: bool)
    ensures ok <==> PassageValid(c, p)
  {
    ok := CheckText(p.text, MAX_TEXT, true);
    if !ok { return; }
    ok := CheckText(p.sourceId, MAX_ID, false);
    if !ok { return; }
    var k := FindSource(c, p.sourceId);
    return k < |c|;
  }

  /** The handler: exactly the valid requests are rendered, the output is the rendering of
      the document that the request denotes, and the output limit never interferes. */
  method Handle(c: Catalog, r: Request) returns (status: Status, markdown: Bytes)
    ensures status == Rendered <==> CatalogValid(c) && RequestValid(c, r)
    ensures status == Rendered ==> markdown == Render(DocumentOf(c, r)) && |markdown| <= 35260
    ensures status != OutOfMemory
  {
    markdown := [];
    var ok := CheckCatalog(c);
    if !ok { return InvalidArgument, []; }
    ok := CheckRequest(c, r);
    if !ok { return InvalidArgument, []; }
    ok, markdown := RenderRequest(c, r);
    status := if ok then Rendered else OutOfMemory;
  }

  method RenderRequest(c: Catalog, r: Request) returns (ok: bool, markdown: Bytes)
    requires CatalogValid(c) && RequestValid(c, r)
    ensures ok && markdown == Render(DocumentOf(c, r)) && |markdown| <= 35260
  {
    ghost var d := DocumentOf(c, r);
    RenderSize(d);
    hide CatalogValid, RequestValid, DocumentValid, Escape, RenderEntry, RenderEntries;
    var b := new Buffer();
    ok := b.AppendTitle(r.title, RenderEntries(d.entries));
    if ok { ok := AppendPassages(b, c, r, d); }
    markdown := b.text;
  }

  /** Passage by passage; what is written and what is still to come make up the whole. */
  method AppendPassages(b: Buffer, c: Catalog, r: Request, ghost d: Document) returns (ok: bool)
    requires CatalogValid(c) && RequestValid(c, r) && d == DocumentOf(c, r)
    modifies b
    ensures |old(b.text)| + |RenderEntries(d.entries)| <= MAX_OUTPUT ==> ok
    ensures ok ==> b.text == old(b.text) + RenderEntries(d.entries)
  {
    hide CatalogValid, RequestValid, DocumentValid, Escape, RenderEntry;
    assert d.entries[0..] == d.entries;
    for i := 0 to |r.passages|
      invariant b.text + RenderEntries(d.entries[i..]) == old(b.text) + RenderEntries(d.entries)
    {
      Known(c, r, i);
      var e := EntryOf(c, r.passages[i]);
      assert d.entries[i..][0] == e && d.entries[i..][1..] == d.entries[i + 1..];
      ok := b.AppendEntry(e, RenderEntries(d.entries[i + 1..]));
      if !ok { return; }
    }
    assert d.entries[|r.passages|..] == [];
    ok := true;
  }
}
