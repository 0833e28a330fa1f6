/** Reading rendered Markdown back: the renderer's inverse, independent of the renderer. */
module DocumentParse {
  import opened Collections
  import opened DocumentRender

  /** Reads escaped text up to the first unescaped stop byte; gives the text and the rest. */
  function ReadText(s: Bytes, stop: Byte): Option<(Bytes, Bytes)> {
    if s == [] then None
    else if s[0] == stop then Some(([], s[1..]))
    else
      var escaped := s[0] == BACKSLASH;
      if escaped && |s| == 1 then None
      else
        var b, rest := if escaped then s[1] else s[0], if escaped then s[2..] else s[1..];
        match ReadText(rest, stop)
        case None => None
        case Some((text, after)) => Some(([b] + text, after))
  }

  function Expect(s: Bytes, mark: Bytes): Option<Bytes> {
    if |mark| <= |s| && s[..|mark|] == mark then Some(s[|mark|..]) else None
  }

  const SOURCE_WORD: Bytes := [NEWLINE, NEWLINE, 83, 111, 117, 114, 99, 101]

  /** Text followed by the word that opens a source annotation. */
  function DropSourceWord(s: Bytes): Option<Bytes> {
    var n := |s| - |SOURCE_WORD|;
    if n >= 0 && s[n..] == SOURCE_WORD then Some(s[..n]) else None
  }

  function ParseEntry(s: Bytes): (r: Option<(Entry, Bytes)>) {
    match ReadText(s, COLON)
    case None => None
    case Some((head, s1)) =>
      match DropSourceWord(head)
      case None => None
      case Some(text) =>
        match Expect(s1, [SPACE])
        case None => None
        case Some(s2) =>
          match ReadText(s2, SPACE)
          case None => None
          case Some((id, s3)) =>
            match Expect(s3, [AT, SPACE])
            case None => None
            case Some(s4) =>
              match ReadText(s4, NEWLINE)
              case None => None
              case Some((revision, s5)) =>
                match Expect(s5, [NEWLINE])
                case None => None
                case Some(s6) => if |s6| < |s| then Some((Entry(text, id, revision), s6)) else None
  }

  function ParseEntries(s: Bytes): Option<seq<Entry>>
    decreases |s|
  {
    if s == [] then Some([])
    else match ParseEntry(s)
      case None => None
      case Some((e, rest)) =>
        if |rest| >= |s| then None
        else match ParseEntries(rest)
          case None => None
          case Some(es) => Some([e] + es)
  }

  function Parse(s: Bytes): Option<Document> {
    match Expect(s, TITLE_MARK)
    case None => None
    case Some(s1) =>
      match ReadText(s1, NEWLINE)
      case None => None
      case Some((title, s2)) =>
        match Expect(s2, [NEWLINE])
        case None => None
        case Some(s3) =>
          match ParseEntries(s3)
          case None => None
          case Some(es) => Some(Document(title, es))
  }

  // ----- Reading what was escaped -----

  /** One step of reading, over what follows the first escaped byte. */
  lemma ReadByte(b: Byte, stop: Byte, s: Bytes)
    requires stop != BACKSLASH && (AsciiPunctuation(stop) || b != stop) && ReadText(s, stop).Some?
    ensures var r := ReadText(s, stop).value;
      ReadText(EscapeByte(b) + s, stop) == Some(([b] + r.0, r.1))
  {
  }

  lemma {:induction false} ReadEscaped(t: Bytes, stop: Byte, rest: Bytes)
    requires stop != BACKSLASH && (AsciiPunctuation(stop) || stop !in t)
    ensures ReadText(Escape(t) + ([stop] + rest), stop) == Some((t, rest))
  {
    if t == [] {
      assert Escape(t) + ([stop] + rest) == [stop] + rest;
    } else {
      ReadEscaped(t[1..], stop, rest);
      ReadByte(t[0], stop, Escape(t[1..]) + ([stop] + rest));
      Associate(EscapeByte(t[0]), Escape(t[1..]), [stop] + rest);
      hide EscapeByte, ReadText;
      assert t == [t[0]] + t[1..];
    }
  }

  lemma {:induction false} EscapeAppend(s: Bytes, t: Bytes)
    ensures Escape(s + t) == Escape(s) + Escape(t)
  {
    if s == [] {
      assert s + t == t;
    } else {
      EscapeAppend(s[1..], t);
      assert (s + t)[0] == s[0] && (s + t)[1..] == s[1..] + t;
      var head := EscapeByte(s[0]);
      Associate(head, Escape(s[1..]), Escape(t));
    }
  }

  lemma {:induction false} EscapePlain(s: Bytes)
    requires forall i :: 0 <= i < |s| ==> !AsciiPunctuation(s[i])
    ensures Escape(s) == s
  {
    if s != [] { EscapePlain(s[1..]); }
  }

  lemma Expected(mark: Bytes, rest: Bytes)
    ensures Expect(mark + rest, mark) == Some(rest)
  {
  }

  lemma SourceWordDrops(text: Bytes)
    ensures DropSourceWord(text + SOURCE_WORD) == Some(text)
  {
  }

  lemma SourceWordPlain()
    ensures AsciiPunctuation(COLON) && forall i :: 0 <= i < |SOURCE_WORD| ==> !AsciiPunctuation(SOURCE_WORD[i])
  {
  }

  /** The head of an entry is the escaped text and source word, up to the one bare colon. */
  lemma HeadReads(text: Bytes, rest: Bytes)
    ensures ReadText(Escape(text) + (SOURCE_MARK + rest), COLON) == Some((text + SOURCE_WORD, [SPACE] + rest))
  {
    SourceWordPlain();
    hide ReadText, Escape, AsciiPunctuation;
    EscapeAppend(text, SOURCE_WORD);
    EscapePlain(SOURCE_WORD);
    ReadEscaped(text + SOURCE_WORD, COLON, [SPACE] + rest);
    assert SOURCE_MARK + rest == SOURCE_WORD + ([COLON] + ([SPACE] + rest));
    Associate(Escape(text), SOURCE_WORD, [COLON] + ([SPACE] + rest));
  }

  lemma IdHasNo(s: Bytes)
    requires IdValid(s)
    ensures SPACE !in s && NEWLINE !in s
  {
  }

  lemma Marks(rest: Bytes)
    ensures AT_MARK + rest == [SPACE] + ([AT, SPACE] + rest) && GAP + rest == [NEWLINE] + ([NEWLINE] + rest)
  {
  }

  lemma EntryLonger(e: Entry, rest: Bytes)
    ensures |RenderEntry(e, rest)| > |rest|
  {
  }

  /** An entry reads back, whatever follows it. */
  lemma EntryReads(e: Entry, rest: Bytes)
    requires EntryValid(e)
    ensures ParseEntry(RenderEntry(e, rest)) == Some((e, rest))
  {
    IdHasNo(e.id);
    IdHasNo(e.revision);
    EntryLonger(e, rest);
    hide Escape, EntryValid, ReadText, Expect, DropSourceWord, IdValid;
    var s4 := Escape(e.revision) + (GAP + rest);
    var s2 := Escape(e.id) + (AT_MARK + s4);
    HeadReads(e.text, s2);
    SourceWordDrops(e.text);
    Expected([SPACE], s2);
    Marks(s4);
    ReadEscaped(e.id, SPACE, [AT, SPACE] + s4);
    Expected([AT, SPACE], s4);
    Marks(rest);
    ReadEscaped(e.revision, NEWLINE, [NEWLINE] + rest);
    Expected([NEWLINE], rest);
  }

  lemma {:induction false} EntriesRead(es: seq<Entry>)
    requires forall i :: 0 <= i < |es| ==> EntryValid(es[i])
    ensures ParseEntries(RenderEntries(es)) == Some(es)
  {
    hide RenderEntry, ParseEntry, EntryValid;
    if es != [] {
      EntriesRead(es[1..]);
      EntryLonger(es[0], RenderEntries(es[1..]));
      EntryReads(es[0], RenderEntries(es[1..]));
      assert es == [es[0]] + es[1..];
    }
  }

  /** For every valid document the Markdown parses back to exactly its title, passages and
      catalogue identities. */
  lemma RoundTrip(d: Document)
    requires DocumentValid(d)
    ensures Parse(Render(d)) == Some(d)
  {
    assert NEWLINE !in d.title;
    EntriesRead(d.entries);
    hide Escape, RenderEntries, ParseEntries, ReadText, Expect, DocumentValid;
    var body := RenderEntries(d.entries);
    Marks(body);
    ReadEscaped(d.title, NEWLINE, [NEWLINE] + body);
    Expected(TITLE_MARK, Escape(d.title) + (GAP + body));
    Expected([NEWLINE], body);
  }

  /** Different valid documents never share a rendering. */
  lemma RenderInjective(d: Document, e: Document)
    requires DocumentValid(d) && DocumentValid(e) && Render(d) == Render(e)
    ensures d == e
  {
    RoundTrip(d);
    RoundTrip(e);
  }

  // ----- Every punctuation character is escaped, and nothing else is -----

  /** How often this byte stands in a Markdown text without a backslash in front of it. */
  function Bare(s: Bytes, b: Byte): nat {
    if s == [] then 0
    else if s[0] == 92 && |s| >= 2 then Bare(s[2..], b)
    else (if s[0] == b then 1 else 0) + Bare(s[1..], b)
  }

  lemma {:induction false} EscapedHasNone(t: Bytes, rest: Bytes, b: Byte)
    requires AsciiPunctuation(b)
    ensures Bare(Escape(t) + rest, b) == Bare(rest, b)
  {
    if t == [] {
      assert Escape(t) + rest == rest;
    } else {
      var head := EscapeByte(t[0]);
      EscapedHasNone(t[1..], rest, b);
      Associate(head, Escape(t[1..]), rest);
      var s, tail := Escape(t) + rest, Escape(t[1..]) + rest;
      hide Escape;
      assert s == head + tail && s[|head|..] == tail && s[0] == head[0];
    }
  }

  function Times(s: Bytes, b: Byte): nat {
    if s == [] then 0 else (if s[0] == b then 1 else 0) + Times(s[1..], b)
  }

  /** A mark without backslashes contributes its own bytes. */
  lemma {:induction false} MarkHas(mark: Bytes, rest: Bytes, b: Byte)
    requires 92 !in mark
    ensures Bare(mark + rest, b) == Times(mark, b) + Bare(rest, b)
  {
    if mark == [] {
      assert mark + rest == rest;
    } else {
      assert (mark + rest)[1..] == mark[1..] + rest && mark[0] in mark;
      MarkHas(mark[1..], rest, b);
    }
  }

  /** The renderer's own marks: one number sign, and a colon and an at sign for each passage. */
  function Own(b: Byte, passages: nat): nat {
    (if b == 35 then 1 else 0) + (if b == 58 || b == 64 then passages else 0)
  }

  lemma NotInMarks(b: Byte)
    requires AsciiPunctuation(b)
    ensures b != 10 && b != 32 && b != 83 && b != 111 && b != 117 && b != 114 && b != 99 && b != 101
  {
  }

  lemma {:induction false} TimesOf(s: Bytes, t: Bytes, b: Byte)
    ensures Times(s + t, b) == Times(s, b) + Times(t, b)
    ensures b !in s ==> Times(s, b) == 0
  {
    if s == [] {
      assert s + t == t;
    } else {
      assert (s + t)[1..] == s[1..] + t && s[0] in s;
      TimesOf(s[1..], t, b);
    }
  }

  lemma TimesInPair(x: Byte, y: Byte, b: Byte)
    ensures Times([x, y], b) == (if x == b then 1 else 0) + (if y == b then 1 else 0)
  {
    assert [x, y][1..] == [y] && [y][1..] == [];
    assert Times([y], b) == if y == b then 1 else 0;
  }

  lemma SourceMarkIs()
    ensures SOURCE_MARK == SOURCE_WORD + [58, 32] && 92 !in SOURCE_MARK
  {
  }

  lemma SourceMarkBytes(b: Byte)
    requires b != 10 && b != 32 && b != 83 && b != 111 && b != 117 && b != 114 && b != 99 && b != 101
    ensures Times(SOURCE_MARK, b) == if b == 58 then 1 else 0
  {
    SourceMarkIs();
    hide SOURCE_MARK;
    assert b !in SOURCE_WORD;
    hide SOURCE_WORD;
    TimesOf(SOURCE_WORD, [58, 32], b);
    TimesInPair(58, 32, b);
  }

  lemma MarkBytes(b: Byte)
    requires AsciiPunctuation(b)
    ensures 92 !in SOURCE_MARK && 92 !in AT_MARK && 92 !in GAP && 92 !in TITLE_MARK
    ensures Times(SOURCE_MARK, b) == (if b == 58 then 1 else 0) && Times(AT_MARK, b) == (if b == 64 then 1 else 0)
    ensures Times(GAP, b) == 0 && Times(TITLE_MARK, b) == (if b == 35 then 1 else 0)
  {
    NotInMarks(b);
    hide AsciiPunctuation;
    SourceMarkBytes(b);
    SourceMarkIs();
    hide SOURCE_MARK;
    TimesInPair(64, 32, b);
    assert AT_MARK[1..] == [64, 32];
    TimesInPair(10, 10, b);
    TimesInPair(35, 32, b);
  }

  lemma EntryBare(e: Entry, rest: Bytes, b: Byte)
    requires AsciiPunctuation(b)
    ensures Bare(RenderEntry(e, rest), b) == (if b == 58 || b == 64 then 1 else 0) + Bare(rest, b)
  {
    MarkBytes(b);
    hide Bare, Escape, AsciiPunctuation;
    var s4 := Escape(e.revision) + (GAP + rest);
    var s2 := Escape(e.id) + (AT_MARK + s4);
    EscapedHasNone(e.text, SOURCE_MARK + s2, b);
    MarkHas(SOURCE_MARK, s2, b);
    EscapedHasNone(e.id, AT_MARK + s4, b);
    MarkHas(AT_MARK, s4, b);
    EscapedHasNone(e.revision, GAP + rest, b);
    MarkHas(GAP, rest, b);
  }

  lemma {:induction false} EntriesBare(es: seq<Entry>, b: Byte)
    requires AsciiPunctuation(b)
    ensures Bare(RenderEntries(es), b) == if b == 58 || b == 64 then |es| else 0
  {
    if es != [] {
      EntriesBare(es[1..], b);
      EntryBare(es[0], RenderEntries(es[1..]), b);
    }
  }

  /** Of the 32 punctuation characters none stands bare in a rendering but those of the renderer's own
      marks: no text of a document can start emphasis, a link, a list or another source annotation. */
  lemma OnlyOwnPunctuation(d: Document, b: Byte)
    requires b in {33, 34, 35, 36, 37, 38, 39, 40, 41, 42, 43, 44, 45, 46, 47, 58, 59, 60, 61, 62, 63, 64, 91, 92, 93,
                   94, 95, 96, 123, 124, 125, 126}
    ensures Bare(Render(d), b) == Own(b, |d.entries|)
  {
    assert AsciiPunctuation(b);
    hide Bare, Escape, RenderEntries, AsciiPunctuation;
    EntriesBare(d.entries, b);
    MarkBytes(b);
    var body := GAP + RenderEntries(d.entries);
    MarkHas(TITLE_MARK, Escape(d.title) + body, b);
    EscapedHasNone(d.title, body, b);
    MarkHas(GAP, RenderEntries(d.entries), b);
  }

  /** Exactly one source annotation per passage: no text can forge another. */
  lemma OneAnnotationEach(d: Document)
    ensures Bare(Render(d), 58) == |d.entries|
  {
    OnlyOwnPunctuation(d, 58);
  }

  /** Every backslash stands in front of a character that Markdown can escape. */
  predicate EscapesOk(s: Bytes) {
    s == [] || if s[0] == 92 then |s| >= 2 && AsciiPunctuation(s[1]) && EscapesOk(s[2..]) else EscapesOk(s[1..])
  }

  lemma {:induction false} EscapedOk(t: Bytes, rest: Bytes)
    requires EscapesOk(rest)
    ensures EscapesOk(Escape(t) + rest)
  {
    if t == [] {
      assert Escape(t) + rest == rest;
    } else {
      var head := EscapeByte(t[0]);
      EscapedOk(t[1..], rest);
      Associate(head, Escape(t[1..]), rest);
      var s, tail := Escape(t) + rest, Escape(t[1..]) + rest;
      hide Escape;
      assert s == head + tail && s[|head|..] == tail && s[0] == head[0];
    }
  }

  lemma {:induction false} MarkOk(mark: Bytes, rest: Bytes)
    requires 92 !in mark && EscapesOk(rest)
    ensures EscapesOk(mark + rest)
  {
    if mark == [] {
      assert mark + rest == rest;
    } else {
      assert (mark + rest)[1..] == mark[1..] + rest && mark[0] in mark;
      MarkOk(mark[1..], rest);
    }
  }

  lemma EntryOk(e: Entry, rest: Bytes)
    requires EscapesOk(rest)
    ensures EscapesOk(RenderEntry(e, rest))
  {
    hide EscapesOk, Escape;
    var s4 := Escape(e.revision) + (GAP + rest);
    var s2 := Escape(e.id) + (AT_MARK + s4);
    MarkOk(GAP, rest);
    EscapedOk(e.revision, GAP + rest);
    MarkOk(AT_MARK, s4);
    EscapedOk(e.id, AT_MARK + s4);
    MarkOk(SOURCE_MARK, s2);
    EscapedOk(e.text, SOURCE_MARK + s2);
  }

  lemma {:induction false} EntriesOk(es: seq<Entry>)
    ensures EscapesOk(RenderEntries(es))
  {
    if es != [] {
      EntriesOk(es[1..]);
      EntryOk(es[0], RenderEntries(es[1..]));
    }
  }

  /** No other character is escaped: a backslash never shows in the text that Markdown displays unless
      the document has one. */
  lemma OnlyPunctuationEscaped(d: Document)
    ensures EscapesOk(Render(d))
  {
    EntriesOk(d.entries);
    hide EscapesOk, Escape, RenderEntries;
    var body := GAP + RenderEntries(d.entries);
    MarkOk(GAP, RenderEntries(d.entries));
    EscapedOk(d.title, body);
    MarkOk(TITLE_MARK, Escape(d.title) + body);
  }

  // ----- No control character gets through -----

  predicate Printable(s: Bytes) {
    forall i :: 0 <= i < |s| ==> s[i] == 10 || 32 <= s[i] <= 126 || 128 <= s[i]
  }

  lemma {:induction false} EscapePrintable(s: Bytes)
    requires Printable(s)
    ensures Printable(Escape(s))
  {
    if s != [] { EscapePrintable(s[1..]); }
  }

  lemma TextPrintable(s: Bytes, limit: nat, multiline: bool)
    requires TextValid(s, limit, multiline)
    ensures Printable(s)
  {
    forall i | 0 <= i < |s|
      ensures s[i] == 10 || 32 <= s[i] <= 126 || 128 <= s[i]
    {
      TextBytes(s[i], multiline);
    }
  }

  lemma IdPrintable(s: Bytes)
    requires IdValid(s)
    ensures Printable(s)
  {
    forall i | 0 <= i < |s|
      ensures 32 <= s[i] <= 126
    {
      IdBytes(s[i]);
    }
  }

  lemma {:induction false} EntriesPrintable(es: seq<Entry>)
    requires forall i :: 0 <= i < |es| ==> EntryValid(es[i])
    ensures Printable(RenderEntries(es))
  {
    hide RenderEntry, EntryValid, Printable;
    if es != [] {
      EntriesPrintable(es[1..]);
      EntryPrintable(es[0], RenderEntries(es[1..]));
    } else {
      NothingPrintable();
    }
  }

  lemma NothingPrintable()
    ensures Printable([])
  {
  }

  lemma EntryPrintable(e: Entry, rest: Bytes)
    requires EntryValid(e) && Printable(rest)
    ensures Printable(RenderEntry(e, rest))
  {
    hide Escape, TextValid, IdValid;
    TextPrintable(e.text, 2048, true);
    IdPrintable(e.id);
    IdPrintable(e.revision);
    EscapePrintable(e.text);
    EscapePrintable(e.id);
    EscapePrintable(e.revision);
  }

  /** A rendering holds line feeds and no other control character. */
  lemma RenderPrintable(d: Document)
    requires DocumentValid(d)
    ensures Printable(Render(d))
  {
    hide EntryValid, TextValid, Escape, RenderEntries;
    EntriesPrintable(d.entries);
    TextPrintable(d.title, 160, false);
    EscapePrintable(d.title);
  }
}
