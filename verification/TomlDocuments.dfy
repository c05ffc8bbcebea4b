/** Main theorem on the TOML reader: a document of string arrays reads as what it says, whatever the
    strings contain, however they are spelled, and with any comments. */
module TomlDocuments {
  import opened TomlSpec
  import opened TomlRoundTrip

  // ---------------------------------------------------------------- one array

  lemma CoreSplits(a: Array)
    requires ArrayOk(a) && a.Items?
    ensures SplitItems(Core(a), 0, 0) == [Literal(a.first)] + RestLiterals(a.rest)
  {
    hide Literal, RestText, PiecesOk, CellsOk;
    var body := Core(a);
    assert body[..|Literal(a.first)|] == Literal(a.first);
    LiteralHushed(body, 0, a.first);
    SplitSkips(body, 0, 0, |Literal(a.first)|);
    assert body[0..] == "" + (Literal(a.first) + RestText(a.rest));
    SplitRest(body, 0, "", a.first, a.rest);
  }

  lemma {:induction false} RestEnds(cells: seq<Cell>)
    ensures cells != [] ==> Ends(RestText(cells), '"')
  {
    if cells != [] {
      RestEnds(cells[1..]);
      var t := CellText(cells[0]);
      assert t[|t| - 1] == '"';
      if cells[1..] == [] { assert RestText(cells) == t; }
    }
  }

  lemma CoreFirm(a: Array)
    requires a.Items?
    ensures Firm(Core(a))
  {
    hide RestText;
    LiteralFirm(a.first);
    RestEnds(a.rest);
    if a.rest == [] { NoRest(); }
    assert Core(a)[0] == Literal(a.first)[0];
  }

  lemma NoRest()
    ensures RestText([]) == ""
  {
  }

  lemma ArraySplits(a: Array)
    requires ArrayOk(a)
    ensures SplitArrayItems(ArrayText(a)) == if a.NoItems? then [] else [Literal(a.first)] + RestLiterals(a.rest)
  {
    hide Core, SplitItems, Trim, TrimStart, TrimEnd;
    var raw := ArrayText(a);
    assert raw[1..|raw| - 1] == Inner(a);
    if a.NoItems? {
      TrimBlank(a.lead);
      NothingSplits();
    } else {
      CoreFirm(a);
      TrimPad(a.lead, Core(a), a.trail);
      CoreSplits(a);
    }
  }

  lemma NothingSplits()
    ensures SplitItems("", 0, 0) == []
  {
    assert ""[0..] == "";
  }

  function AsValues(strings: seq<string>): seq<Value> {
    seq(|strings|, i requires 0 <= i < |strings| => Str(strings[i]))
  }

  lemma {:induction false} ItemsRead(items: seq<string>, strings: seq<string>, line: nat)
    requires |items| == |strings| &&
        forall i :: 0 <= i < |items| ==> ParseArrayItem(items[i], line) == Ok(Str(strings[i]))
    ensures ParseItems(items, line) == Ok(AsValues(strings))
  {
    hide ParseArrayItem;
    if items != [] {
      var last := |items| - 1;
      ItemsRead(items[..last], strings[..last], line);
      assert AsValues(strings) == AsValues(strings[..last]) + [Str(strings[last])];
    }
  }

  lemma ItemReads(pieces: seq<Piece>, line: nat)
    requires PiecesOk(pieces)
    ensures ParseArrayItem(Literal(pieces), line) == Ok(Str(Meaning(pieces)))
  {
    hide ParseString;
    LiteralReads(pieces, line);
  }

  lemma ArrayReads(a: Array, line: nat)
    requires ArrayOk(a)
    ensures ParseArray(ArrayText(a), line) == Ok(Strs(ArrayMeaning(a)))
  {
    hide Literal, ParseArrayItem, SplitArrayItems, Inner;
    ArraySplits(a);
    var items := SplitArrayItems(ArrayText(a));
    var strings := ArrayMeaning(a);
    forall i | 0 <= i < |items| ensures ParseArrayItem(items[i], line) == Ok(Str(strings[i])) {
      if i == 0 { ItemReads(a.first, line); } else {
        assert CellOk(a.rest[i - 1]);
        ItemReads(a.rest[i - 1].pieces, line);
      }
    }
    ItemsRead(items, strings, line);
    var values := AsValues(strings);
    assert seq(|values|, i requires 0 <= i < |values| => values[i].s) == strings;
  }

  lemma ArrayFirm(a: Array)
    ensures Firm(ArrayText(a)) && Starts(ArrayText(a), '[') && Ends(ArrayText(a), ']')
  {
  }

  lemma ValueReads(a: Array, line: nat)
    requires ArrayOk(a)
    ensures ParseValue(ArrayText(a), line) == Ok(Strs(ArrayMeaning(a)))
  {
    hide ArrayText, ParseArray, Trim;
    ArrayFirm(a);
    assert "" + (ArrayText(a) + "") == ArrayText(a);
    TrimPad("", ArrayText(a), "");
    ArrayReads(a, line);
  }

  lemma {:induction false} DepthSkips(s: string, i: nat, k: nat)
    requires Hushed(s, i, k)
    ensures Depth(s, k) == Depth(s, i)
    decreases k - i
  {
    hide Inside;
    if i < k { DepthSkips(s, i, k - 1); }
  }

  /** Brackets in strings do not count. */
  lemma ArrayBalances(a: Array)
    requires ArrayOk(a)
    ensures Depth(ArrayText(a), |ArrayText(a)|) == 0
  {
    hide Inner, ArrayOk;
    var s := ArrayText(a);
    var close := 1 + |Inner(a)|;
    assert s[0] == '[' && s[close] == ']' && |s| == close + 1;
    assert s[..1] == "[";
    QuietScan(s, 0, "[");
    assert s[1..close] == Inner(a);
    InnerScan(s, 1, a);
    DepthSkips(s, 1, close);
    assert Depth(s, 1) == 1;
  }

  // ---------------------------------------------------------------- one line

  /** A key with an array. A `comment` is empty or starts with `#`. */
  datatype Entry = Entry(indent: string, key: string, before: string, after: string, list: Array, trail: string,
    comment: string, crlf: bool)

  predicate OneLine(t: string) { forall i :: 0 <= i < |t| ==> t[i] != '\n' && t[i] != '\r' }

  predicate EntryOk(e: Entry) {
    Blank(e.indent) && IsBare(e.key) && Blank(e.before) && Blank(e.after) && ArrayOk(e.list) && Blank(e.trail) &&
    (e.comment == "" || (e.comment[0] == '#' && OneLine(e.comment)))
  }

  function KeyText(e: Entry): string { e.key + (e.before + ("=" + (e.after + ArrayText(e.list)))) }

  function LineText(e: Entry): string { e.indent + (KeyText(e) + (e.trail + e.comment)) }

  /** Everything up to the bracket. */
  function Opening(e: Entry): string { e.indent + (e.key + (e.before + ("=" + (e.after + "[")))) }

  predicate PlainText(t: string) { forall i :: 0 <= i < |t| ==> t[i] != '"' && t[i] != '\\' && t[i] != '#' }

  lemma OpeningPlain(e: Entry)
    requires EntryOk(e)
    ensures PlainText(Opening(e)) && Quiet(Opening(e)) && PlainText("]" + e.trail) && Quiet("]" + e.trail)
  {
    forall i | 0 <= i < |e.key| ensures e.key[i] != '"' && e.key[i] != '\\' && e.key[i] != '#' {}
    assert PlainText(e.indent) && PlainText(e.before) && PlainText(e.after) && PlainText(e.trail) && PlainText(e.key);
    PlainJoin("]", e.trail);
    PlainJoin(e.after, "[");
    PlainJoin("=", e.after + "[");
    PlainJoin(e.before, "=" + (e.after + "["));
    PlainJoin(e.key, e.before + ("=" + (e.after + "[")));
    PlainJoin(e.indent, e.key + (e.before + ("=" + (e.after + "["))));
  }

  lemma PlainJoin(t: string, u: string)
    requires PlainText(t) && PlainText(u)
    ensures PlainText(t + u)
  {
  }

  lemma {:induction false} CutSkips(s: string, i: nat, k: nat)
    requires i <= k <= |s| && forall j :: i <= j < k ==> s[j] != '#' || Inside(s, j)
    ensures CutAt(s, i) == CutAt(s, k)
    decreases k - i
  {
    hide Inside;
    if i < k { CutSkips(s, i + 1, k); }
  }

  /** The four stretches of a line. */
  lemma LineShape(e: Entry)
    ensures
      var s := LineText(e);
      var open := |Opening(e)|;
      var close := open + |Inner(e.list)|;
      var end := close + |"]" + e.trail|;
      end <= |s| && HasAt(s, 0, Opening(e)) && HasAt(s, open, Inner(e.list)) && HasAt(s, close, "]" + e.trail) &&
      s[end..] == e.comment && s[..end] == e.indent + (KeyText(e) + e.trail)
  {
    hide Inner, HasAt;
    var s := LineText(e);
    assert ArrayText(e.list) == "[" + (Inner(e.list) + "]");
    var open, close := |Opening(e)|, |Opening(e)| + |Inner(e.list)|;
    assert s == Opening(e) + (Inner(e.list) + (("]" + e.trail) + e.comment));
    assert e.indent + (KeyText(e) + e.trail) == Opening(e) + (Inner(e.list) + ("]" + e.trail));
    assert s[0..] == s;
    Ahead(s, 0, Opening(e), Inner(e.list) + (("]" + e.trail) + e.comment));
    Ahead(s, open, Inner(e.list), ("]" + e.trail) + e.comment);
    Ahead(s, close, "]" + e.trail, e.comment);
  }

  /** The comment is cut off, and nothing else. */
  lemma LineStrips(e: Entry)
    requires EntryOk(e)
    ensures Stripped(LineText(e)) == e.indent + (KeyText(e) + e.trail)
  {
    hide Inside, Slashes, Inner, Clear, ArrayOk, IsBare, HasAt, Quiet, PlainText, CutAt, OneLine, Blank, LineText,
      KeyText, Opening;
    var s := LineText(e);
    var open, close, end := |Opening(e)|, |Opening(e)| + |Inner(e.list)|,
      |Opening(e)| + |Inner(e.list)| + |"]" + e.trail|;
    LineShape(e);
    OpeningPlain(e);
    StartIsClear(s);
    QuietScan(s, 0, Opening(e));
    InnerScan(s, open, e.list);
    QuietScan(s, close, "]" + e.trail);
    NoHash(s, 0, Opening(e));
    NoHash(s, close, "]" + e.trail);
    CutSkips(s, 0, open);
    CutSkips(s, open, close);
    CutSkips(s, close, end);
    CommentCut(s, end, e.comment);
  }

  lemma StartIsClear(s: string)
    ensures Clear(s, 0)
  {
  }

  lemma NoHash(s: string, i: nat, t: string)
    requires HasAt(s, i, t) && PlainText(t)
    ensures forall j :: i <= j < i + |t| ==> s[j] != '#'
  {
    forall j | i <= j < i + |t| ensures s[j] != '#' { assert s[j] == t[j - i]; }
  }

  lemma CommentCut(s: string, end: nat, comment: string)
    requires end <= |s| && s[end..] == comment && !Inside(s, end) && (comment == "" || comment[0] == '#')
    ensures CutAt(s, end) == end
  {
    if comment != "" { assert s[end] == s[end..][0]; }
  }

  lemma KeyFirm(e: Entry)
    requires EntryOk(e)
    ensures Firm(e.key) && Firm(KeyText(e)) && KeyText(e)[0] == e.key[0] && e.key[0] != '[' && e.key[0] != '"'
  {
    hide Inner;
    ArrayFirm(e.list);
  }

  lemma {:induction false} EqualsSkips(s: string, i: nat, k: nat)
    requires i <= k < |s| && s[k] == '=' && forall j :: i <= j < k ==> s[j] != '='
    ensures EqualsAt(s, i) == k
    decreases k - i
  {
    if i < k { EqualsSkips(s, i + 1, k); }
  }

  lemma KeySplits(e: Entry)
    requires EntryOk(e)
    ensures
      var text := KeyText(e);
      var at := EqualsAt(text, 0);
      at < |text| && Trim(text[..at]) == e.key && Trim(text[at + 1..]) == ArrayText(e.list)
  {
    hide ArrayText, ArrayOk, EqualsAt, Trim;
    var text := KeyText(e);
    var at := |e.key| + |e.before|;
    forall j | 0 <= j < at ensures text[j] != '=' {
      if j < |e.key| { assert text[j] == e.key[j]; } else { assert text[j] == e.before[j - |e.key|]; }
    }
    assert text[at] == '=';
    EqualsSkips(text, 0, at);
    KeyFirm(e);
    ArrayFirm(e.list);
    assert text[..at] == "" + (e.key + e.before);
    TrimPad("", e.key, e.before);
    assert text[at + 1..] == e.after + (ArrayText(e.list) + "");
    TrimPad(e.after, ArrayText(e.list), "");
  }

  /** The list of strings that the line says. */
  function Said(e: Entry): Value
    requires EntryOk(e)
  {
    Strs(ArrayMeaning(e.list))
  }

  function Bind(doc: Doc, e: Entry): Doc
    requires EntryOk(e)
  {
    Assign(doc, e.key, Said(e))
  }

  lemma EntryReads(lines: seq<string>, index: nat, e: Entry, doc: Doc)
    requires index < |lines| && EntryOk(e) && doc.current + [e.key] !in doc.values &&
        doc.current + [e.key] !in doc.tables
    ensures KeyLine(lines, index, KeyText(e), doc) == Ok((Bind(doc, e), index))
  {
    hide KeyText, ArrayText, ParseValue, Trim, EqualsAt, Depth, ArrayOk;
    KeySplits(e);
    KeyFirm(e);
    ArrayFirm(e.list);
    ArrayBalances(e.list);
    ValueReads(e.list, index + 1);
  }

  lemma LineReads(lines: seq<string>, index: nat, e: Entry, doc: Doc)
    requires index < |lines| && EntryOk(e) && doc.current + [e.key] !in doc.values &&
        doc.current + [e.key] !in doc.tables
    requires lines[index] == LineText(e)
    ensures ParseLines(lines, index, doc) == ParseLines(lines, index + 1, Bind(doc, e))
  {
    hide KeyText, Trim, Stripped, LineText, KeyLine, EntryOk, Firm;
    LineStrips(e);
    assert Blank(e.indent) && Blank(e.trail) by { EntryBlank(e); }
    KeyFirm(e);
    FirmText(KeyText(e));
    TrimPad(e.indent, KeyText(e), e.trail);
    EntryReads(lines, index, e, doc);
  }

  lemma FirmText(t: string)
    requires Firm(t)
    ensures t != ""
  {
  }

  lemma EntryBlank(e: Entry)
    requires EntryOk(e)
    ensures Blank(e.indent) && Blank(e.trail)
  {
  }

  lemma RepeatReads(lines: seq<string>, index: nat, e: Entry, doc: Doc)
    requires index < |lines| && EntryOk(e) &&
        (doc.current + [e.key] in doc.values || doc.current + [e.key] in doc.tables)
    requires lines[index] == LineText(e)
    ensures ParseLines(lines, index, doc) == Err(DuplicateKey, index + 1)
  {
    hide KeyText, Trim, Stripped, LineText, EntryOk, Firm;
    LineStrips(e);
    assert Blank(e.indent) && Blank(e.trail) by { EntryBlank(e); }
    KeyFirm(e);
    FirmText(KeyText(e));
    TrimPad(e.indent, KeyText(e), e.trail);
    KeySplits(e);
    BareKey(e);
  }

  lemma BareKey(e: Entry)
    requires EntryOk(e)
    ensures IsBare(e.key)
  {
  }

  // ---------------------------------------------------------------- documents

  function Eol(e: Entry): string { if e.crlf then "\r\n" else "\n" }

  function DocText(entries: seq<Entry>): string {
    if entries == [] then "" else LineText(entries[0]) + (Eol(entries[0]) + DocText(entries[1..]))
  }

  function Lines(entries: seq<Entry>): seq<string> {
    seq(|entries|, i requires 0 <= i < |entries| => LineText(entries[i])) + [""]
  }

  lemma OneLineJoin(t: string, u: string)
    requires OneLine(t) && OneLine(u)
    ensures OneLine(t + u)
  {
  }

  lemma {:induction false} SpelledOneLine(pieces: seq<Piece>)
    requires PiecesOk(pieces)
    ensures OneLine(Spelled(pieces))
  {
    if pieces != [] {
      SpelledOneLine(pieces[1..]);
      PieceOneLine(pieces[0]);
      OneLineJoin(Spell(pieces[0]), Spelled(pieces[1..]));
    }
  }

  lemma PieceOneLine(p: Piece)
    requires PieceOk(p)
    ensures OneLine(Spell(p))
  {
  }

  lemma LiteralOneLine(pieces: seq<Piece>)
    requires PiecesOk(pieces)
    ensures OneLine(Literal(pieces))
  {
    SpelledOneLine(pieces);
    OneLineJoin("\"" + Spelled(pieces), "\"");
  }

  lemma {:induction false} RestOneLine(cells: seq<Cell>)
    requires CellsOk(cells)
    ensures OneLine(RestText(cells))
  {
    hide Literal;
    if cells != [] {
      var c := cells[0];
      assert CellOk(c);
      RestOneLine(cells[1..]);
      LiteralOneLine(c.pieces);
      OneLineJoin(c.after, Literal(c.pieces));
      OneLineJoin(",", c.after + Literal(c.pieces));
      OneLineJoin(c.before, "," + (c.after + Literal(c.pieces)));
      OneLineJoin(CellText(c), RestText(cells[1..]));
    }
  }

  lemma ArrayOneLine(a: Array)
    requires ArrayOk(a)
    ensures OneLine(ArrayText(a))
  {
    hide Literal, RestText;
    if a.Items? {
      LiteralOneLine(a.first);
      RestOneLine(a.rest);
      OneLineJoin(Literal(a.first), RestText(a.rest));
      OneLineJoin(Core(a), a.trail);
      OneLineJoin(a.lead, Core(a) + a.trail);
    }
    OneLineJoin(Inner(a), "]");
    OneLineJoin("[", Inner(a) + "]");
  }

  lemma LineIsOneLine(e: Entry)
    requires EntryOk(e)
    ensures OneLine(LineText(e))
  {
    hide ArrayText, ArrayOk;
    ArrayOneLine(e.list);
    OneLineJoin(e.after, ArrayText(e.list));
    OneLineJoin("=", e.after + ArrayText(e.list));
    OneLineJoin(e.before, "=" + (e.after + ArrayText(e.list)));
    OneLineJoin(e.key, e.before + ("=" + (e.after + ArrayText(e.list))));
    OneLineJoin(e.trail, e.comment);
    OneLineJoin(KeyText(e), e.trail + e.comment);
    OneLineJoin(e.indent, KeyText(e) + (e.trail + e.comment));
  }

  lemma {:induction false} SplitLinesSkips(s: string, start: nat, i: nat, k: nat)
    requires start <= i <= k <= |s| && forall j :: i <= j < k ==> s[j] != '\n'
    ensures SplitLines(s, start, i) == SplitLines(s, start, k)
    decreases k - i
  {
    if i < k { SplitLinesSkips(s, start, i + 1, k); }
  }

  lemma LineSplits(s: string, start: nat, t: string, crlf: bool, rest: string)
    requires start <= |s| && OneLine(t) && s[start..] == t + ((if crlf then "\r\n" else "\n") + rest)
    ensures
      var next := start + |t| + if crlf then 2 else 1;
      next <= |s| && s[next..] == rest && SplitLines(s, start, start) == [t] + SplitLines(s, next, next)
  {
    hide SplitLines, OneLine, HasAt;
    var end := start + |t|;
    if crlf {
      assert s[start..] == t + ("\r" + ("\n" + rest));
      Ahead(s, start, t, "\r" + ("\n" + rest));
      Ahead(s, end, "\r", "\n" + rest);
      Ahead(s, end + 1, "\n", rest);
      CharAt(s, end, '\r');
      CharAt(s, end + 1, '\n');
      NoBreak(s, start, t);
      SplitLinesSkips(s, start, start, end + 1);
      NewlineSplits(s, start, end + 1, end);
    } else {
      Ahead(s, start, t, "\n" + rest);
      Ahead(s, end, "\n", rest);
      CharAt(s, end, '\n');
      NoBreak(s, start, t);
      SplitLinesSkips(s, start, start, end);
      NewlineSplits(s, start, end, end);
    }
  }

  lemma NoBreak(s: string, start: nat, t: string)
    requires HasAt(s, start, t) && OneLine(t)
    ensures forall j :: start <= j < start + |t| ==> s[j] != '\n' && s[j] != '\r'
  {
    forall j | start <= j < start + |t| ensures s[j] != '\n' && s[j] != '\r' { assert s[j] == t[j - start]; }
  }

  lemma NewlineSplits(s: string, start: nat, newline: nat, end: nat)
    requires start <= newline < |s| && s[newline] == '\n'
    requires end == if newline > start && s[newline - 1] == '\r' then newline - 1 else newline
    ensures SplitLines(s, start, newline) == [s[start..end]] + SplitLines(s, newline + 1, newline + 1)
  {
  }

  lemma {:induction false} DocSplits(s: string, start: nat, entries: seq<Entry>)
    requires start <= |s| && s[start..] == DocText(entries) && forall i :: 0 <= i < |entries| ==> EntryOk(entries[i])
    ensures SplitLines(s, start, start) == Lines(entries)
    decreases |entries|
  {
    hide LineText, EntryOk;
    if entries != [] {
      var e := entries[0];
      LineIsOneLine(e);
      LineSplits(s, start, LineText(e), e.crlf, DocText(entries[1..]));
      DocSplits(s, start + |LineText(e)| + |Eol(e)|, entries[1..]);
      assert Lines(entries) == [LineText(e)] + Lines(entries[1..]);
    }
  }

  /** The first key that makes an own property and was there before. */
  function FirstRepeat(entries: seq<Entry>, k: nat): (at: nat)
    requires k <= |entries|
    ensures k <= at <= |entries|
    decreases |entries| - k
  {
    if k == |entries| || Repeats(entries, k) then k else FirstRepeat(entries, k + 1)
  }

  predicate Repeats(entries: seq<Entry>, k: nat)
    requires k < |entries|
  {
    entries[k].key != "__proto__" && exists i :: 0 <= i < k && entries[i].key == entries[k].key
  }

  predicate EntriesOk(entries: seq<Entry>) { forall i :: 0 <= i < |entries| ==> EntryOk(entries[i]) }

  /** The first `k` keys and their strings, and nothing else, and of the keys `__proto__` nothing. */
  ghost predicate Holds(doc: Doc, entries: seq<Entry>, k: nat)
    requires EntriesOk(entries) && k <= |entries|
  {
    doc.tables == {} && doc.defined == {} && doc.current == [] &&
    (forall path :: path in doc.values ==> exists i :: 0 <= i < k && path == [entries[i].key]) &&
    (forall i :: 0 <= i < k && entries[i].key != "__proto__" ==>
       [entries[i].key] in doc.values && doc.values[[entries[i].key]] == Said(entries[i])) &&
    ["__proto__"] !in doc.values
  }

  lemma BindHolds(doc: Doc, entries: seq<Entry>, k: nat)
    requires EntriesOk(entries) && k < |entries| && Holds(doc, entries, k)
    ensures [entries[k].key] in doc.values <==> Repeats(entries, k)
    ensures !Repeats(entries, k) ==> Holds(Bind(doc, entries[k]), entries, k + 1)
  {
    hide EntryOk, Said;
    if exists i :: 0 <= i < k && entries[i].key == entries[k].key && entries[k].key != "__proto__" {
      assert Repeats(entries, k);
    }
    if [entries[k].key] in doc.values {
      var i :| 0 <= i < k && [entries[k].key] == [entries[i].key];
      assert [entries[k].key][0] == [entries[i].key][0];
    }
    if !Repeats(entries, k) && entries[k].key != "__proto__" { BoundHolds(doc, entries, k); }
  }

  lemma BoundHolds(doc: Doc, entries: seq<Entry>, k: nat)
    requires EntriesOk(entries) && k < |entries| && Holds(doc, entries, k) && !Repeats(entries, k) &&
        entries[k].key != "__proto__"
    ensures Holds(Bind(doc, entries[k]), entries, k + 1)
  {
    hide EntryOk, Said;
    var key := entries[k].key;
    forall i | 0 <= i < k ensures [entries[i].key] != [key] { assert [entries[i].key][0] != [key][0]; }
    var next := Bind(doc, entries[k]);
    assert [] + [key] == [key] && [key][0] != ["__proto__"][0];
    forall path | path in next.values ensures exists i :: 0 <= i < k + 1 && path == [entries[i].key] {
      if path != [key] { assert path in doc.values; }
    }
    forall i | 0 <= i < k && entries[i].key != "__proto__"
      ensures [entries[i].key] in next.values && next.values[[entries[i].key]] == Said(entries[i])
    {
      assert [entries[i].key] != [key];
    }
  }

  /** From line `k` on: read to the end, or up to the first repeated key. */
  lemma {:induction false} LinesRead(entries: seq<Entry>, k: nat, doc: Doc) returns (last: Doc)
    requires EntriesOk(entries) && k <= |entries| && Holds(doc, entries, k)
    ensures
      var at := FirstRepeat(entries, k);
      if at == |entries| then ParseLines(Lines(entries), k, doc) == Ok(last) && Holds(last, entries, |entries|)
      else ParseLines(Lines(entries), k, doc) == Err(DuplicateKey, at + 1)
    decreases |entries| - k
  {
    hide LineText, EntryOk, Holds, Said, ParseLines, Repeats, Bind;
    var lines := Lines(entries);
    last := doc;
    if k == |entries| {
      BlankLine(lines, k, doc);
    } else {
      BindHolds(doc, entries, k);
      AtRoot(doc, entries, k);
      if Repeats(entries, k) {
        RepeatReads(lines, k, entries[k], doc);
      } else {
        LineReads(lines, k, entries[k], doc);
        last := LinesRead(entries, k + 1, Bind(doc, entries[k]));
      }
    }
  }

  lemma AtRoot(doc: Doc, entries: seq<Entry>, k: nat)
    requires EntriesOk(entries) && k < |entries| && Holds(doc, entries, k)
    ensures doc.current + [entries[k].key] == [entries[k].key] && [entries[k].key] !in doc.tables
  {
  }

  lemma BlankLine(lines: seq<string>, k: nat, doc: Doc)
    requires |lines| == k + 1 && lines[k] == ""
    ensures ParseLines(lines, k, doc) == Ok(doc)
  {
    assert Stripped("") == "";
    assert Trim("") == "";
    assert ParseLines(lines, k + 1, doc) == Ok(doc);
  }

  /** Main theorem: reading a printed document gives back exactly its keys and lists of strings, or
      the first key that is repeated. The key `__proto__` is the exception: it is neither kept nor
      ever repeated. */
  lemma {:induction false} DocumentReads(entries: seq<Entry>) returns (doc: Doc)
    requires EntriesOk(entries)
    ensures
      var at := FirstRepeat(entries, 0);
      if at == |entries| then ParseToml(DocText(entries)) == Ok(doc) && Holds(doc, entries, |entries|)
      else ParseToml(DocText(entries)) == Err(DuplicateKey, at + 1)
  {
    hide EntryOk, LineText, ParseLines, SplitLines;
    var s := DocText(entries);
    assert s[0..] == s;
    DocSplits(s, 0, entries);
    doc := LinesRead(entries, 0, EMPTY);
  }

  /** The list on one line under a bare key, each string with short escapes and codes only where they
      are needed. */
  function Printed(key: string, strings: seq<string>): Entry {
    Entry("", key, " ", " ",
          if strings == [] then NoItems("")
          else Items("", Canonical(strings[0]),
                     seq(|strings| - 1, i requires 0 <= i < |strings| - 1 => Cell("", " ", Canonical(strings[i + 1]))),
                       ""),
          "", "", false)
  }

  lemma PrintedMeans(key: string, strings: seq<string>)
    requires IsBare(key)
    ensures EntryOk(Printed(key, strings)) && ArrayMeaning(Printed(key, strings).list) == strings
  {
    hide Canonical, PiecesOk, Meaning, IsBare;
    forall i | 0 <= i < |strings|
      ensures PiecesOk(Canonical(strings[i])) && Meaning(Canonical(strings[i])) == strings[i]
    {
      CanonicalMeans(strings[i]);
    }
    var a := Printed(key, strings).list;
    if strings != [] {
      assert CellsOk(a.rest);
      assert ArrayMeaning(a) == strings;
    }
  }

  /** Round trip: any list of strings comes back from its one-line form under any bare key but
      `__proto__`, and under that one it does not. */
  lemma {:induction false} ListRoundTrip(key: string, strings: seq<string>) returns (doc: Doc)
    requires IsBare(key)
    ensures ParseToml(LineText(Printed(key, strings)) + "\n") == Ok(doc)
    ensures doc.tables == {} && doc.values == if key == "__proto__" then map[] else map[[key] := Strs(strings)]
  {
    hide EntryOk, LineText, ParseToml, Printed;
    var e := Printed(key, strings);
    PrintedMeans(key, strings);
    PrintedKey(key, strings);
    assert !Repeats([e], 0);
    assert FirstRepeat([e], 1) == 1;
    doc := DocumentReads([e]);
    assert DocText([]) == "" && [e][1..] == [];
    assert "\n" + "" == "\n";
    assert DocText([e]) == LineText(e) + "\n";
    if key == "__proto__" { assert doc.values.Keys == {}; } else { assert doc.values.Keys == {[key]}; }
  }

  lemma PrintedKey(key: string, strings: seq<string>)
    ensures Printed(key, strings).key == key && !Printed(key, strings).crlf
  {
  }
}
