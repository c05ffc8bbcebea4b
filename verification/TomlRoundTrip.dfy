/** Printing lists of strings and reading them back with `src/cli/toml.ts`: the scanners for
    comments, brackets and commas agree on where a string ends, whatever it contains. */
module TomlRoundTrip {
  import opened TomlSpec

  // ---------------------------------------------------------------- spelling strings

  /** One character of a basic string: itself, a short escape, or its code. */
  datatype Piece = Raw(c: char) | Short(c: char) | Hex4(digits: string) | Hex8(digits: string)

  predicate ShortLetter(c: char, letter: char) {
    match letter
    case 'b' => c == '\U{0008}'
    case 'f' => c == '\U{000C}'
    case 'n' => c == '\n'
    case 't' => c == '\t'
    case 'r' => c == '\r'
    case '"' => c == '"'
    case '\\' => c == '\\'
    case _ => false
  }

  function Letter(c: char): char {
    if c == '\U{0008}' then 'b' else if c == '\U{000C}' then 'f' else if c == '\n' then 'n' else if c == '\t' then 't'
    else if c == '\r' then 'r' else c
  }

  predicate PieceOk(p: Piece) {
    match p
    case Raw(c) => c != '"' && c != '\\' && !Control(c)
    case Short(c) => ShortLetter(c, Letter(c))
    case Hex4(digits) => |digits| == 4 && HexCode(digits)
    case Hex8(digits) => |digits| == 8 && HexCode(digits)
  }

  predicate HexCode(digits: string) {
    (forall i :: 0 <= i < |digits| ==> IsHex(digits[i])) && IsScalar(HexValue(digits))
  }

  function Spell(p: Piece): string {
    match p
    case Raw(c) => [c]
    case Short(c) => ['\\', Letter(c)]
    case Hex4(digits) => "\\u" + digits
    case Hex8(digits) => "\\U" + digits
  }

  function Meant(p: Piece): char
    requires PieceOk(p)
  {
    match p
    case Raw(c) => c
    case Short(c) => c
    case Hex4(digits) => HexValue(digits) as char
    case Hex8(digits) => HexValue(digits) as char
  }

  predicate PiecesOk(pieces: seq<Piece>) { forall i :: 0 <= i < |pieces| ==> PieceOk(pieces[i]) }

  function Spelled(pieces: seq<Piece>): string {
    if pieces == [] then "" else Spell(pieces[0]) + Spelled(pieces[1..])
  }

  function Meaning(pieces: seq<Piece>): string
    requires PiecesOk(pieces)
  {
    seq(|pieces|, i requires 0 <= i < |pieces| => Meant(pieces[i]))
  }

  function Literal(pieces: seq<Piece>): string { "\"" + Spelled(pieces) + "\"" }

  lemma PieceReads(p: Piece, rest: string, line: nat)
    requires PieceOk(p)
    ensures ParseBody(Spell(p) + rest, line) == Before(Meant(p), ParseBody(rest, line))
  {
    var body := Spell(p) + rest;
    match p
    case Raw(c) => assert body[1..] == rest;
    case Short(c) =>
      assert body[1..][0] == Letter(c);
      assert Escape(body[1..], line) == Ok((c, 1));
      assert body[2..] == rest;
    case Hex4(digits) => CodeReads('u', digits, rest, line);
    case Hex8(digits) => CodeReads('U', digits, rest, line);
  }

  lemma CodeReads(letter: char, digits: string, rest: string, line: nat)
    requires (letter == 'u' && |digits| == 4) || (letter == 'U' && |digits| == 8)
    requires HexCode(digits)
    ensures ParseBody(['\\', letter] + digits + rest, line) == Before(HexValue(digits) as char, ParseBody(rest, line))
  {
    hide HexValue;
    var body := ['\\', letter] + digits + rest;
    var after := body[1..];
    assert after == [letter] + (digits + rest);
    assert after[1..1 + |digits|] == digits;
    assert forall i :: 1 <= i < 1 + |digits| ==> after[i] == digits[i - 1];
    assert Escape(after, line) == Unicode(after, |digits|, line) == Ok((HexValue(digits) as char, 1 + |digits|));
    assert body[2 + |digits|..] == rest;
  }

  lemma {:induction false} BodyReads(pieces: seq<Piece>, line: nat)
    requires PiecesOk(pieces)
    ensures ParseBody(Spelled(pieces), line) == Ok(Meaning(pieces))
  {
    hide Spell, PieceOk, ParseBody;
    if pieces != [] {
      PieceReads(pieces[0], Spelled(pieces[1..]), line);
      BodyReads(pieces[1..], line);
      assert Meaning(pieces) == [Meant(pieces[0])] + Meaning(pieces[1..]);
    } else { NothingReads(line); }
  }

  lemma NothingReads(line: nat)
    ensures ParseBody("", line) == Ok("")
  {
  }

  /** A string literal, however it is spelled, reads as what it means. */
  lemma LiteralReads(pieces: seq<Piece>, line: nat)
    requires PiecesOk(pieces)
    ensures ParseString(Literal(pieces), line) == Ok(Meaning(pieces))
  {
    var raw := Literal(pieces);
    BodyReads(pieces, line);
    assert raw[1..|raw| - 1] == Spelled(pieces);
    if pieces != [] { assert raw[1] == Spell(pieces[0])[0]; }
  }

  /** Every string can be spelled. */
  function Canonical(s: string): seq<Piece> {
    seq(|s|, i requires 0 <= i < |s| => CanonicalPiece(s[i]))
  }

  function CanonicalPiece(c: char): Piece {
    if ShortLetter(c, Letter(c)) then Short(c) else if Control(c) then Hex4("00" + HexPair(c as int)) else Raw(c)
  }

  function HexPair(n: nat): string { [HexChar(n / 16 % 16), HexChar(n % 16)] }

  function HexChar(n: nat): (c: char)
    requires n < 16
    ensures IsHex(c) && HexDigit(c) == n
  {
    if n < 10 then (n + ('0' as int)) as char else (n - 10 + ('a' as int)) as char
  }

  lemma CanonicalMeans(s: string)
    ensures PiecesOk(Canonical(s)) && Meaning(Canonical(s)) == s
  {
    forall i | 0 <= i < |s| ensures PieceOk(CanonicalPiece(s[i])) && Meant(CanonicalPiece(s[i])) == s[i] {
      CanonicalPieceMeans(s[i]);
    }
  }

  lemma CanonicalPieceMeans(c: char)
    ensures PieceOk(CanonicalPiece(c)) && Meant(CanonicalPiece(c)) == c
  {
    if !ShortLetter(c, Letter(c)) && Control(c) {
      var n := c as int;
      var digits := "00" + HexPair(n);
      assert digits[..3] == "00" + [HexChar(n / 16)] && digits[..3][..2] == "00" && "00"[..1] == "0" && "0"[..0] == "";
      assert HexValue("0") == 0 && HexValue("00") == 0;
      assert HexValue(digits[..3]) == n / 16;
      assert HexValue(digits) == 16 * (n / 16) + n % 16;
    }
  }

  // ---------------------------------------------------------------- scanning

  /** The text `t` stands at position `i`. */
  predicate HasAt(s: string, i: nat, t: string) { i + |t| <= |s| && s[i..i + |t|] == t }

  lemma HasParts(s: string, i: nat, t: string, u: string)
    requires HasAt(s, i, t + u)
    ensures HasAt(s, i, t) && HasAt(s, i + |t|, u)
  {
    assert s[i..i + |t|] == (t + u)[..|t|];
    assert s[i + |t|..i + |t| + |u|] == (t + u)[|t|..];
  }

  /** Outside of strings, and not after a backslash. */
  ghost predicate Clear(s: string, i: nat) { i <= |s| && !Inside(s, i) && Slashes(s, i) == 0 }

  predicate Quiet(t: string) { forall i :: 0 <= i < |t| ==> t[i] != '"' && t[i] != '\\' }

  lemma {:induction false} QuietScan(s: string, i: nat, t: string)
    requires Clear(s, i) && HasAt(s, i, t) && Quiet(t)
    ensures Clear(s, i + |t|) && forall j :: i <= j <= i + |t| ==> !Inside(s, j)
    decreases |t|
  {
    if t != "" {
      assert s[i] == t[0];
      HasParts(s, i, t[..1], t[1..]);
      assert t == t[..1] + t[1..];
      QuietScan(s, i + 1, t[1..]);
    }
  }

  /** Inside a string, at the start of a piece. */
  ghost predicate InBody(s: string, i: nat) { i <= |s| && Inside(s, i) && Slashes(s, i) % 2 == 0 }

  lemma PlainScan(s: string, i: nat, t: string)
    requires i <= |s| && Inside(s, i) && HasAt(s, i, t) && Quiet(t) && t != ""
    ensures InBody(s, i + |t|) && forall j :: i <= j <= i + |t| ==> Inside(s, j)
    decreases |t|
  {
    assert s[i] == t[0];
    if |t| > 1 {
      assert t == t[..1] + t[1..];
      HasParts(s, i, t[..1], t[1..]);
      PlainScan(s, i + 1, t[1..]);
    }
  }

  lemma EscapeScan(s: string, i: nat)
    requires InBody(s, i) && i + 1 < |s| && s[i] == '\\'
    ensures Inside(s, i + 1) && InBody(s, i + 2)
  {
    assert Slashes(s, i + 1) == Slashes(s, i) + 1;
  }

  lemma CodeScan(s: string, i: nat, letter: char, digits: string)
    requires InBody(s, i) && HasAt(s, i, ['\\', letter] + digits) && (letter == 'u' || letter == 'U') && HexCode(digits)
    ensures InBody(s, i + 2 + |digits|) && forall j :: i <= j <= i + 2 + |digits| ==> Inside(s, j)
  {
    hide HexValue, HasAt;
    assert ['\\', letter] + digits == "\\" + ([letter] + digits);
    HasParts(s, i, "\\", [letter] + digits);
    CharAt(s, i, '\\');
    PlainScan(s, i + 1, [letter] + digits);
  }

  lemma CharAt(s: string, i: nat, c: char)
    requires HasAt(s, i, [c])
    ensures i < |s| && s[i] == c
  {
    assert s[i] == s[i..i + 1][0];
  }

  lemma PieceScan(s: string, i: nat, p: Piece)
    requires InBody(s, i) && PieceOk(p) && HasAt(s, i, Spell(p))
    ensures InBody(s, i + |Spell(p)|) && forall j :: i <= j <= i + |Spell(p)| ==> Inside(s, j)
  {
    hide HasAt, Slashes, HexCode;
    match p
    case Raw(c) => PlainScan(s, i, [c]);
    case Short(c) =>
      assert Spell(p) == ['\\'] + [Letter(c)];
      HasParts(s, i, ['\\'], [Letter(c)]);
      CharAt(s, i, '\\');
      CharAt(s, i + 1, Letter(c));
      EscapeScan(s, i);
    case Hex4(digits) => CodeScan(s, i, 'u', digits);
    case Hex8(digits) => CodeScan(s, i, 'U', digits);
  }

  lemma {:induction false} BodyScan(s: string, i: nat, pieces: seq<Piece>)
    requires InBody(s, i) && PiecesOk(pieces) && HasAt(s, i, Spelled(pieces))
    ensures InBody(s, i + |Spelled(pieces)|) && forall j :: i <= j <= i + |Spelled(pieces)| ==> Inside(s, j)
    decreases |pieces|
  {
    hide Spell, PieceOk;
    if pieces != [] {
      HasParts(s, i, Spell(pieces[0]), Spelled(pieces[1..]));
      PieceScan(s, i, pieces[0]);
      BodyScan(s, i + |Spell(pieces[0])|, pieces[1..]);
    }
  }

  lemma OpeningQuote(s: string, i: nat)
    requires Clear(s, i) && i < |s| && s[i] == '"'
    ensures InBody(s, i + 1)
  {
  }

  lemma ClosingQuote(s: string, i: nat)
    requires InBody(s, i) && i < |s| && s[i] == '"'
    ensures Clear(s, i + 1)
  {
  }

  /** Every scanner is in the string from after the opening quote to the closing one, and out of it
      from there. */
  lemma LiteralScan(s: string, i: nat, pieces: seq<Piece>)
    requires Clear(s, i) && PiecesOk(pieces) && HasAt(s, i, Literal(pieces))
    ensures Clear(s, i + |Literal(pieces)|)
    ensures forall j :: i < j < i + |Literal(pieces)| ==> Inside(s, j)
  {
    hide HasAt, Slashes, Spelled, PiecesOk, Clear;
    var n := |Spelled(pieces)|;
    assert Literal(pieces) == ['"'] + (Spelled(pieces) + ['"']);
    HasParts(s, i, ['"'], Spelled(pieces) + ['"']);
    HasParts(s, i + 1, Spelled(pieces), ['"']);
    CharAt(s, i, '"');
    CharAt(s, i + 1 + n, '"');
    OpeningQuote(s, i);
    BodyScan(s, i + 1, pieces);
    ClosingQuote(s, i + 1 + n);
  }

  // ---------------------------------------------------------------- arrays

  predicate Blank(t: string) { forall i :: 0 <= i < |t| ==> t[i] == ' ' || t[i] == '\t' }

  /** An item after the first: blanks, a comma, blanks, the string. */
  datatype Cell = Cell(before: string, after: string, pieces: seq<Piece>)

  datatype Array = NoItems(lead: string) | Items(lead: string, first: seq<Piece>, rest: seq<Cell>, trail: string)

  predicate CellOk(c: Cell) { Blank(c.before) && Blank(c.after) && PiecesOk(c.pieces) }

  predicate CellsOk(cells: seq<Cell>) { forall i :: 0 <= i < |cells| ==> CellOk(cells[i]) }

  predicate ArrayOk(a: Array) {
    Blank(a.lead) && (a.Items? ==> PiecesOk(a.first) && CellsOk(a.rest) && Blank(a.trail))
  }

  function CellText(c: Cell): string { c.before + ("," + (c.after + Literal(c.pieces))) }

  function RestText(cells: seq<Cell>): string {
    if cells == [] then "" else CellText(cells[0]) + RestText(cells[1..])
  }

  function Core(a: Array): string {
    if a.NoItems? then "" else Literal(a.first) + RestText(a.rest)
  }

  function Inner(a: Array): string {
    if a.NoItems? then a.lead else a.lead + (Core(a) + a.trail)
  }

  function ArrayText(a: Array): string { "[" + (Inner(a) + "]") }

  /** The strings the array holds. */
  function RestMeaning(cells: seq<Cell>): seq<string>
    requires CellsOk(cells)
  {
    seq(|cells|, i requires 0 <= i < |cells| => CellMeaning(cells[i]))
  }

  function CellMeaning(c: Cell): string
    requires CellOk(c)
  {
    Meaning(c.pieces)
  }

  function ArrayMeaning(a: Array): seq<string>
    requires ArrayOk(a)
  {
    if a.NoItems? then [] else [Meaning(a.first)] + RestMeaning(a.rest)
  }

  function RestLiterals(cells: seq<Cell>): seq<string> {
    seq(|cells|, i requires 0 <= i < |cells| => Literal(cells[i].pieces))
  }

  /** A bracket or `#`, which a scanner acts on outside of strings. */
  predicate Loud(c: char) { c == '#' || c == '[' || c == ']' }

  /** Between `i` and `k`, no scanner sees a bracket or a `#`. */
  ghost predicate Hushed(s: string, i: nat, k: nat) {
    i <= k <= |s| && forall j :: i <= j < k ==> !Loud(s[j]) || Inside(s, j)
  }

  /** Nothing is seen between `i` and `k`, and `k` is outside of strings again. */
  ghost predicate Passed(s: string, i: nat, k: nat) { Clear(s, k) && Hushed(s, i, k) }

  lemma PassedOn(s: string, i: nat, k: nat, m: nat)
    requires Passed(s, i, k) && Passed(s, k, m)
    ensures Passed(s, i, m)
  {
  }

  lemma BlankScan(s: string, i: nat, t: string)
    requires Clear(s, i) && HasAt(s, i, t) && Blank(t)
    ensures Clear(s, i + |t|) && Passed(s, i, i + |t|) && forall j :: i <= j < i + |t| ==> s[j] != ','
  {
    QuietScan(s, i, t);
    forall j | i <= j < i + |t| ensures s[j] == ' ' || s[j] == '\t' { assert s[j] == t[j - i]; }
  }

  lemma LiteralHushed(s: string, i: nat, pieces: seq<Piece>)
    requires Clear(s, i) && PiecesOk(pieces) && HasAt(s, i, Literal(pieces))
    ensures Clear(s, i + |Literal(pieces)|) && Passed(s, i, i + |Literal(pieces)|)
    ensures forall j :: i <= j < i + |Literal(pieces)| ==> s[j] != ',' || Inside(s, j)
  {
    LiteralScan(s, i, pieces);
    assert s[i] == s[i..i + |Literal(pieces)|][0] == '"';
  }

  lemma CommaScan(s: string, i: nat)
    requires Clear(s, i) && HasAt(s, i, ",")
    ensures Passed(s, i, i + 1) && Clear(s, i + 1) && s[i] == ',' && !Inside(s, i)
  {
    QuietScan(s, i, ",");
    assert s[i] == s[i..i + 1][0];
  }

  lemma CellScan(s: string, i: nat, c: Cell)
    requires Clear(s, i) && CellOk(c) && HasAt(s, i, CellText(c))
    ensures Clear(s, i + |CellText(c)|) && Passed(s, i, i + |CellText(c)|)
  {
    hide Inside, Slashes, Literal, Clear, Passed, HasAt, Blank, PiecesOk;
    var comma := i + |c.before|;
    var item := comma + 1 + |c.after|;
    HasParts(s, i, c.before, "," + (c.after + Literal(c.pieces)));
    HasParts(s, comma, ",", c.after + Literal(c.pieces));
    HasParts(s, comma + 1, c.after, Literal(c.pieces));
    BlankScan(s, i, c.before);
    CommaScan(s, comma);
    BlankScan(s, comma + 1, c.after);
    LiteralHushed(s, item, c.pieces);
    PassedOn(s, i, comma, comma + 1);
    PassedOn(s, i, comma + 1, item);
    PassedOn(s, i, item, item + |Literal(c.pieces)|);
  }

  lemma {:induction false} RestScan(s: string, i: nat, cells: seq<Cell>)
    requires Clear(s, i) && CellsOk(cells) && HasAt(s, i, RestText(cells))
    ensures Clear(s, i + |RestText(cells)|) && Passed(s, i, i + |RestText(cells)|)
    decreases |cells|
  {
    hide Inside, Slashes, CellText, CellOk;
    if cells != [] {
      HasParts(s, i, CellText(cells[0]), RestText(cells[1..]));
      CellScan(s, i, cells[0]);
      RestScan(s, i + |CellText(cells[0])|, cells[1..]);
      PassedOn(s, i, i + |CellText(cells[0])|, i + |RestText(cells)|);
    }
  }

  lemma CoreScan(s: string, i: nat, a: Array)
    requires Clear(s, i) && ArrayOk(a) && a.Items? && HasAt(s, i, Core(a))
    ensures Clear(s, i + |Core(a)|) && Passed(s, i, i + |Core(a)|)
  {
    hide Inside, Slashes, Literal, RestText, Clear, Passed, HasAt, CellsOk;
    HasParts(s, i, Literal(a.first), RestText(a.rest));
    LiteralHushed(s, i, a.first);
    RestScan(s, i + |Literal(a.first)|, a.rest);
    PassedOn(s, i, i + |Literal(a.first)|, i + |Core(a)|);
  }

  lemma InnerScan(s: string, i: nat, a: Array)
    requires Clear(s, i) && ArrayOk(a) && HasAt(s, i, Inner(a))
    ensures Clear(s, i + |Inner(a)|) && Passed(s, i, i + |Inner(a)|)
  {
    hide Inside, Slashes, Core, Clear, Passed, HasAt, CellsOk, PiecesOk, Blank;
    if a.NoItems? {
      BlankScan(s, i, a.lead);
    } else {
      HasParts(s, i, a.lead, Core(a) + a.trail);
      HasParts(s, i + |a.lead|, Core(a), a.trail);
      BlankScan(s, i, a.lead);
      CoreScan(s, i + |a.lead|, a);
      BlankScan(s, i + |a.lead| + |Core(a)|, a.trail);
      PassedOn(s, i, i + |a.lead|, i + |a.lead| + |Core(a)|);
      PassedOn(s, i, i + |a.lead| + |Core(a)|, i + |Inner(a)|);
    }
  }

  // ---------------------------------------------------------------- splitting an array

  /** No comma is seen between `i` and `k`. */
  lemma {:induction false} SplitSkips(body: string, start: nat, i: nat, k: nat)
    requires start <= i <= k <= |body| && forall j :: i <= j < k ==> body[j] != ',' || Inside(body, j)
    ensures SplitItems(body, start, i) == SplitItems(body, start, k)
    decreases k - i
  {
    if i < k { SplitSkips(body, start, i + 1, k); }
  }

  lemma {:induction false} TrimStartPad(p: string, core: string)
    requires Blank(p) && core != "" && !White(core[0])
    ensures TrimStart(p + core) == core
  {
    if p != "" {
      assert (p + core)[1..] == p[1..] + core;
      TrimStartPad(p[1..], core);
    } else { assert p + core == core; }
  }

  lemma {:induction false} TrimEndPad(core: string, q: string)
    requires Blank(q) && core != "" && !White(core[|core| - 1])
    ensures TrimEnd(core + q) == core
  {
    if q != "" {
      assert (core + q)[..|core + q| - 1] == core + q[..|q| - 1];
      TrimEndPad(core, q[..|q| - 1]);
    } else { assert core + q == core; }
  }

  predicate Firm(core: string) { core != "" && !White(core[0]) && !White(core[|core| - 1]) }

  lemma TrimPad(p: string, core: string, q: string)
    requires Blank(p) && Blank(q) && Firm(core)
    ensures Trim(p + (core + q)) == core
  {
    assert (core + q)[0] == core[0];
    TrimStartPad(p, core + q);
    TrimEndPad(core, q);
  }

  lemma {:induction false} TrimBlank(p: string)
    requires Blank(p)
    ensures Trim(p) == ""
  {
    if p != "" { TrimBlank(p[1..]); }
  }

  lemma LiteralFirm(pieces: seq<Piece>)
    ensures Firm(Literal(pieces))
  {
  }

  /** From an item that starts at `start` with blanks and has been read to its end. */
  lemma {:induction false} SplitRest(body: string, start: nat, gap: string, pieces: seq<Piece>, cells: seq<Cell>)
    requires start <= |body| && Blank(gap) && PiecesOk(pieces) && CellsOk(cells) &&
        Clear(body, start + |gap| + |Literal(pieces)|)
    requires body[start..] == gap + (Literal(pieces) + RestText(cells))
    ensures start + |gap| + |Literal(pieces)| <= |body|
    ensures SplitItems(body, start, start + |gap| + |Literal(pieces)|) == [Literal(pieces)] + RestLiterals(cells)
    decreases |cells|
  {
    hide Inside, Slashes, Literal, Firm, Clear, CellText, SplitItems, Blank, PiecesOk, Trim;
    LiteralFirm(pieces);
    if cells == [] {
      assert RestText(cells) == "";
      assert body[start..] == gap + (Literal(pieces) + "");
      BlankNothing();
      TrimPad(gap, Literal(pieces), "");
      NotEmpty(pieces);
      EndSplits(body, start, Literal(pieces));
    } else {
      var c := cells[0];
      assert CellOk(c);
      NextCell(body, start, gap, pieces, c, RestText(cells[1..]));
      SplitRest(body, start + |gap| + |Literal(pieces)| + |c.before| + 1, c.after, c.pieces, cells[1..]);
      assert RestLiterals(cells) == [Literal(c.pieces)] + RestLiterals(cells[1..]);
    }
  }

  lemma BlankNothing()
    ensures Blank("")
  {
  }

  lemma NotEmpty(pieces: seq<Piece>)
    ensures Literal(pieces) != ""
  {
  }

  lemma NextCell(body: string, start: nat, gap: string, pieces: seq<Piece>, c: Cell, rest: string)
    requires start <= |body| && Blank(gap) && PiecesOk(pieces) && CellOk(c) &&
        Clear(body, start + |gap| + |Literal(pieces)|)
    requires body[start..] == gap + (Literal(pieces) + (CellText(c) + rest))
    ensures
      var i := start + |gap| + |Literal(pieces)|;
      var next := i + |c.before| + 1;
      i <= |body| && next + |c.after| + |Literal(c.pieces)| <= |body| &&
      SplitItems(body, start, i) == [Literal(pieces)] + SplitItems(body, next,
        next + |c.after| + |Literal(c.pieces)|) &&
      Clear(body, next + |c.after| + |Literal(c.pieces)|) && body[next..] == c.after + (Literal(c.pieces) + rest)
  {
    hide Inside, Slashes, Literal, Firm, Clear, CellText, SplitItems, Blank, PiecesOk, Trim, HasAt, Passed;
    var i := start + |gap| + |Literal(pieces)|;
    var comma := i + |c.before|;
    LiteralFirm(pieces);
    SplitParts(body, start, gap, Literal(pieces), c, rest);
    BlankScan(body, i, c.before);
    SplitSkips(body, start, i, comma);
    TrimPad(gap, Literal(pieces), c.before);
    CommaScan(body, comma);
    CommaSplits(body, start, comma);
    BlankScan(body, comma + 1, c.after);
    SplitSkips(body, comma + 1, comma + 1, comma + 1 + |c.after|);
    LiteralHushed(body, comma + 1 + |c.after|, c.pieces);
    Fits(body, comma + 1 + |c.after|, Literal(c.pieces));
    SplitSkips(body, comma + 1, comma + 1 + |c.after|, comma + 1 + |c.after| + |Literal(c.pieces)|);
  }

  lemma Fits(s: string, i: nat, t: string)
    requires HasAt(s, i, t)
    ensures i + |t| <= |s|
  {
  }

  lemma EndSplits(body: string, start: nat, lit: string)
    requires start <= |body| && Trim(body[start..]) == lit && lit != ""
    ensures SplitItems(body, start, |body|) == [lit]
  {
  }

  lemma CommaSplits(body: string, start: nat, comma: nat)
    requires start <= comma < |body| && body[comma] == ',' && !Inside(body, comma)
    ensures SplitItems(body, start, comma) == [Trim(body[start..comma])] + SplitItems(body, comma + 1, comma + 1)
  {
  }

  lemma Ahead(s: string, i: nat, t: string, u: string)
    requires i <= |s| && s[i..] == t + u
    ensures i + |t| <= |s| && HasAt(s, i, t) && s[i..i + |t|] == t && s[i + |t|..] == u
  {
    assert s[i..i + |t|] == s[i..][..|t|];
    assert s[i + |t|..] == s[i..][|t|..];
  }

  lemma SplitParts(body: string, start: nat, gap: string, lit: string, c: Cell, rest: string)
    requires start <= |body| && body[start..] == gap + (lit + (CellText(c) + rest))
    ensures
      var i := start + |gap| + |lit|;
      var comma := i + |c.before|;
      comma < |body| && body[comma] == ',' && HasAt(body, i, c.before) && HasAt(body, comma, ",") &&
      HasAt(body, comma + 1, c.after) && HasAt(body, comma + 1 + |c.after|, Literal(c.pieces)) &&
      body[start..comma] == gap + (lit + c.before) && body[comma + 1..] == c.after + (Literal(c.pieces) + rest)
  {
    hide Literal;
    var l := Literal(c.pieces);
    var first := gap + (lit + c.before);
    var comma := start + |first|;
    assert body[start..] == first + ("," + (c.after + (l + rest)));
    Ahead(body, start, first, "," + (c.after + (l + rest)));
    Ahead(body, comma, ",", c.after + (l + rest));
    Ahead(body, comma + 1, c.after, l + rest);
    Ahead(body, comma + 1 + |c.after|, l, rest);
    assert first == (gap + lit) + c.before;
    HasParts(body, start, gap + lit, c.before);
    assert body[comma] == body[comma..comma + 1][0];
  }
}
