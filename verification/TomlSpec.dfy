/** The strict TOML reader of `src/cli/toml.ts` as functions. Texts are sequences of Unicode scalar
    values, which is what a UTF-8 file holds. */
module TomlSpec {
  datatype Problem =
    | NotQuoted | MultiLineString | UnescapedQuote | ControlCharacter | BadUnicodeEscape | BadScalar | UnsupportedEscape
    | BadArrayItem | MixedArray | MissingValue | UnterminatedArray | InlineTable | UnsupportedValue
    | BadKeySegment | ArrayOfTables | UnterminatedHeader | NotATable | TableTwice | NoEquals | BadKey | DuplicateKey
    | LeavesTheTree

  /** `TomlError`: what is wrong, and in which line. `LeavesTheTree` is no error of the reader: it
      goes on in an object that is not part of the document, and this model stops there. */
  datatype Result<+T> = Ok(value: T) | Err(problem: Problem, line: nat)

  /** Numbers are kept as they are spelled. */
  datatype Value =
    Str(s: string) | Bool(b: bool) | Num(text: string) | Strs(items: seq<string>) | Nums(texts: seq<string>)

  // ---------------------------------------------------------------- where strings end

  /** How many backslashes stand right before position `i`. */
  function Slashes(s: string, i: nat): nat
    requires i <= |s|
  {
    if i > 0 && s[i - 1] == '\\' then 1 + Slashes(s, i - 1) else 0
  }

  /** A quote that opens or closes a string. */
  predicate Turns(s: string, i: nat)
    requires i < |s|
  {
    s[i] == '"' && Slashes(s, i) % 2 == 0
  }

  /** Whether position `i` is in a string; this is `inString` when a scanner gets there. */
  predicate Inside(s: string, i: nat)
    requires i <= |s|
  {
    i > 0 && Inside(s, i - 1) != Turns(s, i - 1)
  }

  /** The first `#` outside of strings from `i` on, or the end. */
  function CutAt(s: string, i: nat): (cut: nat)
    requires i <= |s|
    ensures i <= cut <= |s|
    decreases |s| - i
  {
    if i == |s| || (s[i] == '#' && !Inside(s, i)) then i else CutAt(s, i + 1)
  }

  function Stripped(line: string): string { line[..CutAt(line, 0)] }

  /** Opening minus closing brackets before `i`, those in strings not counted. */
  function Depth(s: string, i: nat): int
    requires i <= |s|
  {
    if i == 0 then 0
    else Depth(s, i - 1) + if Inside(s, i - 1) then 0 else if s[i - 1] == '[' then 1 else if s[i - 1] == ']' then -1
      else 0
  }

  // ---------------------------------------------------------------- trimming and lines

  /** What `trim` removes. */
  predicate White(c: char) {
    var n := c as int;
    9 <= n <= 13 || n == 32 || n == 0xA0 || n == 0x1680 || 0x2000 <= n <= 0x200A || n == 0x2028 || n == 0x2029 ||
    n == 0x202F ||
    n == 0x205F || n == 0x3000 || n == 0xFEFF
  }

  function TrimStart(s: string): (t: string)
    ensures |t| <= |s|
  {
    if s != "" && White(s[0]) then TrimStart(s[1..]) else s
  }

  function TrimEnd(s: string): (t: string)
    ensures |t| <= |s|
  {
    if s != "" && White(s[|s| - 1]) then TrimEnd(s[..|s| - 1]) else s
  }

  function Trim(s: string): string { TrimEnd(TrimStart(s)) }

  /** `split(/\r?\n/)`, of the text from the line that starts at `start`. */
  function SplitLines(s: string, start: nat, i: nat): (lines: seq<string>)
    requires start <= i <= |s|
    ensures lines != []
    decreases |s| - i
  {
    if i == |s| then [s[start..]]
    else if s[i] == '\n' then
      [s[start..if i > start && s[i - 1] == '\r' then i - 1 else i]] + SplitLines(s, i + 1, i + 1)
    else SplitLines(s, start, i + 1)
  }

  predicate Starts(s: string, c: char) { s != "" && s[0] == c }

  predicate Ends(s: string, c: char) { s != "" && s[|s| - 1] == c }

  // ---------------------------------------------------------------- strings

  predicate Control(c: char) { ((c as int) < 0x20 && c != '\t') || (c as int) == 0x7F }

  predicate IsHex(c: char) { '0' <= c <= '9' || 'A' <= c <= 'F' || 'a' <= c <= 'f' }

  function HexDigit(c: char): nat
    requires IsHex(c)
  {
    if c <= '9' then (c as int) - ('0' as int) else if c <= 'F' then (c as int) - ('A' as int) + 10
      else (c as int) - ('a' as int) + 10
  }

  function HexValue(s: string): nat
    requires forall i :: 0 <= i < |s| ==> IsHex(s[i])
  {
    if s == "" then 0 else 16 * HexValue(s[..|s| - 1]) + HexDigit(s[|s| - 1])
  }

  predicate IsScalar(n: nat) { n < 0xD800 || 0xE000 <= n < 0x11_0000 }

  function Before(first: char, rest: Result<string>): Result<string> {
    if rest.Ok? then Ok([first] + rest.value) else rest
  }

  /** What follows a backslash: the character it stands for and how much text that took. */
  function Escape(rest: string, line: nat): (r: Result<(char, nat)>)
    ensures r.Ok? ==> 1 <= r.value.1 <= |rest|
  {
    if rest == "" then Err(UnsupportedEscape, line)
    else
      match rest[0]
      case 'b' => Ok(('\U{0008}', 1))
      case 'f' => Ok(('\U{000C}', 1))
      case 'n' => Ok(('\n', 1))
      case 't' => Ok(('\t', 1))
      case 'r' => Ok(('\r', 1))
      case '"' => Ok(('"', 1))
      case '\\' => Ok(('\\', 1))
      case 'u' => Unicode(rest, 4, line)
      case 'U' => Unicode(rest, 8, line)
      case _ => Err(UnsupportedEscape, line)
  }

  function Unicode(rest: string, digits: nat, line: nat): (r: Result<(char, nat)>)
    requires rest != ""
    ensures r.Ok? ==> 1 <= r.value.1 <= |rest|
  {
    if |rest| < 1 + digits || exists i :: 1 <= i < 1 + digits && !IsHex(rest[i]) then Err(BadUnicodeEscape, line)
    else
      var scalar := HexValue(rest[1..1 + digits]);
      if !IsScalar(scalar) then Err(BadScalar, line) else Ok((scalar as char, 1 + digits))
  }

  function ParseBody(body: string, line: nat): Result<string>
    decreases |body|
  {
    if body == "" then Ok("")
    else if body[0] == '"' then Err(UnescapedQuote, line)
    else if Control(body[0]) then Err(ControlCharacter, line)
    else if body[0] != '\\' then Before(body[0], ParseBody(body[1..], line))
    else
      match Escape(body[1..], line)
      case Err(problem, at) => Err(problem, at)
      case Ok(meant) => Before(meant.0, ParseBody(body[1 + meant.1..], line))
  }

  function ParseString(raw: string, line: nat): Result<string> {
    if |raw| < 2 || !Starts(raw, '"') || !Ends(raw, '"') then Err(NotQuoted, line)
    else if "\"\"\"" <= raw then Err(MultiLineString, line)
    else ParseBody(raw[1..|raw| - 1], line)
  }

  // ---------------------------------------------------------------- numbers

  function SkipSign(s: string): string { if s != "" && (s[0] == '+' || s[0] == '-') then s[1..] else s }

  predicate IsDigit(c: char) { '0' <= c <= '9' }

  predicate AllDigits(s: string) { s != "" && forall i :: 0 <= i < |s| ==> IsDigit(s[i]) }

  predicate IsWhole(s: string) { s == "0" || (AllDigits(s) && s[0] != '0') }

  predicate IsInteger(s: string) { IsWhole(SkipSign(s)) }

  predicate IsExponent(s: string) { s != "" && (s[0] == 'e' || s[0] == 'E') && AllDigits(SkipSign(s[1..])) }

  predicate IsFraction(s: string) {
    s != "" && s[0] == '.' && exists k :: 2 <= k <= |s| && AllDigits(s[1..k]) && (s[k..] == "" || IsExponent(s[k..]))
  }

  predicate IsFloat(s: string) {
    var body := SkipSign(s);
    exists k :: 1 <= k <= |body| && IsWhole(body[..k]) && (IsFraction(body[k..]) || IsExponent(body[k..]))
  }

  // ---------------------------------------------------------------- values

  /** The items of an array body; the one that starts at `start` has been read up to `i`. */
  function SplitItems(body: string, start: nat, i: nat): seq<string>
    requires start <= i <= |body|
    decreases |body| - i
  {
    if i == |body| then if Trim(body[start..]) == "" then [] else [Trim(body[start..])]
    else if body[i] == ',' && !Inside(body, i) then [Trim(body[start..i])] + SplitItems(body, i + 1, i + 1)
    else SplitItems(body, start, i + 1)
  }

  function SplitArrayItems(raw: string): seq<string>
    requires |raw| >= 2
  {
    SplitItems(Trim(raw[1..|raw| - 1]), 0, 0)
  }

  function ParseArrayItem(item: string, line: nat): (r: Result<Value>)
    ensures r.Ok? ==> r.value.Str? || r.value.Num?
  {
    if Starts(item, '"') then
      match ParseString(item, line)
      case Ok(s) => Ok(Str(s))
      case Err(problem, at) => Err(problem, at)
    else if IsInteger(item) || IsFloat(item) then Ok(Num(item))
    else Err(BadArrayItem, line)
  }

  function ParseItems(items: seq<string>, line: nat): (r: Result<seq<Value>>)
    ensures r.Ok? ==> |r.value| == |items| && forall i :: 0 <= i < |items| ==> r.value[i].Str? || r.value[i].Num?
  {
    if items == [] then Ok([])
    else
      match ParseItems(items[..|items| - 1], line)
      case Err(problem, at) => Err(problem, at)
      case Ok(values) =>
        match ParseArrayItem(items[|items| - 1], line)
        case Err(problem, at) => Err(problem, at)
        case Ok(value) => Ok(values + [value])
  }

  function ParseArray(raw: string, line: nat): Result<Value>
    requires |raw| >= 2
  {
    match ParseItems(SplitArrayItems(raw), line)
    case Err(problem, at) => Err(problem, at)
    case Ok(values) =>
      if forall i :: 0 <= i < |values| ==> values[i].Str? then
        Ok(Strs(seq(|values|, i requires 0 <= i < |values| => values[i].s)))
      else if forall i :: 0 <= i < |values| ==> values[i].Num? then
        Ok(Nums(seq(|values|, i requires 0 <= i < |values| => values[i].text)))
      else Err(MixedArray, line)
  }

  function ParseValue(raw: string, line: nat): Result<Value> {
    var trimmed := Trim(raw);
    if trimmed == "" then Err(MissingValue, line)
    else if trimmed[0] == '"' then ParseArrayItem(trimmed, line)
    else if trimmed[0] == '[' then
      if !Ends(trimmed, ']') then Err(UnterminatedArray, line) else ParseArray(trimmed, line)
    else if trimmed[0] == '{' then Err(InlineTable, line)
    else if trimmed == "true" then Ok(Bool(true))
    else if trimmed == "false" then Ok(Bool(false))
    else if IsInteger(trimmed) || IsFloat(trimmed) then Ok(Num(trimmed))
    else Err(UnsupportedValue, line)
  }

  // ---------------------------------------------------------------- documents

  type Path = seq<string>

  /** The table tree by full paths: the values and tables that are own properties, the tables with a
      header, and those whose prototype is no longer `Object.prototype`. */
  datatype Doc = Doc(values: map<Path, Value>, tables: set<Path>, defined: set<Path>, odd: set<Path>, current: Path)

  const EMPTY := Doc(map[], {}, {}, {}, [])

  /** The functions that every table inherits. */
  const INHERITED: set<string> := {
    "constructor", "hasOwnProperty", "isPrototypeOf", "propertyIsEnumerable", "toLocaleString", "toString", "valueOf",
    "__defineGetter__", "__defineSetter__", "__lookupGetter__", "__lookupSetter__" }

  predicate IsBare(s: string) {
    s != "" && forall i :: 0 <= i < |s| ==>
      'A' <= s[i] <= 'Z' || 'a' <= s[i] <= 'z' || '0' <= s[i] <= '9' || s[i] == '_' || s[i] == '-'
  }

  /** The segments of a header; quotes count as such even after a backslash. */
  function SplitPath(header: string, start: nat, i: nat, inString: bool): seq<string>
    requires start <= i <= |header|
    decreases |header| - i
  {
    if i == |header| then [Trim(header[start..])]
    else if header[i] == '"' then SplitPath(header, start, i + 1, !inString)
    else if header[i] == '.' && !inString then [Trim(header[start..i])] + SplitPath(header, i + 1, i + 1, inString)
    else SplitPath(header, start, i + 1, inString)
  }

  function ParseSegment(part: string, line: nat): Result<string> {
    if Starts(part, '"') then ParseString(part, line) else if IsBare(part) then Ok(part) else Err(BadKeySegment, line)
  }

  function ParseSegments(parts: seq<string>, line: nat): Result<Path> {
    if parts == [] then Ok([])
    else
      match ParseSegments(parts[..|parts| - 1], line)
      case Err(problem, at) => Err(problem, at)
      case Ok(path) =>
        match ParseSegment(parts[|parts| - 1], line)
        case Err(problem, at) => Err(problem, at)
        case Ok(segment) => Ok(path + [segment])
  }

  /** Walks down from the root, making the tables that are missing; `n` segments are done. An
      inherited function is taken for a value. `__proto__` leads out of the tree, and so may any name
      in a table with an array for its prototype. */
  function Enter(doc: Doc, path: Path, n: nat, line: nat): Result<Doc>
    requires n <= |path|
    decreases |path| - n
  {
    if n == |path| then
      if path in doc.defined then Err(TableTwice, line) else Ok(doc.(defined := doc.defined + {path}, current := path))
    else
      var next := path[..n + 1];
      if next in doc.values then Err(NotATable, line)
      else if next in doc.tables then Enter(doc, path, n + 1, line)
      else if path[n] == "__proto__" || path[..n] in doc.odd then Err(LeavesTheTree, line)
      else if path[n] in INHERITED then Err(NotATable, line)
      else Enter(doc.(tables := doc.tables + {next}), path, n + 1, line)
  }

  function OpenTable(header: string, doc: Doc, line: nat): Result<Doc> {
    match ParseSegments(SplitPath(header, 0, 0, false), line)
    case Err(problem, at) => Err(problem, at)
    case Ok(path) => Enter(doc, path, 0, line)
  }

  function EqualsAt(s: string, i: nat): (at: nat)
    requires i <= |s|
    ensures i <= at <= |s| && (at < |s| ==> s[at] == '=')
    decreases |s| - i
  {
    if i == |s| || s[i] == '=' then i else EqualsAt(s, i + 1)
  }

  function ParseKey(rawKey: string, line: nat): Result<string> {
    if Starts(rawKey, '"') then ParseString(rawKey, line) else if IsBare(rawKey) then Ok(rawKey) else Err(BadKey, line)
  }

  /** Adds lines to an array until its brackets balance; returns the text and the last line used. */
  function Gather(lines: seq<string>, index: nat, raw: string, depth: int, line: nat): (r: Result<(string, nat)>)
    requires index < |lines|
    ensures r.Ok? ==> index <= r.value.1 < |lines|
    decreases |lines| - index
  {
    if depth <= 0 then Ok((raw, index))
    else if index + 1 == |lines| then Err(UnterminatedArray, line)
    else
      var more := Trim(Stripped(lines[index + 1]));
      Gather(lines, index + 1, raw + " " + more, depth + Depth(more, |more|), line)
  }

  /** An assignment to `__proto__` makes no own property: a list becomes the prototype, anything else
      is dropped. */
  function Assign(doc: Doc, key: string, value: Value): Doc {
    if key != "__proto__" then doc.(values := doc.values[doc.current + [key] := value])
    else if value.Strs? || value.Nums? then doc.(odd := doc.odd + {doc.current})
    else doc
  }

  function KeyLine(lines: seq<string>, index: nat, text: string, doc: Doc): (r: Result<(Doc, nat)>)
    requires index < |lines|
    ensures r.Ok? ==> index <= r.value.1 < |lines|
  {
    var line := index + 1;
    var equals := EqualsAt(text, 0);
    if equals == |text| then Err(NoEquals, line)
    else
      match ParseKey(Trim(text[..equals]), line)
      case Err(problem, at) => Err(problem, at)
      case Ok(key) =>
        var path := doc.current + [key];
        if path in doc.values || path in doc.tables then Err(DuplicateKey, line)
        else
          var raw := Trim(text[equals + 1..]);
          match if Starts(raw, '[') then Gather(lines, index, raw, Depth(raw, |raw|), line) else Ok((raw, index))
          case Err(problem, at) => Err(problem, at)
          case Ok(gathered) =>
            match ParseValue(gathered.0, line)
            case Err(problem, at) => Err(problem, at)
            case Ok(value) => Ok((Assign(doc, key, value), gathered.1))
  }

  /** Reads the lines from `index` on. */
  function ParseLines(lines: seq<string>, index: nat, doc: Doc): Result<Doc>
    requires index <= |lines|
    decreases |lines| - index
  {
    if index == |lines| then Ok(doc)
    else
      var text := Trim(Stripped(lines[index]));
      if text == "" then ParseLines(lines, index + 1, doc)
      else if "[[" <= text then Err(ArrayOfTables, index + 1)
      else if text[0] == '[' then
        if !Ends(text, ']') then Err(UnterminatedHeader, index + 1)
        else
          match OpenTable(Trim(text[1..|text| - 1]), doc, index + 1)
          case Err(problem, at) => Err(problem, at)
          case Ok(entered) => ParseLines(lines, index + 1, entered)
      else
        match KeyLine(lines, index, text, doc)
        case Err(problem, at) => Err(problem, at)
        case Ok(done) => ParseLines(lines, done.1 + 1, done.0)
  }

  function ParseToml(input: string): Result<Doc> {
    ParseLines(SplitLines(input, 0, 0), 0, EMPTY)
  }
}
