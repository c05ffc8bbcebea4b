/** The cursor loops of `src/cli/toml.ts`. Each computes the function of `TomlSpec`. */
module TomlReader {
  import opened TomlSpec

  /** The loop that counts the backslashes before a quote. */
  method CountBackslashes(s: string, index: nat) returns (backslashes: nat)
    requires index <= |s|
    ensures backslashes == Slashes(s, index)
  {
    backslashes := 0;
    var back := index;
    while back > 0 && s[back - 1] == '\\'
      invariant 0 <= back <= index && backslashes + Slashes(s, back) == Slashes(s, index)
    {
      backslashes := backslashes + 1;
      back := back - 1;
    }
  }

  method StripComment(line: string) returns (text: string)
    ensures text == Stripped(line)
  {
    var inString := false;
    for index := 0 to |line|
      invariant inString == Inside(line, index) && CutAt(line, 0) == CutAt(line, index)
    {
      if line[index] == '"' {
        var backslashes := CountBackslashes(line, index);
        if backslashes % 2 == 0 { inString := !inString; }
      } else if line[index] == '#' && !inString {
        return line[..index];
      }
    }
    return line;
  }

  method BracketDepth(line: string) returns (depth: int)
    ensures depth == Depth(line, |line|)
  {
    depth := 0;
    var inString := false;
    for index := 0 to |line|
      invariant inString == Inside(line, index) && depth == Depth(line, index)
    {
      if line[index] == '"' {
        var backslashes := CountBackslashes(line, index);
        if backslashes % 2 == 0 { inString := !inString; }
      } else if !inString && line[index] == '[' {
        depth := depth + 1;
      } else if !inString && line[index] == ']' {
        depth := depth - 1;
      }
    }
  }

  /** A result with `out` in front. */
  ghost function After(out: string, rest: Result<string>): Result<string> {
    if rest.Ok? then Ok(out + rest.value) else rest
  }

  lemma AfterBefore(out: string, c: char, rest: Result<string>)
    ensures After(out, Before(c, rest)) == After(out + [c], rest)
  {
    if rest.Ok? { assert out + ([c] + rest.value) == out + [c] + rest.value; }
  }

  lemma AfterNothing(rest: Result<string>)
    ensures After("", rest) == rest
  {
    if rest.Ok? { assert "" + rest.value == rest.value; }
  }

  method ReadString(raw: string, line: nat) returns (result: Result<string>)
    ensures result == ParseString(raw, line)
  {
    if |raw| < 2 || raw[0] != '"' || raw[|raw| - 1] != '"' { return Err(NotQuoted, line); }
    if "\"\"\"" <= raw { return Err(MultiLineString, line); }
    var body := raw[1..|raw| - 1];
    var out := "";
    var index := 0;
    AfterNothing(ParseBody(body, line));
    assert body[0..] == body;
    while index < |body|
      invariant index <= |body| && After(out, ParseBody(body[index..], line)) == ParseBody(body, line)
    {
      var c := body[index];
      if c == '"' { return Err(UnescapedQuote, line); }
      if Control(c) { return Err(ControlCharacter, line); }
      if c != '\\' {
        AfterBefore(out, c, ParseBody(body[index + 1..], line));
        assert body[index..][1..] == body[index + 1..];
        out := out + [c];
        index := index + 1;
      } else {
        assert body[index..][1..] == body[index + 1..];
        var escape := Escape(body[index + 1..], line);
        if escape.Err? { return Err(escape.problem, escape.line); }
        var next := index + 1 + escape.value.1;
        AfterBefore(out, escape.value.0, ParseBody(body[next..], line));
        assert body[index..][1 + escape.value.1..] == body[next..];
        out := out + [escape.value.0];
        index := next;
      }
    }
    assert body[index..] == "" && out + "" == out;
    return Ok(out);
  }

  method SplitArray(raw: string) returns (items: seq<string>)
    requires |raw| >= 2
    ensures items == SplitArrayItems(raw)
  {
    var body := Trim(raw[1..|raw| - 1]);
    if body == "" {
      assert body[0..] == "" && Trim("") == "";
      return [];
    }
    items := [];
    ghost var start := 0;
    var current := "";
    var inString := false;
    for index := 0 to |body|
      invariant start <= index && current == body[start..index] && inString == Inside(body, index)
      invariant items + SplitItems(body, start, index) == SplitItems(body, 0, 0)
    {
      var c := body[index];
      if c == '"' {
        var backslashes := CountBackslashes(body, index);
        if backslashes % 2 == 0 { inString := !inString; }
        current := current + [c];
      } else if c == ',' && !inString {
        assert items + ([Trim(current)] + SplitItems(body, index + 1, index + 1)) ==
          items + [Trim(current)] + SplitItems(body, index + 1, index + 1);
        items := items + [Trim(current)];
        current := "";
        start := index + 1;
      } else {
        current := current + [c];
      }
    }
    assert body[start..] == current;
    if Trim(current) != "" { items := items + [Trim(current)]; }
  }

  /** The lines a multi-line array goes on over. */
  method GatherArray(lines: seq<string>, first: nat, start: string, line: nat) returns (result: Result<(string, nat)>)
    requires first < |lines|
    ensures result == Gather(lines, first, start, Depth(start, |start|), line)
  {
    var raw, index := start, first;
    var depth := BracketDepth(raw);
    while depth > 0
      invariant index < |lines|
      invariant Gather(lines, index, raw, depth, line) == Gather(lines, first, start, Depth(start, |start|), line)
      decreases |lines| - index
    {
      if index + 1 == |lines| { return Err(UnterminatedArray, line); }
      index := index + 1;
      var stripped := StripComment(lines[index]);
      var continuation := Trim(stripped);
      raw := raw + " " + continuation;
      var more := BracketDepth(continuation);
      depth := depth + more;
    }
    return Ok((raw, index));
  }

  /** `parseToml`: the line cursor over one table tree. */
  method ReadToml(input: string) returns (result: Result<Doc>)
    ensures result == ParseToml(input)
  {
    hide KeyLine, OpenTable, Trim, Stripped, SplitLines;
    var lines := SplitLines(input, 0, 0);
    var doc := EMPTY;
    var index := 0;
    while index < |lines|
      invariant index <= |lines| && ParseLines(lines, index, doc) == ParseLines(lines, 0, EMPTY)
    {
      var stripped := StripComment(lines[index]);
      var text := Trim(stripped);
      if text != "" {
        if "[[" <= text { return Err(ArrayOfTables, index + 1); }
        if text[0] == '[' {
          if text[|text| - 1] != ']' { return Err(UnterminatedHeader, index + 1); }
          var table := OpenTable(Trim(text[1..|text| - 1]), doc, index + 1);
          if table.Err? { return table; }
          doc := table.value;
        } else {
          var done := ReadKeyLine(lines, index, text, doc);
          if done.Err? { return Err(done.problem, done.line); }
          doc, index := done.value.0, done.value.1;
        }
      }
      index := index + 1;
    }
    return Ok(doc);
  }

  method ReadKeyLine(lines: seq<string>, index: nat, text: string, doc: Doc) returns (result: Result<(Doc, nat)>)
    requires index < |lines|
    ensures result == KeyLine(lines, index, text, doc)
  {
    var line := index + 1;
    var equals := EqualsAt(text, 0);
    if equals == |text| { return Err(NoEquals, line); }
    var key := ParseKey(Trim(text[..equals]), line);
    if key.Err? { return Err(key.problem, key.line); }
    var path := doc.current + [key.value];
    if path in doc.values || path in doc.tables { return Err(DuplicateKey, line); }
    var raw := Trim(text[equals + 1..]);
    var last := index;
    if Starts(raw, '[') {
      var gathered := GatherArray(lines, index, raw, line);
      if gathered.Err? { return Err(gathered.problem, gathered.line); }
      raw, last := gathered.value.0, gathered.value.1;
    }
    var value := ParseValue(raw, line);
    if value.Err? { return Err(value.problem, value.line); }
    return Ok((Assign(doc, key.value, value.value), last));
  }
}
