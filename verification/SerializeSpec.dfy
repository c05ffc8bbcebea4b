/** The bounded, redacting serializer of `src/base-logger.ts` as a function: object graphs with
    cycles and sharing go in, a finite tree comes out. */
module SerializeSpec {
  import opened Common

  type Ref = nat

  datatype Atom = Null | Flag(b: bool) | Number(n: real)

  /** `Plain` is null, a boolean or a finite number. `Told` is what is replaced by a fixed text:
      bigints, symbols and non-finite numbers. So are functions; `name` is what that property of
      theirs gives. */
  datatype Val = Str(s: string) | Plain(p: Atom) | Undefined | Told(text: string) | Fun(text: string,
    name: Reading) | Obj(ref: Ref)

  /** What reading a property gives, each time it is read; a getter can throw. */
  datatype Reading = Got(v: Val) | Raised(message: string)

  /** What `String(key)` gives. */
  datatype Label = Label(text: string) | NoLabel(message: string)

  datatype Field = Field(key: string, reading: Reading)
  datatype Entry = Entry(key: Val, called: Label, value: Val)

  /** Dates and regular expressions are `TextNode`s. `fields` are the enumerable own string keys.
      `cause`, `maker` and `named` are what the properties `cause`, `constructor` and `name` give
      when there is no enumerable own one: mostly what the prototypes hold. */
  datatype Node =
    | ErrorNode(name: string, message: string, stack: string, cause: Reading, fields: seq<Field>)
    | TextNode(text: string)
    | ArrayNode(items: seq<Val>)
    | MapNode(entries: seq<Entry>)
    | SetNode(items: seq<Val>)
    | RecordNode(fields: seq<Field>, maker: Reading, named: Reading)

  /** Every reference leads to an object; the graph need not be finite. */
  type Heap = Ref -> Node

  datatype Limits = Limits(maxStringLength: int, maxDepth: int, maxArrayLength: int, maxProperties: int)

  /** `patterns` are in lower case; `None` switches redaction off. */
  datatype Config = Config(limits: Limits, patterns: Option<seq<string>>)

  /** The output. Markers are constructors here; in the source they are texts in brackets.
      `Verbatim` is a value that was not serialized, `Err` the object written for an error. */
  datatype Out =
    | Text(s: string)
    | Cut(s: string, dropped: nat)
    | Raw(p: Atom)
    | Verbatim(v: Val)
    | Count(n: int)
    | Circular
    | Deep(limit: int)
    | Redacted
    | Unserializable(message: string)
    | More(dropped: nat, total: nat)
    | List(items: seq<Out>)
    | Rec(fields: map<string, Out>)
    | Err(fields: map<string, Out>)

  datatype Result = Done(out: Out) | Threw(message: string)
  datatype Results = All(outs: seq<Out>) | Broke(message: string)
  datatype Fields = Filled(fields: map<string, Out>) | Failed(message: string)

  // ---------------------------------------------------------------- helpers

  function TruncateString(s: string, limit: int): Out {
    if limit <= 0 || |s| <= limit then Text(s) else Cut(s[..limit], |s| - limit)
  }

  /** `slice(0, n)` of a JavaScript array: a negative end counts from the back. */
  function Slice<T>(s: seq<T>, n: int): (kept: seq<T>)
    ensures kept <= s
  {
    if n >= |s| then s
    else if n >= 0 then s[..n]
    else if -n <= |s| then s[..|s| + n]
    else []
  }

  function CapCollection(outs: seq<Out>, total: nat, limit: int): seq<Out> {
    if total > limit then outs + [More(total - limit, total)] else outs
  }

  /** `toLowerCase`, for ASCII. */
  function Lower(s: string): string {
    seq(|s|, i requires 0 <= i < |s| => if 'A' <= s[i] <= 'Z' then ((s[i] as int) + 32) as char else s[i])
  }

  predicate Includes(s: string, part: string) {
    exists i :: 0 <= i <= |s| - |part| && OccursAt(s, part, i)
  }

  predicate OccursAt(s: string, part: string, i: nat) {
    i + |part| <= |s| && s[i..i + |part|] == part
  }

  predicate ShouldRedact(cfg: Config, key: string) {
    cfg.patterns.Some? && exists i :: 0 <= i < |cfg.patterns.value| && Includes(Lower(key), cfg.patterns.value[i])
  }

  /** What reading an own property gives, or else `otherwise`. */
  function Own(fields: seq<Field>, key: string, otherwise: Reading): Reading
    decreases |fields|
  {
    if fields == [] then otherwise
    else if fields[|fields| - 1].key == key then fields[|fields| - 1].reading
    else Own(fields[..|fields| - 1], key, otherwise)
  }

  /** Assignment to a property: to `__proto__` it makes no own key. */
  function Put(fields: map<string, Out>, key: string, out: Out): map<string, Out> {
    if key == "__proto__" then fields else fields[key := out]
  }

  function CauseOf(n: Node): Reading
    requires n.ErrorNode?
  {
    Own(n.fields, "cause", n.cause)
  }

  predicate Truthy(v: Val) {
    match v
    case Str(s) => s != ""
    case Plain(p) => !p.Null? && (p.Flag? ==> p.b) && (p.Number? ==> p.n != 0.0)
    case Undefined => false
    case Told(text) => text != "NaN" && text != "0n"
    case _ => true
  }

  /** `?.name` of a value. */
  function NameOf(h: Heap, v: Val): Reading {
    match v
    case Fun(_, name) => name
    case Obj(r) =>
      (match h(r)
       case ErrorNode(name, _, _, _, fields) => Own(fields, "name", Got(Str(name)))
       case RecordNode(fields, _, named) => Own(fields, "name", named)
       case _ => Got(Undefined))
    case _ => Got(Undefined)
  }

  /** What `constructor?.name` of a record gives: nothing worth showing, a value of any kind, or an
      exception. It is read from the record, as a property like any other. */
  datatype TypeName = Untyped | Typed(v: Val) | NoType(message: string)

  function TypeOf(h: Heap, n: Node): TypeName
    requires n.RecordNode?
  {
    match Own(n.fields, "constructor", n.maker)
    case Raised(message) => NoType(message)
    case Got(maker) =>
      match NameOf(h, maker)
      case Raised(message) => NoType(message)
      case Got(v) => if Truthy(v) && v != Str("Object") then Typed(v) else Untyped
  }

  /** A value as it is. */
  function AsIs(v: Val): Out {
    match v
    case Str(s) => Text(s)
    case Plain(p) => Raw(p)
    case _ => Verbatim(v)
  }

  // ---------------------------------------------------------------- serialize

  /** How many more levels may be opened. */
  function Room(cfg: Config, depth: int): nat {
    if depth < cfg.limits.maxDepth then cfg.limits.maxDepth - depth else 0
  }

  function Ser(h: Heap, cfg: Config, v: Val, seen: set<Ref>, depth: int): Result
    decreases Room(cfg, depth), 2, 0
  {
    match v
    case Str(s) => Done(TruncateString(s, cfg.limits.maxStringLength))
    case Plain(p) => Done(Raw(p))
    case Undefined => Done(Text("[undefined]"))
    case Told(text) => Done(Text(text))
    case Fun(text, _) => Done(Text(text))
    case Obj(r) =>
      if r in seen then Done(Circular)
      else if depth >= cfg.limits.maxDepth then Done(Deep(cfg.limits.maxDepth))
      else SerNode(h, cfg, h(r), seen + {r}, depth)
  }

  /** The content of an object that is in `seen` by now. */
  function SerNode(h: Heap, cfg: Config, n: Node, seen: set<Ref>, depth: int): Result
    requires depth < cfg.limits.maxDepth
    decreases Room(cfg, depth), 1, 0
  {
    match n
    case TextNode(text) => Done(Text(text))
    case ArrayNode(items) => Listed(SerItems(h, cfg, Slice(items, cfg.limits.maxArrayLength), seen, depth + 1),
      |items|, cfg)
    case SetNode(items) => Listed(SerItems(h, cfg, Slice(items, cfg.limits.maxArrayLength), seen, depth + 1), |items|,
      cfg)
    case MapNode(entries) =>
      Listed(SerEntries(h, cfg, Slice(entries, cfg.limits.maxArrayLength), seen, depth + 1), |entries|, cfg)
    case RecordNode(fields, _, _) =>
      if TypeOf(h, n).NoType? then Threw(TypeOf(h, n).message)
      else
        Done(Rec(WithMarkers(SerFields(h, cfg, Slice(fields, cfg.limits.maxProperties), seen, depth + 1), |fields|,
          TypeOf(h, n), cfg)))
    case ErrorNode(_, _, _, _, fields) =>
      match SerCause(h, cfg, n, seen, depth + 1)
      case Failed(message) => Threw(message)
      case Filled(base) =>
        match SerErrorFields(h, cfg, base, fields, seen, depth + 1)
        case Failed(message) => Threw(message)
        case Filled(all) => Done(Err(all))
  }

  function Listed(results: Results, total: nat, cfg: Config): Result {
    match results
    case All(outs) => Done(List(CapCollection(outs, total, cfg.limits.maxArrayLength)))
    case Broke(message) => Threw(message)
  }

  /** The truncation count and the type name, which overwrite properties of those names. The type
      name is neither serialized nor redacted. */
  function WithMarkers(fields: map<string, Out>, total: nat, t: TypeName, cfg: Config): map<string, Out> {
    var counted :=
      if total > cfg.limits.maxProperties then fields["__truncatedKeys" := Count(total - cfg.limits.maxProperties)]
      else fields;
    if t.Typed? then counted["__type" := AsIs(t.v)] else counted
  }

  function SerItems(h: Heap, cfg: Config, items: seq<Val>, seen: set<Ref>, depth: int): (r: Results)
    ensures r.All? ==> |r.outs| == |items|
    decreases Room(cfg, depth), 3, |items|
  {
    if items == [] then All([])
    else
      match SerItems(h, cfg, items[..|items| - 1], seen, depth)
      case Broke(message) => Broke(message)
      case All(outs) =>
        match Ser(h, cfg, items[|items| - 1], seen, depth)
        case Threw(message) => Broke(message)
        case Done(out) => All(outs + [out])
  }

  function SerEntries(h: Heap, cfg: Config, entries: seq<Entry>, seen: set<Ref>, depth: int): (r: Results)
    ensures r.All? ==> |r.outs| == |entries|
    decreases Room(cfg, depth), 3, |entries|
  {
    if entries == [] then All([])
    else
      match SerEntries(h, cfg, entries[..|entries| - 1], seen, depth)
      case Broke(message) => Broke(message)
      case All(outs) =>
        match SerEntry(h, cfg, entries[|entries| - 1], seen, depth)
        case Threw(message) => Broke(message)
        case Done(out) => All(outs + [out])
  }

  /** The key is written before its label is asked for, and never redacted itself. */
  function SerEntry(h: Heap, cfg: Config, e: Entry, seen: set<Ref>, depth: int): Result
    decreases Room(cfg, depth), 3, 0
  {
    match Ser(h, cfg, e.key, seen, depth)
    case Threw(message) => Threw(message)
    case Done(key) =>
      if e.called.NoLabel? then Threw(e.called.message)
      else if ShouldRedact(cfg, e.called.text) then Done(List([key, Redacted]))
      else
        match Ser(h, cfg, e.value, seen, depth)
        case Threw(message) => Threw(message)
        case Done(value) => Done(List([key, value]))
  }

  /** A property that cannot be read or written spoils only itself. */
  function SerField(h: Heap, cfg: Config, f: Field, seen: set<Ref>, depth: int): Out
    decreases Room(cfg, depth), 3, 0
  {
    if ShouldRedact(cfg, f.key) then Redacted
    else
      match f.reading
      case Raised(message) => Unserializable(message)
      case Got(v) =>
        match Ser(h, cfg, v, seen, depth)
        case Threw(message) => Unserializable(message)
        case Done(out) => out
  }

  function SerFields(h: Heap, cfg: Config, fields: seq<Field>, seen: set<Ref>, depth: int): map<string, Out>
    decreases Room(cfg, depth), 3, |fields|
  {
    if fields == [] then map[]
    else
      var last := fields[|fields| - 1];
      Put(SerFields(h, cfg, fields[..|fields| - 1], seen, depth), last.key, SerField(h, cfg, last, seen, depth))
  }

  function ErrorBase(cfg: Config, n: Node): map<string, Out>
    requires n.ErrorNode?
  {
    var base := map["name" := Text(n.name), "message" := TruncateString(n.message, cfg.limits.maxStringLength)];
    if n.stack == "" then base else base["stack" := TruncateString(n.stack, cfg.limits.maxStringLength)]
  }

  /** The cause is written whatever the redaction patterns say; an own key of that name overwrites
      it afterwards. */
  function SerCause(h: Heap, cfg: Config, n: Node, seen: set<Ref>, depth: int): Fields
    requires n.ErrorNode?
    decreases Room(cfg, depth), 3, 0
  {
    match CauseOf(n)
    case Raised(message) => Failed(message)
    case Got(cause) =>
      if cause.Undefined? then Filled(ErrorBase(cfg, n))
      else
        match Ser(h, cfg, cause, seen, depth)
        case Threw(message) => Failed(message)
        case Done(out) => Filled(ErrorBase(cfg, n)["cause" := out])
  }

  /** Unlike those of a record, the properties of an error are not capped, and one that throws
      spoils the whole error. */
  function SerErrorFields(h: Heap, cfg: Config, base: map<string, Out>, fields: seq<Field>, seen: set<Ref>,
      depth: int): Fields
    decreases Room(cfg, depth), 3, |fields|
  {
    if fields == [] then Filled(base)
    else
      var last := fields[|fields| - 1];
      match SerErrorFields(h, cfg, base, fields[..|fields| - 1], seen, depth)
      case Failed(message) => Failed(message)
      case Filled(before) =>
        if ShouldRedact(cfg, last.key) then Filled(Put(before, last.key, Redacted))
        else
          match last.reading
          case Raised(message) => Failed(message)
          case Got(v) =>
            match Ser(h, cfg, v, seen, depth)
            case Threw(message) => Failed(message)
            case Done(out) => Filled(Put(before, last.key, out))
  }

  /** `serializeLogValue` and `serializeLogValueRedacted`, after the patterns were put in lower
      case. */
  function SerializeLogValue(h: Heap, cfg: Config, v: Val): Result {
    Ser(h, cfg, v, {}, 0)
  }
}
