/** What redaction in the serializer of `src/base-logger.ts` hides, and exactly what it does not:
    type names, and of errors the name, message, stack and cause. */
module SerializeTheorems {
  import opened Common
  import opened SerializeSpec
  import opened SerializeNodes

  // ---------------------------------------------------------------- redaction

  /** `ren` renames the objects of the first graph. */
  ghost predicate SameVal(ren: map<Ref, Ref>, v: Val, w: Val) {
    if v.Obj? && w.Obj? then v.ref in ren && ren[v.ref] == w.ref else v == w && !v.Obj?
  }

  ghost predicate SameReading(ren: map<Ref, Ref>, a: Reading, b: Reading) {
    if a.Got? && b.Got? then SameVal(ren, a.v, b.v) else a == b && a.Raised?
  }

  /** Under a redacted key anything may differ. */
  ghost predicate SameField(ren: map<Ref, Ref>, cfg: Config, a: Field, b: Field) {
    a.key == b.key && (ShouldRedact(cfg, a.key) || SameReading(ren, a.reading, b.reading))
  }

  ghost predicate SameEntry(ren: map<Ref, Ref>, cfg: Config, a: Entry, b: Entry) {
    SameVal(ren, a.key, b.key) && a.called == b.called &&
    ((a.called.Label? && ShouldRedact(cfg, a.called.text)) || SameVal(ren, a.value, b.value))
  }

  ghost predicate SameItems(ren: map<Ref, Ref>, a: seq<Val>, b: seq<Val>) {
    |a| == |b| && forall i :: 0 <= i < |a| ==> SameVal(ren, a[i], b[i])
  }

  ghost predicate SameEntries(ren: map<Ref, Ref>, cfg: Config, a: seq<Entry>, b: seq<Entry>) {
    |a| == |b| && forall i :: 0 <= i < |a| ==> SameEntry(ren, cfg, a[i], b[i])
  }

  ghost predicate SameFields(ren: map<Ref, Ref>, cfg: Config, a: seq<Field>, b: seq<Field>) {
    |a| == |b| && forall i :: 0 <= i < |a| ==> SameField(ren, cfg, a[i], b[i])
  }

  /** The type names agree, and neither is an object. */
  ghost predicate SameType(t: TypeName, u: TypeName) {
    t == u && (t.Typed? ==> !t.v.Obj?)
  }

  /** Serializing it throws nothing, whatever the graph. */
  predicate Harmless(r: Reading) { r.Got? && !r.v.Obj? }

  /** An own key of that name overwrites the cause. Below a redacted one the causes may differ, as
      long as writing them does not throw. */
  ghost predicate SameCause(ren: map<Ref, Ref>, cfg: Config, quiet: bool, a: Node, b: Node)
    requires a.ErrorNode? && b.ErrorNode?
  {
    if HasKey(a.fields, "cause") && ShouldRedact(cfg, "cause") then
      (quiet && CauseOf(a).Got? && CauseOf(b).Got?) || (Harmless(CauseOf(a)) && Harmless(CauseOf(b)))
    else SameReading(ren, CauseOf(a), CauseOf(b))
  }

  /** Of errors, the name, message, stack and cause for which there is no own key have to agree:
      they are written whether they are redacted or not. */
  ghost predicate SameContent(ren: map<Ref, Ref>, cfg: Config, quiet: bool, a: Node, b: Node) {
    match a
    case TextNode(_) => a == b
    case ArrayNode(items) => b.ArrayNode? && SameItems(ren, items, b.items)
    case SetNode(items) => b.SetNode? && SameItems(ren, items, b.items)
    case MapNode(entries) => b.MapNode? && SameEntries(ren, cfg, entries, b.entries)
    case RecordNode(fields, _, _) => b.RecordNode? && SameFields(ren, cfg, fields, b.fields)
    case ErrorNode(name, message, stack, _, fields) =>
      b.ErrorNode? && SameFields(ren, cfg, fields, b.fields) && SameCause(ren, cfg, quiet, a, b) &&
      (HasKey(fields, "name") || name == b.name) && (HasKey(fields, "message") || message == b.message) &&
      (HasKey(fields, "stack") || stack == b.stack)
  }

  /** Type names are written as well. */
  ghost predicate SameNode(h: Heap, g: Heap, ren: map<Ref, Ref>, cfg: Config, quiet: bool, a: Node, b: Node) {
    SameContent(ren, cfg, quiet, a, b) && (a.RecordNode? ==> SameType(TypeOf(h, a), TypeOf(g, b)))
  }

  ghost predicate Injective(ren: map<Ref, Ref>) {
    forall r, s :: r in ren && s in ren && r != s ==> ren[r] != ren[s]
  }

  ghost predicate BothQuiet(h: Heap, g: Heap, cfg: Config) { AllQuiet(h, cfg) && AllQuiet(g, cfg) }

  /** The two graphs differ only below redacted keys, over the objects that `ren` covers. */
  ghost predicate SameShown(h: Heap, g: Heap, ren: map<Ref, Ref>, cfg: Config) {
    Injective(ren) && forall r :: r in ren ==> SameNode(h, g, ren, cfg, BothQuiet(h, g, cfg), h(r), g(ren[r]))
  }

  ghost predicate SameSeen(ren: map<Ref, Ref>, seen: set<Ref>, there: set<Ref>) {
    forall r :: r in ren ==> (r in seen <==> ren[r] in there)
  }

  /** Main theorem on redaction: two values that differ only below redacted keys give one output,
      at every depth, with cycles, throwing getters and all caps in place. */
  lemma {:induction false} RedactionHides(
    h: Heap, g: Heap, ren: map<Ref, Ref>, cfg: Config, v: Val, w: Val, seen: set<Ref>, there: set<Ref>, depth: int)
    requires SameShown(h, g, ren, cfg) && SameVal(ren, v, w) && SameSeen(ren, seen, there)
    ensures Ser(h, cfg, v, seen, depth) == Ser(g, cfg, w, there, depth)
    decreases Room(cfg, depth), 2, 0
  {
    if v.Obj? && v.ref !in seen && depth < cfg.limits.maxDepth {
      hide SameNode, BothQuiet;
      NodeHides(h, g, ren, cfg, h(v.ref), g(w.ref), seen + {v.ref}, there + {w.ref}, depth);
    }
  }

  lemma {:induction false} NodeHides(
    h: Heap, g: Heap, ren: map<Ref, Ref>, cfg: Config, a: Node, b: Node, seen: set<Ref>, there: set<Ref>, depth: int)
    requires SameShown(h, g, ren, cfg) && SameNode(h, g, ren, cfg, BothQuiet(h, g, cfg), a, b) &&
        SameSeen(ren, seen, there)
    requires depth < cfg.limits.maxDepth
    ensures SerNode(h, cfg, a, seen, depth) == SerNode(g, cfg, b, there, depth)
    decreases Room(cfg, depth), 1, 0
  {
    hide SameShown, SameSeen, BothQuiet, TypeOf, CauseOf, SameCause, HasKey, ShouldRedact;
    var l := cfg.limits;
    match a
    case TextNode(_) =>
    case ArrayNode(items) => ItemsHide(h, g, ren, cfg, Slice(items, l.maxArrayLength),
      Slice(b.items, l.maxArrayLength), seen, there, depth + 1);
    case SetNode(items) => ItemsHide(h, g, ren, cfg, Slice(items, l.maxArrayLength), Slice(b.items, l.maxArrayLength),
      seen, there, depth + 1);
    case MapNode(entries) =>
      EntriesHide(h, g, ren, cfg, Slice(entries, l.maxArrayLength), Slice(b.entries, l.maxArrayLength), seen, there,
        depth + 1);
    case RecordNode(fields, _, _) =>
      FieldsHide(h, g, ren, cfg, Slice(fields, l.maxProperties), Slice(b.fields, l.maxProperties), seen, there,
        depth + 1);
    case ErrorNode(_, _, _, _, fields) => ErrorHides(h, g, ren, cfg, a, b, seen, there, depth);
  }

  lemma {:induction false} ErrorHides(
    h: Heap, g: Heap, ren: map<Ref, Ref>, cfg: Config, a: Node, b: Node, seen: set<Ref>, there: set<Ref>, depth: int)
    requires SameShown(h, g, ren, cfg) && SameNode(h, g, ren, cfg, BothQuiet(h, g, cfg), a, b) &&
        SameSeen(ren, seen, there)
    requires depth < cfg.limits.maxDepth && a.ErrorNode?
    ensures SerNode(h, cfg, a, seen, depth) == SerNode(g, cfg, b, there, depth)
    decreases Room(cfg, depth), 0, 1
  {
    hide SameShown, SameSeen, BothQuiet, SameReading, SameCause, CauseOf, SerNode, SerCause, SameFields, HasKey;
    var one, two := SerCause(h, cfg, a, seen, depth + 1), SerCause(g, cfg, b, there, depth + 1);
    CausesHide(h, g, ren, cfg, a, b, seen, there, depth);
    Overlay(h, cfg, a, seen, depth);
    Overlay(g, cfg, b, there, depth);
    ErrorFieldsHide(h, g, ren, cfg, map[], a.fields, b.fields, seen, there, depth + 1);
    var own := SerErrorFields(h, cfg, map[], a.fields, seen, depth + 1);
    if one.Filled? && own.Filled? {
      OwnKeys(h, cfg, a.fields, seen, depth + 1);
      NoProto(h, cfg, a, seen, depth + 1);
      NoProto(g, cfg, b, there, depth + 1);
      SameOverlay(one.fields, two.fields, own.fields, a.fields);
    }
  }

  lemma NoProto(h: Heap, cfg: Config, n: Node, seen: set<Ref>, depth: int)
    requires n.ErrorNode? && SerCause(h, cfg, n, seen, depth).Filled?
    ensures "__proto__" !in SerCause(h, cfg, n, seen, depth).fields
  {
    hide CauseOf;
  }

  /** Both causes are written, with the same bases up to own keys, or throw the same. */
  lemma {:induction false} CausesHide(
    h: Heap, g: Heap, ren: map<Ref, Ref>, cfg: Config, a: Node, b: Node, seen: set<Ref>, there: set<Ref>, depth: int)
    requires SameShown(h, g, ren, cfg) && SameNode(h, g, ren, cfg, BothQuiet(h, g, cfg), a, b) &&
        SameSeen(ren, seen, there)
    requires depth < cfg.limits.maxDepth && a.ErrorNode?
    ensures
      var one, two := SerCause(h, cfg, a, seen, depth + 1), SerCause(g, cfg, b, there, depth + 1);
      if one.Filled? then two.Filled? && SameBases(one.fields, two.fields, a.fields) else one == two
    decreases Room(cfg, depth), 0, 0
  {
    hide SameShown, SameSeen, CauseOf, SameFields, HasKey, ShouldRedact;
    if HasKey(a.fields, "cause") && ShouldRedact(cfg, "cause") {
      CauseIsWritten(h, cfg, a, AllQuiet(h, cfg), seen, depth + 1);
      CauseIsWritten(g, cfg, b, AllQuiet(g, cfg), there, depth + 1);
    } else if CauseOf(a).Got? && !CauseOf(a).v.Undefined? {
      RedactionHides(h, g, ren, cfg, CauseOf(a).v, CauseOf(b).v, seen, there, depth + 1);
    }
  }

  lemma CauseIsWritten(h: Heap, cfg: Config, n: Node, quiet: bool, seen: set<Ref>, depth: int)
    requires n.ErrorNode? && (quiet ==> AllQuiet(h, cfg)) && ((quiet && CauseOf(n).Got?) || Harmless(CauseOf(n)))
    ensures SerCause(h, cfg, n, seen, depth).Filled?
  {
    hide CauseOf;
    if quiet { NeverThrows(h, cfg, CauseOf(n).v, seen, depth); }
  }

  // ---------------------------------------------------------------- errors: what own keys overwrite

  /** The same under the four keys that are written first, apart from own keys. */
  ghost predicate SameBases(a: map<string, Out>, b: map<string, Out>, fields: seq<Field>) {
    forall key :: !HasKey(fields, key) ==> SameUnder(a, b, key)
  }

  ghost predicate SameUnder(a: map<string, Out>, b: map<string, Out>, key: string) {
    (key in a <==> key in b) && (key in a ==> a[key] == b[key])
  }

  /** The own properties are laid over the base. */
  lemma Overlay(h: Heap, cfg: Config, n: Node, seen: set<Ref>, depth: int)
    requires n.ErrorNode? && depth < cfg.limits.maxDepth
    ensures
      var base, own := SerCause(h, cfg, n, seen, depth + 1), SerErrorFields(h, cfg, map[], n.fields, seen, depth + 1);
      SerNode(h, cfg, n, seen, depth) ==
      if base.Failed? then Threw(base.message) else if own.Failed? then Threw(own.message)
        else Done(Err(base.fields + own.fields))
  {
    hide SerCause;
    var base := SerCause(h, cfg, n, seen, depth + 1);
    if base.Filled? { Laid(h, cfg, base.fields, n.fields, seen, depth + 1); }
  }

  lemma {:induction false} Laid(h: Heap, cfg: Config, base: map<string, Out>, fields: seq<Field>, seen: set<Ref>,
      depth: int)
    ensures
      var own := SerErrorFields(h, cfg, map[], fields, seen, depth);
      SerErrorFields(h, cfg, base, fields, seen, depth) == if own.Filled? then Filled(base + own.fields) else own
    decreases |fields|
  {
    hide ShouldRedact;
    if fields == [] {
      assert base + map[] == base;
    } else {
      Laid(h, cfg, base, fields[..|fields| - 1], seen, depth);
      var own := SerErrorFields(h, cfg, map[], fields[..|fields| - 1], seen, depth);
      var last := fields[|fields| - 1];
      if own.Filled? { forall out { PutOver(base, own.fields, last.key, out); } }
    }
  }

  lemma PutOver(base: map<string, Out>, own: map<string, Out>, key: string, out: Out)
    ensures Put(base + own, key, out) == base + Put(own, key, out)
  {
    if key != "__proto__" { assert (base + own)[key := out] == base + own[key := out]; }
  }

  lemma OwnKeys(h: Heap, cfg: Config, fields: seq<Field>, seen: set<Ref>, depth: int)
    requires SerErrorFields(h, cfg, map[], fields, seen, depth).Filled?
    ensures forall key :: key in SerErrorFields(h, cfg, map[], fields, seen, depth).fields <==> OwnKey(fields, key)
  {
    forall key ensures key in SerErrorFields(h, cfg, map[], fields, seen, depth).fields <==> OwnKey(fields, key) {
      ErrorKeys(h, cfg, map[], fields, seen, depth, key);
    }
  }

  /** Laid over two bases, the same properties give one map exactly when the bases are the same but
      for them. */
  lemma SameOverlay(a: map<string, Out>, b: map<string, Out>, own: map<string, Out>, fields: seq<Field>)
    requires "__proto__" !in a && "__proto__" !in b && forall key :: key in own <==> OwnKey(fields, key)
    ensures a + own == b + own <==> SameBases(a, b, fields)
  {
    hide HasKey;
    if a + own == b + own {
      forall key | !HasKey(fields, key) ensures SameUnder(a, b, key) {
        assert key !in own;
        assert (key in a <==> key in a + own) && (key in b <==> key in b + own);
      }
    }
    if SameBases(a, b, fields) {
      forall key ensures (key in a + own <==> key in b + own) && (key in a + own ==> (a + own)[key] == (b + own)[key]) {
        if key !in own && key != "__proto__" { assert SameUnder(a, b, key); }
      }
    }
  }

  lemma {:induction false} ItemsHide(
    h: Heap, g: Heap, ren: map<Ref, Ref>, cfg: Config, a: seq<Val>, b: seq<Val>, seen: set<Ref>, there: set<Ref>,
      depth: int)
    requires SameShown(h, g, ren, cfg) && SameItems(ren, a, b) && SameSeen(ren, seen, there)
    ensures SerItems(h, cfg, a, seen, depth) == SerItems(g, cfg, b, there, depth)
    decreases Room(cfg, depth), 3, |a|
  {
    hide SameShown, SameSeen, SameVal;
    if a != [] {
      ItemsHide(h, g, ren, cfg, a[..|a| - 1], b[..|a| - 1], seen, there, depth);
      RedactionHides(h, g, ren, cfg, a[|a| - 1], b[|a| - 1], seen, there, depth);
    }
  }

  lemma {:induction false} EntriesHide(
    h: Heap, g: Heap, ren: map<Ref, Ref>, cfg: Config, a: seq<Entry>, b: seq<Entry>, seen: set<Ref>, there: set<Ref>,
      depth: int)
    requires SameShown(h, g, ren, cfg) && SameEntries(ren, cfg, a, b) && SameSeen(ren, seen, there)
    ensures SerEntries(h, cfg, a, seen, depth) == SerEntries(g, cfg, b, there, depth)
    decreases Room(cfg, depth), 3, |a|
  {
    hide SameShown, SameSeen, SameVal, ShouldRedact;
    if a != [] {
      EntriesHide(h, g, ren, cfg, a[..|a| - 1], b[..|a| - 1], seen, there, depth);
      var e, f := a[|a| - 1], b[|a| - 1];
      assert SameEntry(ren, cfg, e, f);
      RedactionHides(h, g, ren, cfg, e.key, f.key, seen, there, depth);
      if !(e.called.Label? && ShouldRedact(cfg, e.called.text)) {
        RedactionHides(h, g, ren, cfg, e.value, f.value, seen, there, depth);
      }
    }
  }

  lemma {:induction false} FieldsHide(
    h: Heap, g: Heap, ren: map<Ref, Ref>, cfg: Config, a: seq<Field>, b: seq<Field>, seen: set<Ref>, there: set<Ref>,
      depth: int)
    requires SameShown(h, g, ren, cfg) && SameFields(ren, cfg, a, b) && SameSeen(ren, seen, there)
    ensures SerFields(h, cfg, a, seen, depth) == SerFields(g, cfg, b, there, depth)
    decreases Room(cfg, depth), 3, |a|
  {
    hide SameShown, SameSeen, SameVal, ShouldRedact;
    if a != [] {
      FieldsHide(h, g, ren, cfg, a[..|a| - 1], b[..|a| - 1], seen, there, depth);
      var e, f := a[|a| - 1], b[|a| - 1];
      assert SameField(ren, cfg, e, f);
      if !ShouldRedact(cfg, e.key) && e.reading.Got? {
        RedactionHides(h, g, ren, cfg, e.reading.v, f.reading.v, seen, there, depth);
      }
    }
  }

  lemma {:induction false} ErrorFieldsHide(
    h: Heap, g: Heap, ren: map<Ref, Ref>, cfg: Config, base: map<string, Out>, a: seq<Field>, b: seq<Field>,
    seen: set<Ref>, there: set<Ref>, depth: int)
    requires SameShown(h, g, ren, cfg) && SameFields(ren, cfg, a, b) && SameSeen(ren, seen, there)
    ensures SerErrorFields(h, cfg, base, a, seen, depth) == SerErrorFields(g, cfg, base, b, there, depth)
    decreases Room(cfg, depth), 3, |a|
  {
    hide SameShown, SameSeen, SameVal, ShouldRedact;
    if a != [] {
      ErrorFieldsHide(h, g, ren, cfg, base, a[..|a| - 1], b[..|a| - 1], seen, there, depth);
      var e, f := a[|a| - 1], b[|a| - 1];
      assert SameField(ren, cfg, e, f);
      if !ShouldRedact(cfg, e.key) && e.reading.Got? {
        RedactionHides(h, g, ren, cfg, e.reading.v, f.reading.v, seen, there, depth);
      }
    }
  }

  // ---------------------------------------------------------------- what redaction does not hide: type names

  /** No record takes an object for its type name. */
  ghost predicate PlainTypes(h: Heap) {
    forall r :: PlainType(h, h(r))
  }

  ghost predicate PlainType(h: Heap, n: Node) {
    n.RecordNode? && TypeOf(h, n).Typed? ==> !TypeOf(h, n).v.Obj?
  }

  ghost predicate SameContents(h: Heap, g: Heap, ren: map<Ref, Ref>, cfg: Config) {
    Injective(ren) && forall r :: r in ren ==> SameContent(ren, cfg, BothQuiet(h, g, cfg), h(r), g(ren[r]))
  }

  ghost predicate SameOutputs(h: Heap, g: Heap, ren: map<Ref, Ref>, cfg: Config) {
    forall v, w, seen, there, depth :: SameVal(ren, v, w) && SameSeen(ren, seen, there) ==>
      Ser(h, cfg, v, seen, depth) == Ser(g, cfg, w, there, depth)
  }

  ghost predicate TypeAgrees(h: Heap, g: Heap, a: Node, b: Node) {
    a.RecordNode? && b.RecordNode? ==> TypeOf(h, a) == TypeOf(g, b)
  }

  ghost predicate TypesAgree(h: Heap, g: Heap, ren: map<Ref, Ref>) {
    forall r :: r in ren ==> TypeAgrees(h, g, h(r), g(ren[r]))
  }

  ghost predicate NoTypeKeys(h: Heap, ren: map<Ref, Ref>) {
    forall r :: r in ren && h(r).RecordNode? ==> !HasKey(h(r).fields, "__type")
  }

  /** Main theorem on type names: for graphs whose contents differ only below redacted keys, all
      outputs are the same exactly when all records have the same type names. An own `constructor`
      counts even below a redacted key. */
  lemma {:induction false} TypeNamesAreShown(h: Heap, g: Heap, ren: map<Ref, Ref>, cfg: Config)
    requires cfg.limits.maxDepth > 0 && PlainTypes(h) && PlainTypes(g) && SameContents(h, g, ren, cfg) &&
        NoTypeKeys(h, ren)
    ensures SameOutputs(h, g, ren, cfg) <==> TypesAgree(h, g, ren)
  {
    hide SameContent, BothQuiet, TypeOf, SameSeen, HasKey;
    if TypesAgree(h, g, ren) {
      forall r | r in ren ensures SameNode(h, g, ren, cfg, BothQuiet(h, g, cfg), h(r), g(ren[r])) {
        SameKind(ren, cfg, BothQuiet(h, g, cfg), h(r), g(ren[r]));
        assert TypeAgrees(h, g, h(r), g(ren[r])) && PlainType(h, h(r));
      }
      forall v, w, seen, there, depth | SameVal(ren, v, w) && SameSeen(ren, seen, there)
        ensures Ser(h, cfg, v, seen, depth) == Ser(g, cfg, w, there, depth)
      {
        RedactionHides(h, g, ren, cfg, v, w, seen, there, depth);
      }
    }
    if SameOutputs(h, g, ren, cfg) {
      forall r | r in ren ensures TypeAgrees(h, g, h(r), g(ren[r])) {
        assert SameVal(ren, Obj(r), Obj(ren[r])) && SameSeen(ren, {}, {}) by { NoneSeen(ren); }
        assert Ser(h, cfg, Obj(r), {}, 0) == Ser(g, cfg, Obj(ren[r]), {}, 0);
        SameKind(ren, cfg, BothQuiet(h, g, cfg), h(r), g(ren[r]));
        if h(r).RecordNode? { TypeIsInOutput(h, g, ren, cfg, h(r), g(ren[r]), {} + {r}, {} + {ren[r]}, 0); }
      }
    }
  }

  lemma NoneSeen(ren: map<Ref, Ref>)
    ensures SameSeen(ren, {}, {})
  {
  }

  lemma SameKind(ren: map<Ref, Ref>, cfg: Config, quiet: bool, a: Node, b: Node)
    requires SameContent(ren, cfg, quiet, a, b)
    ensures a.RecordNode? <==> b.RecordNode?
    ensures a.RecordNode? ==> SameFields(ren, cfg, a.fields, b.fields)
  {
  }

  lemma TypeIsInOutput(
    h: Heap, g: Heap, ren: map<Ref, Ref>, cfg: Config, a: Node, b: Node, seen: set<Ref>, there: set<Ref>, depth: int)
    requires a.RecordNode? && b.RecordNode? && depth < cfg.limits.maxDepth && SameFields(ren, cfg, a.fields, b.fields)
    requires !HasKey(a.fields, "__type") && SerNode(h, cfg, a, seen, depth) == SerNode(g, cfg, b, there, depth)
    ensures TypeOf(h, a) == TypeOf(g, b)
  {
    hide SerNode, TypeOf, SameFields, ShouldRedact;
    SameKeys(ren, cfg, a.fields, b.fields, "__type");
    TypeMark(h, cfg, a, seen, depth);
    TypeMark(g, cfg, b, there, depth);
  }

  lemma TypeMark(h: Heap, cfg: Config, n: Node, seen: set<Ref>, depth: int)
    requires n.RecordNode? && depth < cfg.limits.maxDepth && !HasKey(n.fields, "__type")
    ensures
      var result, t := SerNode(h, cfg, n, seen, depth), TypeOf(h, n);
      (t.NoType? ==> result == Threw(t.message)) &&
      (!t.NoType? ==> result.Done? && result.out.Rec? && ("__type" in result.out.fields <==> t.Typed?)) &&
      (t.Typed? ==> result.out.fields["__type"] == AsIs(t.v))
  {
    hide TypeOf, ShouldRedact, HasKey;
    FieldKeys(h, cfg, Slice(n.fields, cfg.limits.maxProperties), seen, depth + 1, "__type");
    NotKept(n.fields, cfg.limits.maxProperties, "__type");
  }

  lemma SameKeys(ren: map<Ref, Ref>, cfg: Config, a: seq<Field>, b: seq<Field>, key: string)
    requires SameFields(ren, cfg, a, b)
    ensures HasKey(a, key) <==> HasKey(b, key)
  {
    hide ShouldRedact, SameReading;
    forall i | 0 <= i < |a| ensures a[i].key == b[i].key { assert SameField(ren, cfg, a[i], b[i]); }
  }

  lemma NotKept(fields: seq<Field>, n: int, key: string)
    requires !HasKey(fields, key)
    ensures !OwnKey(Slice(fields, n), key)
  {
  }

  /** The usual case: a class. The type name is then that of the prototypes. */
  lemma InheritedTypesAgree(h: Heap, g: Heap, ren: map<Ref, Ref>, cfg: Config, a: Node, b: Node)
    requires a.RecordNode? && b.RecordNode? && SameFields(ren, cfg, a.fields, b.fields)
    requires !HasKey(a.fields, "constructor") && a.maker == b.maker && Harmless(a.maker)
    ensures TypeOf(h, a) == TypeOf(g, b)
  {
    SameKeys(ren, cfg, a.fields, b.fields, "constructor");
    NotOwn(a.fields, "constructor", a.maker);
    NotOwn(b.fields, "constructor", b.maker);
  }

  lemma {:induction false} NotOwn(fields: seq<Field>, key: string, otherwise: Reading)
    requires !HasKey(fields, key)
    ensures Own(fields, key, otherwise) == otherwise
    decreases |fields|
  {
    if fields != [] {
      LastKey(fields, key);
      NotOwn(fields[..|fields| - 1], key, otherwise);
    }
  }

  // ---------------------------------------------------------------- three records with their own constructor

  const OBJECT := Got(Fun("[Function: Object]", Got(Str("Object"))))

  /** A plain object. */
  function Plainly(fields: seq<Field>): Node { RecordNode(fields, OBJECT, Got(Undefined)) }

  /** `{ constructor: { name: secret } }`. */
  function Named(secret: string): Heap {
    (r: Ref) => NamedNode(secret, r)
  }

  function NamedNode(secret: string, r: Ref): Node {
    if r == 0 then Plainly([Field("constructor", Got(Obj(1)))]) else Plainly([Field("name", Got(Str(secret)))])
  }

  lemma NamedHasType(secret: string)
    requires secret != "" && secret != "Object"
    ensures Named(secret)(0).RecordNode? && TypeOf(Named(secret), Named(secret)(0)) == Typed(Str(secret))
  {
    var h := Named(secret);
    assert Own(h(1).fields, "name", h(1).named) == Got(Str(secret));
    assert NameOf(h, Obj(1)) == Got(Str(secret));
  }

  /** The pattern `constructor` redacts the key and shows its name. */
  lemma RedactedConstructorsAreShown(cfg: Config, secret: string)
    requires cfg.limits.maxDepth > 0 && cfg.limits.maxProperties > 0 && cfg.patterns == Some(["constructor"])
    requires secret != "" && secret != "Object"
    ensures SerializeLogValue(Named(secret), cfg, Obj(0)) ==
        Done(Rec(map["constructor" := Redacted, "__type" := Text(secret)]))
  {
    var h := Named(secret);
    assert Lower("constructor") == "constructor";
    assert OccursAt("constructor", "constructor", 0);
    assert Includes(Lower("constructor"), cfg.patterns.value[0]);
    assert ShouldRedact(cfg, "constructor");
    NamedHasType(secret);
    hide ShouldRedact, TypeOf;
    var fields := h(0).fields;
    assert Slice(fields, cfg.limits.maxProperties) == fields && fields[..0] == [];
    assert SerFields(h, cfg, fields, {} + {0}, 1) == map["constructor" := Redacted];
    assert SerializeLogValue(h, cfg, Obj(0)) == SerNode(h, cfg, h(0), {} + {0}, 0);
  }

  /** A constructor whose name cannot be read spoils all of its record. */
  lemma ThrowingConstructorsSpoil(h: Heap, cfg: Config, fields: seq<Field>, message: string, seen: set<Ref>, depth: int)
    requires depth < cfg.limits.maxDepth
    ensures SerNode(h, cfg, Plainly(fields + [Field("constructor", Raised(message))]), seen, depth) == Threw(message)
  {
  }

  // ---------------------------------------------------------------- what redaction does not hide: errors

  /** Main theorem on errors: two errors whose own properties differ only below redacted keys, and
      that are written at all, give one output exactly when name, message, stack and cause each agree
      in what is written for them or are overwritten by an own key. The patterns do not come in: they
      hide these four under an own key only. */
  lemma {:induction false} ErrorsShowTheirBase(
    h: Heap, g: Heap, ren: map<Ref, Ref>, cfg: Config, a: Node, b: Node, seen: set<Ref>, there: set<Ref>, depth: int)
    requires SameShown(h, g, ren, cfg) && SameSeen(ren, seen, there) && depth < cfg.limits.maxDepth
    requires a.ErrorNode? && b.ErrorNode? && SameFields(ren, cfg, a.fields, b.fields)
    requires SerNode(h, cfg, a, seen, depth).Done? && SerNode(g, cfg, b, there, depth).Done?
    ensures
      SerNode(h, cfg, a, seen, depth) == SerNode(g, cfg, b, there, depth) <==>
        (HasKey(a.fields, "name") || a.name == b.name) &&
        (HasKey(a.fields, "message") || SameText(cfg, a.message, b.message)) &&
        (HasKey(a.fields, "stack") || SameText(cfg, a.stack, b.stack)) &&
        (HasKey(a.fields, "cause") || CauseShown(h, cfg, a, seen, depth + 1) == CauseShown(g, cfg, b, there, depth + 1))
  {
    hide SameShown, SameSeen, SameFields, CauseOf, HasKey, ShouldRedact;
    var one, two := SerCause(h, cfg, a, seen, depth + 1), SerCause(g, cfg, b, there, depth + 1);
    Overlay(h, cfg, a, seen, depth);
    Overlay(g, cfg, b, there, depth);
    ErrorFieldsHide(h, g, ren, cfg, map[], a.fields, b.fields, seen, there, depth + 1);
    var own := SerErrorFields(h, cfg, map[], a.fields, seen, depth + 1);
    OwnKeys(h, cfg, a.fields, seen, depth + 1);
    SameOverlay(one.fields, two.fields, own.fields, a.fields);
    hide SameBases;
    BasesAgree(h, g, cfg, a, b, seen, there, depth + 1);
  }

  /** The same after truncation. */
  predicate SameText(cfg: Config, a: string, b: string) {
    TruncateString(a, cfg.limits.maxStringLength) == TruncateString(b, cfg.limits.maxStringLength)
  }

  /** What is written for the cause, if there is one. */
  function CauseShown(h: Heap, cfg: Config, n: Node, seen: set<Ref>, depth: int): Option<Result>
    requires n.ErrorNode?
  {
    match CauseOf(n)
    case Raised(message) => Some(Threw(message))
    case Got(v) => if v.Undefined? then None else Some(Ser(h, cfg, v, seen, depth))
  }

  lemma BasesAgree(h: Heap, g: Heap, cfg: Config, a: Node, b: Node, seen: set<Ref>, there: set<Ref>, depth: int)
    requires a.ErrorNode? && b.ErrorNode? && SerCause(h, cfg, a, seen, depth).Filled? &&
        SerCause(g, cfg, b, there, depth).Filled?
    ensures
      SameBases(SerCause(h, cfg, a, seen, depth).fields, SerCause(g, cfg, b, there, depth).fields, a.fields) <==>
        (HasKey(a.fields, "name") || a.name == b.name) &&
        (HasKey(a.fields, "message") || SameText(cfg, a.message, b.message)) &&
        (HasKey(a.fields, "stack") || SameText(cfg, a.stack, b.stack)) &&
        (HasKey(a.fields, "cause") || CauseShown(h, cfg, a, seen, depth) == CauseShown(g, cfg, b, there, depth))
  {
    hide CauseOf, HasKey, SameText, TruncateString, Ser;
    var one, two := SerCause(h, cfg, a, seen, depth).fields, SerCause(g, cfg, b, there, depth).fields;
    BaseShows(h, g, cfg, a, b, seen, there, depth);
    forall key | key != "name" && key != "message" && key != "stack" && key != "cause"
      ensures SameUnder(one, two, key) { }
  }

  /** An error is written at all exactly when its cause is, redacted or not, and every own property
      that is not redacted. */
  lemma ErrorIsWritten(h: Heap, cfg: Config, n: Node, seen: set<Ref>, depth: int)
    requires n.ErrorNode? && depth < cfg.limits.maxDepth
    ensures
      SerNode(h, cfg, n, seen, depth).Done? <==>
        (CauseShown(h, cfg, n, seen, depth + 1).Some? ==> CauseShown(h, cfg, n, seen, depth + 1).value.Done?) &&
        forall i :: 0 <= i < |n.fields| && !ShouldRedact(cfg, n.fields[i].key) ==>
          CanWrite(h, cfg, n.fields[i], seen, depth + 1)
  {
    hide CauseOf, ShouldRedact, CanWrite;
    var base := SerCause(h, cfg, n, seen, depth + 1);
    if base.Filled? { OwnAreWritten(h, cfg, base.fields, n.fields, seen, depth + 1); }
  }

  predicate CanWrite(h: Heap, cfg: Config, f: Field, seen: set<Ref>, depth: int) {
    f.reading.Got? && Ser(h, cfg, f.reading.v, seen, depth).Done?
  }

  lemma {:induction false} OwnAreWritten(
    h: Heap, cfg: Config, base: map<string, Out>, fields: seq<Field>, seen: set<Ref>, depth: int)
    ensures
      SerErrorFields(h, cfg, base, fields, seen, depth).Filled? <==>
        forall i :: 0 <= i < |fields| && !ShouldRedact(cfg, fields[i].key) ==> CanWrite(h, cfg, fields[i], seen, depth)
    decreases |fields|
  {
    hide ShouldRedact;
    if fields != [] { OwnAreWritten(h, cfg, base, fields[..|fields| - 1], seen, depth); }
  }

  /** A heap with one error, whose cause is a string. */
  function Caused(cause: string): Heap {
    (r: Ref) => ErrorNode("E", "", "", Got(Str(cause)), [])
  }

  /** So no pattern hides a cause that was given to the constructor of the error, not even the
      pattern `cause`. */
  lemma CausesAreShown(cfg: Config, one: string, two: string)
    requires cfg.limits.maxDepth > 0
    ensures SerializeLogValue(Caused(one), cfg, Obj(0)) == SerializeLogValue(Caused(two), cfg, Obj(0)) <==>
        SameText(cfg, one, two)
  {
    var a, b := Caused(one)(0), Caused(two)(0);
    assert CauseOf(a) == Got(Str(one)) && CauseOf(b) == Got(Str(two));
    assert !HasKey(a.fields, "name") && !HasKey(a.fields, "message") && !HasKey(a.fields, "stack") &&
      !HasKey(a.fields, "cause");
    NoneSeen(map[]);
    ErrorIsWritten(Caused(one), cfg, a, {} + {0}, 0);
    ErrorIsWritten(Caused(two), cfg, b, {} + {0}, 0);
    ErrorsShowTheirBase(Caused(one), Caused(two), map[], cfg, a, b, {} + {0}, {} + {0}, 0);
    assert SerializeLogValue(Caused(one), cfg, Obj(0)) == SerNode(Caused(one), cfg, a, {} + {0}, 0);
    assert SerializeLogValue(Caused(two), cfg, Obj(0)) == SerNode(Caused(two), cfg, b, {} + {0}, 0);
  }

  lemma BaseShows(h: Heap, g: Heap, cfg: Config, a: Node, b: Node, seen: set<Ref>, there: set<Ref>, depth: int)
    requires a.ErrorNode? && b.ErrorNode? && SerCause(h, cfg, a, seen, depth).Filled? &&
        SerCause(g, cfg, b, there, depth).Filled?
    ensures
      var one, two := SerCause(h, cfg, a, seen, depth).fields, SerCause(g, cfg, b, there, depth).fields;
      (SameUnder(one, two, "name") <==> a.name == b.name) &&
      (SameUnder(one, two, "message") <==> SameText(cfg, a.message, b.message)) &&
      (SameUnder(one, two, "stack") <==> SameText(cfg, a.stack, b.stack)) &&
      (SameUnder(one, two, "cause") <==> CauseShown(h, cfg, a, seen, depth) == CauseShown(g, cfg, b, there, depth))
  {
    hide CauseOf, Ser;
  }
}
