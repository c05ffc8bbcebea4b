/** How large the output of the serializer of `src/base-logger.ts` can become. */
module SerializeBounds {
  import opened Common
  import opened SerializeSpec
  import opened SerializeTheorems

  /** `keys` is for records, `errorKeys` for errors. */
  datatype Bounds = Bounds(width: int, keys: int, errorKeys: int)

  /** No list is longer, no record or error wider and no tree higher than this, and nothing was left
      unserialized that could be. */
  ghost predicate Within(out: Out, height: int, b: Bounds) {
    match out
    case List(items) => height > 0 && |items| <= b.width &&
      forall i :: 0 <= i < |items| ==> Within(items[i], height - 1, b)
    case Rec(fields) => height > 0 && |fields| <= b.keys && forall k :: k in fields ==> Within(fields[k], height - 1, b)
    case Err(fields) => height > 0 && |fields| <= b.errorKeys &&
      forall k :: k in fields ==> Within(fields[k], height - 1, b)
    case Verbatim(v) => !v.Obj?
    case _ => true
  }

  lemma {:induction false} WithinHigher(out: Out, height: int, higher: int, b: Bounds)
    requires Within(out, height, b) && height <= higher
    ensures Within(out, higher, b)
    decreases out
  {
    match out
    case List(items) => forall i | 0 <= i < |items| ensures Within(items[i], higher - 1, b) {
        WithinHigher(items[i], height - 1, higher - 1, b);
      }
    case Rec(fields) => forall k | k in fields ensures Within(fields[k], higher - 1, b) {
        WithinHigher(fields[k], height - 1, higher - 1, b);
      }
    case Err(fields) => forall k | k in fields ensures Within(fields[k], higher - 1, b) {
        WithinHigher(fields[k], height - 1, higher - 1, b);
      }
    case _ =>
  }

  /** A list has room for one marker more than the cap, a record for two. The properties of errors
      are not capped, so that the largest error counts. */
  function BoundsOf(cfg: Config, errorKeys: int): Bounds {
    Bounds(cfg.limits.maxArrayLength + 1, cfg.limits.maxProperties + 2, errorKeys)
  }

  /** The caps are counts, and errors have at most so many properties with the four of their own. */
  ghost predicate Caps(h: Heap, cfg: Config, errorKeys: int) {
    cfg.limits.maxArrayLength >= 0 && cfg.limits.maxProperties >= 0 &&
    forall r :: h(r).ErrorNode? ==> |h(r).fields| + 4 <= errorKeys
  }

  ghost predicate Fits(h: Heap, cfg: Config, errorKeys: int) { Caps(h, cfg, errorKeys) && PlainTypes(h) }

  /** Main theorem on size: on any graph, also a cyclic one, the tree is at most twice as high as
      there are levels left, and as wide as the caps say. */
  lemma {:induction false} OutputIsBounded(h: Heap, cfg: Config, v: Val, seen: set<Ref>, depth: int, errorKeys: int)
    requires Fits(h, cfg, errorKeys) && Ser(h, cfg, v, seen, depth).Done?
    ensures Within(Ser(h, cfg, v, seen, depth).out, 2 * Room(cfg, depth), BoundsOf(cfg, errorKeys))
    decreases Room(cfg, depth), 2, 0
  {
    if v.Obj? && v.ref !in seen && depth < cfg.limits.maxDepth {
      hide PlainTypes, BoundsOf, PlainType, TypeOf;
      TypeIsPlain(h, cfg, v.ref, errorKeys);
      NodeIsBounded(h, cfg, h(v.ref), seen + {v.ref}, depth, errorKeys);
    }
  }

  lemma TypeIsPlain(h: Heap, cfg: Config, r: Ref, errorKeys: int)
    requires Fits(h, cfg, errorKeys)
    ensures PlainType(h, h(r)) && (h(r).ErrorNode? ==> |h(r).fields| + 4 <= errorKeys)
  {
  }

  ghost predicate AllBounded(h: Heap, cfg: Config, errorKeys: int) {
    forall v, seen, depth :: Ser(h, cfg, v, seen, depth).Done? ==>
      Within(Ser(h, cfg, v, seen, depth).out, 2 * Room(cfg, depth), BoundsOf(cfg, errorKeys))
  }

  /** The bound holds of all values of a graph exactly when no record of the graph has an object for
      the name of its constructor. Such an object, itself of any size, is put into the output. */
  lemma {:induction false} BoundedExactlyWithPlainTypes(h: Heap, cfg: Config, errorKeys: int)
    requires Caps(h, cfg, errorKeys) && cfg.limits.maxDepth > 0
    ensures AllBounded(h, cfg, errorKeys) <==> PlainTypes(h)
  {
    if PlainTypes(h) {
      forall v, seen, depth | Ser(h, cfg, v, seen, depth).Done?
        ensures Within(Ser(h, cfg, v, seen, depth).out, 2 * Room(cfg, depth), BoundsOf(cfg, errorKeys))
      {
        OutputIsBounded(h, cfg, v, seen, depth, errorKeys);
      }
    }
    if AllBounded(h, cfg, errorKeys) {
      hide TypeOf;
      forall r ensures PlainType(h, h(r)) {
        if h(r).RecordNode? && TypeOf(h, h(r)).Typed? {
          var result := Ser(h, cfg, Obj(r), {}, 0);
          assert result == SerNode(h, cfg, h(r), {} + {r}, 0);
          assert result.Done? && result.out.fields["__type"] == AsIs(TypeOf(h, h(r)).v);
          assert Within(result.out.fields["__type"], 2 * Room(cfg, 0) - 1, BoundsOf(cfg, errorKeys));
        }
      }
    }
  }

  /** `JSON.parse` can make one: `{"constructor": {"name": {}}}`. */
  lemma ParsedObjectsCanBeUnbounded(cfg: Config, height: int, b: Bounds)
    requires cfg.limits.maxDepth > 0
    ensures
      var result := SerializeLogValue(Parsed(), cfg, Obj(0));
      result.Done? && !Within(result.out, height, b)
  {
    var h := Parsed();
    assert Own(h(1).fields, "name", h(1).named) == Got(Obj(2));
    assert NameOf(h, Obj(1)) == Got(Obj(2));
    assert TypeOf(h, h(0)) == Typed(Obj(2));
    assert SerializeLogValue(h, cfg, Obj(0)) == SerNode(h, cfg, h(0), {} + {0}, 0);
    var fields := SerNode(h, cfg, h(0), {} + {0}, 0).out.fields;
    assert fields["__type"] == Verbatim(Obj(2));
    assert !Within(fields["__type"], height - 1, b);
  }

  function Parsed(): Heap {
    (r: Ref) => ParsedNode(r)
  }

  function ParsedNode(r: Ref): Node {
    if r == 0 then Plainly([Field("constructor", Got(Obj(1)))])
    else if r == 1 then Plainly([Field("name", Got(Obj(2)))])
    else Plainly([])
  }

  lemma {:induction false} NodeIsBounded(h: Heap, cfg: Config, n: Node, seen: set<Ref>, depth: int, errorKeys: int)
    requires Fits(h, cfg, errorKeys) && depth < cfg.limits.maxDepth && SerNode(h, cfg, n, seen, depth).Done?
    requires PlainType(h, n) && (n.ErrorNode? ==> |n.fields| + 4 <= errorKeys)
    ensures Within(SerNode(h, cfg, n, seen, depth).out, 2 * Room(cfg, depth), BoundsOf(cfg, errorKeys))
    decreases Room(cfg, depth), 1, 0
  {
    hide Within, Fits, PlainType, BoundsOf, TypeOf, CauseOf;
    CapsAreCounts(h, cfg, errorKeys);
    var l := cfg.limits;
    var room := 2 * Room(cfg, depth + 1);
    match n
    case TextNode(_) => LeafFits(Text(n.text), 2 * Room(cfg, depth), BoundsOf(cfg, errorKeys));
    case ArrayNode(items) =>
      ItemsAreBounded(h, cfg, Slice(items, l.maxArrayLength), seen, depth + 1, errorKeys);
      ListFits(h, cfg, SerItems(h, cfg, Slice(items, l.maxArrayLength), seen, depth + 1).outs, |items|, room, room + 2,
        errorKeys);
    case SetNode(items) =>
      ItemsAreBounded(h, cfg, Slice(items, l.maxArrayLength), seen, depth + 1, errorKeys);
      ListFits(h, cfg, SerItems(h, cfg, Slice(items, l.maxArrayLength), seen, depth + 1).outs, |items|, room, room + 2,
        errorKeys);
    case MapNode(entries) =>
      EntriesAreBounded(h, cfg, Slice(entries, l.maxArrayLength), seen, depth + 1, errorKeys);
      ListFits(h, cfg, SerEntries(h, cfg, Slice(entries, l.maxArrayLength), seen, depth + 1).outs, |entries|, room + 1,
        room + 2, errorKeys);
    case RecordNode(_, _, _) => RecordIsBounded(h, cfg, n, seen, depth, errorKeys);
    case ErrorNode(_, _, _, _, _) => ErrorIsBounded(h, cfg, n, seen, depth, errorKeys);
  }

  lemma {:induction false} RecordIsBounded(h: Heap, cfg: Config, n: Node, seen: set<Ref>, depth: int, errorKeys: int)
    requires Fits(h, cfg, errorKeys) && depth < cfg.limits.maxDepth && n.RecordNode? && PlainType(h, n) &&
        SerNode(h, cfg, n, seen, depth).Done?
    ensures Within(SerNode(h, cfg, n, seen, depth).out, 2 * Room(cfg, depth), BoundsOf(cfg, errorKeys))
    decreases Room(cfg, depth), 0, 0
  {
    hide Within, Fits, PlainType, BoundsOf, TypeOf, CauseOf;
    CapsAreCounts(h, cfg, errorKeys);
    var kept := Slice(n.fields, cfg.limits.maxProperties);
    var room := 2 * Room(cfg, depth + 1);
    FieldsAreBounded(h, cfg, kept, seen, depth + 1, errorKeys);
    if TypeOf(h, n).Typed? { TypeFits(h, n, room, BoundsOf(cfg, errorKeys)); }
    MarkersFit(SerFields(h, cfg, kept, seen, depth + 1), |n.fields|, TypeOf(h, n), cfg, room, errorKeys);
    RecFits(SerNode(h, cfg, n, seen, depth).out.fields, room, room + 2, BoundsOf(cfg, errorKeys));
  }

  lemma TypeFits(h: Heap, n: Node, height: int, b: Bounds)
    requires n.RecordNode? && PlainType(h, n) && TypeOf(h, n).Typed?
    ensures Within(AsIs(TypeOf(h, n).v), height, b)
  {
    hide TypeOf;
  }

  lemma {:induction false} ErrorIsBounded(h: Heap, cfg: Config, n: Node, seen: set<Ref>, depth: int, errorKeys: int)
    requires Fits(h, cfg, errorKeys) && depth < cfg.limits.maxDepth && SerNode(h, cfg, n, seen, depth).Done?
    requires n.ErrorNode? && |n.fields| + 4 <= errorKeys
    ensures Within(SerNode(h, cfg, n, seen, depth).out, 2 * Room(cfg, depth), BoundsOf(cfg, errorKeys))
    decreases Room(cfg, depth), 0, 0
  {
    hide Within, Fits, PlainType, BoundsOf, TypeOf, CauseOf;
    CapsAreCounts(h, cfg, errorKeys);
    var room := 2 * Room(cfg, depth + 1);
    if CauseOf(n).Got? && !CauseOf(n).v.Undefined? { OutputIsBounded(h, cfg, CauseOf(n).v, seen, depth + 1,
      errorKeys); }
    BaseFits(h, cfg, n, seen, depth + 1, room, errorKeys);
    ErrorFieldsAreBounded(h, cfg, SerCause(h, cfg, n, seen, depth + 1).fields, n.fields, seen, depth + 1, errorKeys);
    ErrFits(SerNode(h, cfg, n, seen, depth).out.fields, room, room + 2, BoundsOf(cfg, errorKeys));
  }

  lemma CapsAreCounts(h: Heap, cfg: Config, errorKeys: int)
    requires Fits(h, cfg, errorKeys)
    ensures cfg.limits.maxArrayLength >= 0 && cfg.limits.maxProperties >= 0
    ensures BoundsOf(cfg, errorKeys) == Bounds(cfg.limits.maxArrayLength + 1, cfg.limits.maxProperties + 2, errorKeys)
  {
  }

  lemma LeafFits(out: Out, height: int, b: Bounds)
    requires !out.List? && !out.Rec? && !out.Err? && !out.Verbatim?
    ensures Within(out, height, b)
  {
  }

  lemma ListFits(h: Heap, cfg: Config, outs: seq<Out>, total: nat, low: int, height: int, errorKeys: int)
    requires Fits(h, cfg, errorKeys) && |outs| <= cfg.limits.maxArrayLength && 0 <= low < height
    requires forall i :: 0 <= i < |outs| ==> Within(outs[i], low, BoundsOf(cfg, errorKeys))
    ensures Within(List(CapCollection(outs, total, cfg.limits.maxArrayLength)), height, BoundsOf(cfg, errorKeys))
  {
    forall i | 0 <= i < |outs| ensures Within(outs[i], height - 1, BoundsOf(cfg, errorKeys)) {
      WithinHigher(outs[i], low, height - 1, BoundsOf(cfg, errorKeys));
    }
  }

  lemma RecFits(fields: map<string, Out>, low: int, height: int, b: Bounds)
    requires |fields| <= b.keys && 0 <= low < height && forall k :: k in fields ==> Within(fields[k], low, b)
    ensures Within(Rec(fields), height, b)
  {
    forall k | k in fields ensures Within(fields[k], height - 1, b) { WithinHigher(fields[k], low, height - 1, b); }
  }

  lemma ErrFits(fields: map<string, Out>, low: int, height: int, b: Bounds)
    requires |fields| <= b.errorKeys && 0 <= low < height && forall k :: k in fields ==> Within(fields[k], low, b)
    ensures Within(Err(fields), height, b)
  {
    forall k | k in fields ensures Within(fields[k], height - 1, b) { WithinHigher(fields[k], low, height - 1, b); }
  }

  lemma MarkersFit(fields: map<string, Out>, total: nat, t: TypeName, cfg: Config, height: int, errorKeys: int)
    requires forall k :: k in fields ==> Within(fields[k], height, BoundsOf(cfg, errorKeys))
    requires t.Typed? ==> Within(AsIs(t.v), height, BoundsOf(cfg, errorKeys))
    ensures
      var marked := WithMarkers(fields, total, t, cfg);
      |marked| <= |fields| + 2 && forall k :: k in marked ==> Within(marked[k], height, BoundsOf(cfg, errorKeys))
  {
  }

  lemma BaseFits(h: Heap, cfg: Config, n: Node, seen: set<Ref>, depth: int, height: int, errorKeys: int)
    requires n.ErrorNode? && SerCause(h, cfg, n, seen, depth).Filled?
    requires CauseOf(n).Got? && !CauseOf(n).v.Undefined? ==>
        Within(Ser(h, cfg, CauseOf(n).v, seen, depth).out, height, BoundsOf(cfg, errorKeys))
    ensures
      var base := SerCause(h, cfg, n, seen, depth).fields;
      |base| <= 4 && forall k :: k in base ==> Within(base[k], height, BoundsOf(cfg, errorKeys))
  {
    hide CauseOf;
    var start := map["name" := Text(n.name), "message" := TruncateString(n.message, cfg.limits.maxStringLength)];
    assert |start| <= 2 && |ErrorBase(cfg, n)| <= 3;
  }

  lemma {:induction false} ItemsAreBounded(h: Heap, cfg: Config, items: seq<Val>, seen: set<Ref>, depth: int,
      errorKeys: int)
    requires Fits(h, cfg, errorKeys) && SerItems(h, cfg, items, seen, depth).All?
    ensures forall i :: 0 <= i < |items| ==>
              Within(SerItems(h, cfg, items, seen, depth).outs[i], 2 * Room(cfg, depth), BoundsOf(cfg, errorKeys))
    decreases Room(cfg, depth), 3, |items|
  {
    if items != [] {
      ItemsAreBounded(h, cfg, items[..|items| - 1], seen, depth, errorKeys);
      OutputIsBounded(h, cfg, items[|items| - 1], seen, depth, errorKeys);
    }
  }

  lemma {:induction false} EntriesAreBounded(h: Heap, cfg: Config, entries: seq<Entry>, seen: set<Ref>, depth: int,
      errorKeys: int)
    requires Fits(h, cfg, errorKeys) && SerEntries(h, cfg, entries, seen, depth).All? &&
        |entries| <= cfg.limits.maxArrayLength
    ensures forall i :: 0 <= i < |entries| ==>
              Within(SerEntries(h, cfg, entries, seen, depth).outs[i], 2 * Room(cfg, depth) + 1,
                BoundsOf(cfg, errorKeys))
    decreases Room(cfg, depth), 3, |entries|
  {
    if entries != [] {
      var e := entries[|entries| - 1];
      EntriesAreBounded(h, cfg, entries[..|entries| - 1], seen, depth, errorKeys);
      OutputIsBounded(h, cfg, e.key, seen, depth, errorKeys);
      if !ShouldRedact(cfg, e.called.text) { OutputIsBounded(h, cfg, e.value, seen, depth, errorKeys); }
    }
  }

  lemma {:induction false} FieldsAreBounded(h: Heap, cfg: Config, fields: seq<Field>, seen: set<Ref>, depth: int,
      errorKeys: int)
    requires Fits(h, cfg, errorKeys)
    ensures
      var out := SerFields(h, cfg, fields, seen, depth);
      |out| <= |fields| && forall k :: k in out ==> Within(out[k], 2 * Room(cfg, depth), BoundsOf(cfg, errorKeys))
    decreases Room(cfg, depth), 3, |fields|
  {
    if fields != [] {
      var f := fields[|fields| - 1];
      FieldsAreBounded(h, cfg, fields[..|fields| - 1], seen, depth, errorKeys);
      if f.reading.Got? && Ser(h, cfg, f.reading.v, seen, depth).Done? {
        OutputIsBounded(h, cfg, f.reading.v, seen, depth, errorKeys); }
    }
  }

  lemma {:induction false} ErrorFieldsAreBounded(
    h: Heap, cfg: Config, base: map<string, Out>, fields: seq<Field>, seen: set<Ref>, depth: int, errorKeys: int)
    requires Fits(h, cfg, errorKeys) && SerErrorFields(h, cfg, base, fields, seen, depth).Filled?
    requires forall k :: k in base ==> Within(base[k], 2 * Room(cfg, depth), BoundsOf(cfg, errorKeys))
    ensures
      var out := SerErrorFields(h, cfg, base, fields, seen, depth).fields;
      |out| <= |base| + |fields| &&
      forall k :: k in out ==> Within(out[k], 2 * Room(cfg, depth), BoundsOf(cfg, errorKeys))
    decreases Room(cfg, depth), 3, |fields|
  {
    if fields != [] {
      var f := fields[|fields| - 1];
      ErrorFieldsAreBounded(h, cfg, base, fields[..|fields| - 1], seen, depth, errorKeys);
      if !ShouldRedact(cfg, f.key) { OutputIsBounded(h, cfg, f.reading.v, seen, depth, errorKeys); }
    }
  }
}
