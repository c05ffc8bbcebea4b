/** What the serializer of `src/base-logger.ts` writes for a single node: the keys, the items and
    properties one by one, and when it throws instead. */
module SerializeNodes {
  import opened Common
  import opened SerializeSpec

  // ---------------------------------------------------------------- keys, items and properties

  predicate HasKey(fields: seq<Field>, key: string) {
    exists i :: 0 <= i < |fields| && fields[i].key == key
  }

  predicate OwnKey(fields: seq<Field>, key: string) { key != "__proto__" && HasKey(fields, key) }

  /** Own keys are distinct. */
  ghost predicate DistinctKeys(fields: seq<Field>) {
    forall i, j :: 0 <= i < j < |fields| ==> fields[i].key != fields[j].key
  }

  ghost predicate Keyed(n: Node) { n.ErrorNode? || n.RecordNode? ==> DistinctKeys(n.fields) }

  ghost predicate AllKeyed(h: Heap) {
    forall r :: Keyed(h(r))
  }

  lemma LastKey(fields: seq<Field>, key: string)
    requires fields != []
    ensures HasKey(fields, key) <==> HasKey(fields[..|fields| - 1], key) || fields[|fields| - 1].key == key
  {
    var init := fields[..|fields| - 1];
    if HasKey(init, key) {
      var i :| 0 <= i < |init| && init[i].key == key;
      assert fields[i].key == key;
    }
    if HasKey(fields, key) && fields[|fields| - 1].key != key {
      var i :| 0 <= i < |fields| && fields[i].key == key;
      assert init[i].key == key;
    }
  }

  lemma NoKey(key: string)
    ensures !HasKey([], key)
  {
  }

  lemma {:induction false} FieldKeys(h: Heap, cfg: Config, fields: seq<Field>, seen: set<Ref>, depth: int, key: string)
    ensures key in SerFields(h, cfg, fields, seen, depth) <==> OwnKey(fields, key)
    decreases |fields|
  {
    hide ShouldRedact;
    if fields != [] {
      FieldKeys(h, cfg, fields[..|fields| - 1], seen, depth, key);
      LastKey(fields, key);
    }
  }

  lemma {:induction false} ErrorKeys(
    h: Heap, cfg: Config, base: map<string, Out>, fields: seq<Field>, seen: set<Ref>, depth: int, key: string)
    requires SerErrorFields(h, cfg, base, fields, seen, depth).Filled?
    ensures key in SerErrorFields(h, cfg, base, fields, seen, depth).fields <==> key in base || OwnKey(fields, key)
    decreases |fields|
  {
    hide ShouldRedact, HasKey;
    if fields != [] {
      ErrorKeys(h, cfg, base, fields[..|fields| - 1], seen, depth, key);
      LastKey(fields, key);
    } else { NoKey(key); }
  }

  lemma BaseKeys(h: Heap, cfg: Config, n: Node, seen: set<Ref>, depth: int, key: string)
    requires n.ErrorNode? && SerCause(h, cfg, n, seen, depth).Filled?
    ensures key in SerCause(h, cfg, n, seen, depth).fields <==>
      key == "name" || key == "message" || (key == "stack" && n.stack != "") ||
      (key == "cause" && CauseOf(n) != Got(Undefined))
  {
    hide CauseOf;
  }

  lemma {:induction false} ItemShown(h: Heap, cfg: Config, items: seq<Val>, seen: set<Ref>, depth: int, i: nat)
    requires SerItems(h, cfg, items, seen, depth).All? && i < |items|
    ensures Ser(h, cfg, items[i], seen, depth) == Done(SerItems(h, cfg, items, seen, depth).outs[i])
    decreases |items|
  {
    if i < |items| - 1 { ItemShown(h, cfg, items[..|items| - 1], seen, depth, i); }
  }

  lemma {:induction false} EntryShown(h: Heap, cfg: Config, entries: seq<Entry>, seen: set<Ref>, depth: int, i: nat)
    requires SerEntries(h, cfg, entries, seen, depth).All? && i < |entries|
    ensures SerEntry(h, cfg, entries[i], seen, depth) == Done(SerEntries(h, cfg, entries, seen, depth).outs[i])
    decreases |entries|
  {
    if i < |entries| - 1 { EntryShown(h, cfg, entries[..|entries| - 1], seen, depth, i); }
  }

  lemma {:induction false} FieldShown(h: Heap, cfg: Config, fields: seq<Field>, seen: set<Ref>, depth: int, i: nat)
    requires DistinctKeys(fields) && i < |fields| && fields[i].key != "__proto__"
    ensures
      var out := SerFields(h, cfg, fields, seen, depth);
      fields[i].key in out && out[fields[i].key] == SerField(h, cfg, fields[i], seen, depth)
    decreases |fields|
  {
    if i < |fields| - 1 { FieldShown(h, cfg, fields[..|fields| - 1], seen, depth, i); }
  }

  lemma {:induction false} ErrorFieldShown(
    h: Heap, cfg: Config, base: map<string, Out>, fields: seq<Field>, seen: set<Ref>, depth: int, i: nat)
    requires DistinctKeys(fields) && i < |fields| && fields[i].key != "__proto__"
    requires SerErrorFields(h, cfg, base, fields, seen, depth).Filled?
    ensures
      var out := SerErrorFields(h, cfg, base, fields, seen, depth).fields;
      fields[i].key in out &&
      (ShouldRedact(cfg, fields[i].key) ==> out[fields[i].key] == Redacted) &&
      (!ShouldRedact(cfg, fields[i].key) ==>
         fields[i].reading.Got? && Ser(h, cfg, fields[i].reading.v, seen, depth) == Done(out[fields[i].key]))
    decreases |fields|
  {
    hide ShouldRedact;
    if i < |fields| - 1 { ErrorFieldShown(h, cfg, base, fields[..|fields| - 1], seen, depth, i); }
  }

  lemma {:induction false} BaseKept(
    h: Heap, cfg: Config, base: map<string, Out>, fields: seq<Field>, seen: set<Ref>, depth: int, key: string)
    requires key in base && !HasKey(fields, key) && SerErrorFields(h, cfg, base, fields, seen, depth).Filled?
    ensures
      var out := SerErrorFields(h, cfg, base, fields, seen, depth).fields;
      key in out && out[key] == base[key]
    decreases |fields|
  {
    hide ShouldRedact;
    if fields != [] {
      var init := fields[..|fields| - 1];
      LastKey(fields, key);
      BaseKept(h, cfg, base, init, seen, depth, key);
    }
  }

  // ---------------------------------------------------------------- exceptions

  /** Writing the node throws nothing of its own: no `toString` of a map key that is written, no
      getter of an error that is not redacted, and not the reading of a record's type name. Other
      getters of a record may throw. */
  ghost predicate Quiet(h: Heap, cfg: Config, n: Node) {
    match n
    case MapNode(entries) => forall i ::
      0 <= i < |Slice(entries, cfg.limits.maxArrayLength)| ==> entries[i].called.Label?
    case RecordNode(_, _, _) => !TypeOf(h, n).NoType?
    case ErrorNode(_, _, _, _, fields) =>
      CauseOf(n).Got? && forall i :: 0 <= i < |fields| ==> ShouldRedact(cfg, fields[i].key) || fields[i].reading.Got?
    case _ => true
  }

  ghost predicate AllQuiet(h: Heap, cfg: Config) {
    forall r :: Quiet(h, cfg, h(r))
  }

  lemma {:induction false} NeverThrows(h: Heap, cfg: Config, v: Val, seen: set<Ref>, depth: int)
    requires AllQuiet(h, cfg)
    ensures Ser(h, cfg, v, seen, depth).Done?
    decreases Room(cfg, depth), 2, 0
  {
    if v.Obj? && v.ref !in seen && depth < cfg.limits.maxDepth {
      var n, inside := h(v.ref), seen + {v.ref};
      QuietAt(h, cfg, v.ref);
      hide AllQuiet, TypeOf, CauseOf, ShouldRedact;
      match n
      case ArrayNode(items) => ItemsNeverThrow(h, cfg, Slice(items, cfg.limits.maxArrayLength), inside, depth + 1);
      case SetNode(items) => ItemsNeverThrow(h, cfg, Slice(items, cfg.limits.maxArrayLength), inside, depth + 1);
      case MapNode(entries) => EntriesNeverThrow(h, cfg, Slice(entries, cfg.limits.maxArrayLength), inside, depth + 1);
      case ErrorNode(_, _, _, _, fields) =>
        NeverThrows(h, cfg, CauseOf(n).v, inside, depth + 1);
        ErrorFieldsNeverThrow(h, cfg, SerCause(h, cfg, n, inside, depth + 1).fields, fields, inside, depth + 1);
      case _ =>
    }
  }

  lemma QuietAt(h: Heap, cfg: Config, r: Ref)
    requires AllQuiet(h, cfg)
    ensures Quiet(h, cfg, h(r))
  {
  }

  lemma {:induction false} ItemsNeverThrow(h: Heap, cfg: Config, items: seq<Val>, seen: set<Ref>, depth: int)
    requires AllQuiet(h, cfg)
    ensures SerItems(h, cfg, items, seen, depth).All?
    decreases Room(cfg, depth), 3, |items|
  {
    if items != [] {
      ItemsNeverThrow(h, cfg, items[..|items| - 1], seen, depth);
      NeverThrows(h, cfg, items[|items| - 1], seen, depth);
    }
  }

  lemma {:induction false} EntriesNeverThrow(h: Heap, cfg: Config, entries: seq<Entry>, seen: set<Ref>, depth: int)
    requires AllQuiet(h, cfg) && forall i :: 0 <= i < |entries| ==> entries[i].called.Label?
    ensures SerEntries(h, cfg, entries, seen, depth).All?
    decreases Room(cfg, depth), 3, |entries|
  {
    if entries != [] {
      EntriesNeverThrow(h, cfg, entries[..|entries| - 1], seen, depth);
      NeverThrows(h, cfg, entries[|entries| - 1].key, seen, depth);
      NeverThrows(h, cfg, entries[|entries| - 1].value, seen, depth);
    }
  }

  lemma {:induction false} ErrorFieldsNeverThrow(
    h: Heap, cfg: Config, base: map<string, Out>, fields: seq<Field>, seen: set<Ref>, depth: int)
    requires AllQuiet(h, cfg) &&
        forall i :: 0 <= i < |fields| ==> ShouldRedact(cfg, fields[i].key) || fields[i].reading.Got?
    ensures SerErrorFields(h, cfg, base, fields, seen, depth).Filled?
    decreases Room(cfg, depth), 3, |fields|
  {
    if fields != [] {
      ErrorFieldsNeverThrow(h, cfg, base, fields[..|fields| - 1], seen, depth);
      if !ShouldRedact(cfg, fields[|fields| - 1].key) {
        NeverThrows(h, cfg, fields[|fields| - 1].reading.v, seen, depth); }
    }
  }

  ghost predicate AllDone(h: Heap, cfg: Config) {
    forall v, seen, depth :: Ser(h, cfg, v, seen, depth).Done?
  }

  /** Main theorem on exceptions: no call throws, on any value of a graph, exactly when every object
      of the graph is quiet. */
  lemma {:induction false} ThrowsOnlyWhenLoud(h: Heap, cfg: Config)
    requires cfg.limits.maxDepth > 0
    ensures AllDone(h, cfg) <==> AllQuiet(h, cfg)
  {
    if AllQuiet(h, cfg) {
      forall v, seen, depth ensures Ser(h, cfg, v, seen, depth).Done? { NeverThrows(h, cfg, v, seen, depth); }
    }
    if AllDone(h, cfg) {
      forall r ensures Quiet(h, cfg, h(r)) {
        assert Ser(h, cfg, Obj(r), {}, 0).Done?;
        DoneIsQuiet(h, cfg, h(r), {} + {r}, 0);
      }
    }
  }

  lemma DoneIsQuiet(h: Heap, cfg: Config, n: Node, seen: set<Ref>, depth: int)
    requires depth < cfg.limits.maxDepth && SerNode(h, cfg, n, seen, depth).Done?
    ensures Quiet(h, cfg, n)
  {
    hide ShouldRedact, TypeOf, CauseOf;
    match n
    case MapNode(entries) =>
      var kept := Slice(entries, cfg.limits.maxArrayLength);
      forall i | 0 <= i < |kept| ensures entries[i].called.Label? { EntryShown(h, cfg, kept, seen, depth + 1, i); }
    case ErrorNode(_, _, _, _, fields) => FilledIsRead(h, cfg, SerCause(h, cfg, n, seen, depth + 1).fields, fields,
      seen, depth + 1);
    case _ =>
  }

  lemma {:induction false} FilledIsRead(
    h: Heap, cfg: Config, base: map<string, Out>, fields: seq<Field>, seen: set<Ref>, depth: int)
    requires SerErrorFields(h, cfg, base, fields, seen, depth).Filled?
    ensures forall i :: 0 <= i < |fields| ==> ShouldRedact(cfg, fields[i].key) || fields[i].reading.Got?
    decreases |fields|
  {
    hide ShouldRedact;
    if fields != [] { FilledIsRead(h, cfg, base, fields[..|fields| - 1], seen, depth); }
  }
}
