/** The serializer of `src/base-logger.ts` as it runs: one `seen` set is shared by the whole
    recursion, entered objects are added to it and removed on every way out, also by an exception.
    Each method computes the function of `SerializeSpec` for the set it was called with, and leaves
    that set as it was. */
module Serializer {
  import opened Common
  import opened SerializeSpec

  /** Nothing after the first throw is looked at. */
  lemma {:induction false} ItemsBreak(h: Heap, cfg: Config, items: seq<Val>, i: nat, seen: set<Ref>, depth: int)
    requires i <= |items| && SerItems(h, cfg, items[..i], seen, depth).Broke?
    ensures SerItems(h, cfg, items, seen, depth) == SerItems(h, cfg, items[..i], seen, depth)
    decreases |items|
  {
    if i < |items| {
      assert items[..|items| - 1][..i] == items[..i];
      ItemsBreak(h, cfg, items[..|items| - 1], i, seen, depth);
    } else { assert items[..i] == items; }
  }

  lemma {:induction false} EntriesBreak(h: Heap, cfg: Config, entries: seq<Entry>, i: nat, seen: set<Ref>, depth: int)
    requires i <= |entries| && SerEntries(h, cfg, entries[..i], seen, depth).Broke?
    ensures SerEntries(h, cfg, entries, seen, depth) == SerEntries(h, cfg, entries[..i], seen, depth)
    decreases |entries|
  {
    if i < |entries| {
      assert entries[..|entries| - 1][..i] == entries[..i];
      EntriesBreak(h, cfg, entries[..|entries| - 1], i, seen, depth);
    } else { assert entries[..i] == entries; }
  }

  lemma {:induction false} ErrorFieldsBreak(
    h: Heap, cfg: Config, base: map<string, Out>, fields: seq<Field>, i: nat, seen: set<Ref>, depth: int)
    requires i <= |fields| && SerErrorFields(h, cfg, base, fields[..i], seen, depth).Failed?
    ensures SerErrorFields(h, cfg, base, fields, seen, depth) == SerErrorFields(h, cfg, base, fields[..i], seen, depth)
    decreases |fields|
  {
    if i < |fields| {
      assert fields[..|fields| - 1][..i] == fields[..i];
      ErrorFieldsBreak(h, cfg, base, fields[..|fields| - 1], i, seen, depth);
    } else { assert fields[..i] == fields; }
  }

  class Serialization {
    const graph: Heap
    const cfg: Config
    var seen: set<Ref>

    constructor (graph: Heap, cfg: Config)
      ensures this.graph == graph && this.cfg == cfg && seen == {}
    {
      this.graph, this.cfg, this.seen := graph, cfg, {};
    }

    /** `serialize`. */
    method Serialize(v: Val, depth: int) returns (result: Result)
      modifies this
      ensures seen == old(seen) && result == Ser(graph, cfg, v, old(seen), depth)
      decreases Room(cfg, depth), 2
    {
      match v
      case Str(s) => return Done(TruncateString(s, cfg.limits.maxStringLength));
      case Plain(p) => return Done(Raw(p));
      case Undefined => return Done(Text("[undefined]"));
      case Told(text) => return Done(Text(text));
      case Fun(text, _) => return Done(Text(text));
      case Obj(r) =>
        if r in seen { return Done(Circular); }
        if depth >= cfg.limits.maxDepth { return Done(Deep(cfg.limits.maxDepth)); }
        seen := seen + {r};
        result := SerializeNode(graph(r), depth);
        seen := seen - {r};
        assert seen == old(seen);
    }

    /** The body of the `try` block. */
    method SerializeNode(n: Node, depth: int) returns (result: Result)
      requires depth < cfg.limits.maxDepth
      modifies this
      ensures seen == old(seen) && result == SerNode(graph, cfg, n, old(seen), depth)
      decreases Room(cfg, depth), 1
    {
      match n
      case TextNode(text) => result := Done(Text(text));
      case ArrayNode(items) => result := SerializeItems(items, depth + 1);
      case SetNode(items) => result := SerializeItems(items, depth + 1);
      case MapNode(entries) => result := SerializeEntries(entries, depth + 1);
      case RecordNode(_, _, _) => result := SerializeRecord(n, depth + 1);
      case ErrorNode(_, _, _, _, _) => result := SerializeError(n, depth + 1);
    }

    method SerializeItems(items: seq<Val>, depth: int) returns (result: Result)
      modifies this
      ensures seen == old(seen)
      ensures result == Listed(SerItems(graph, cfg, Slice(items, cfg.limits.maxArrayLength), seen, depth), |items|, cfg)
      decreases Room(cfg, depth), 3
    {
      var kept := Slice(items, cfg.limits.maxArrayLength);
      var outs: seq<Out> := [];
      for i := 0 to |kept|
        invariant seen == old(seen) && SerItems(graph, cfg, kept[..i], seen, depth) == All(outs)
      {
        assert kept[..i + 1][..i] == kept[..i];
        var item := Serialize(kept[i], depth);
        if item.Threw? {
          ItemsBreak(graph, cfg, kept, i + 1, seen, depth);
          return item;
        }
        outs := outs + [item.out];
      }
      assert kept[..|kept|] == kept;
      return Done(List(CapCollection(outs, |items|, cfg.limits.maxArrayLength)));
    }

    method SerializeEntries(entries: seq<Entry>, depth: int) returns (result: Result)
      modifies this
      ensures seen == old(seen)
      ensures result == Listed(SerEntries(graph, cfg, Slice(entries, cfg.limits.maxArrayLength), seen, depth),
          |entries|, cfg)
      decreases Room(cfg, depth), 4
    {
      var kept := Slice(entries, cfg.limits.maxArrayLength);
      var outs: seq<Out> := [];
      for i := 0 to |kept|
        invariant seen == old(seen) && SerEntries(graph, cfg, kept[..i], seen, depth) == All(outs)
      {
        assert kept[..i + 1][..i] == kept[..i];
        var pair := SerializeEntry(kept[i], depth);
        if pair.Threw? {
          EntriesBreak(graph, cfg, kept, i + 1, seen, depth);
          return pair;
        }
        outs := outs + [pair.out];
      }
      assert kept[..|kept|] == kept;
      return Done(List(CapCollection(outs, |entries|, cfg.limits.maxArrayLength)));
    }

    method SerializeEntry(e: Entry, depth: int) returns (result: Result)
      modifies this
      ensures seen == old(seen) && result == SerEntry(graph, cfg, e, seen, depth)
      decreases Room(cfg, depth), 3
    {
      var key := Serialize(e.key, depth);
      if key.Threw? { return key; }
      if e.called.NoLabel? { return Threw(e.called.message); }
      if ShouldRedact(cfg, e.called.text) { return Done(List([key.out, Redacted])); }
      var value := Serialize(e.value, depth);
      return if value.Threw? then value else Done(List([key.out, value.out]));
    }

    /** The `for` loop over the keys of a record; a throw is caught per key. One of reading the type
        name is not. */
    method SerializeRecord(n: Node, depth: int) returns (result: Result)
      requires n.RecordNode?
      modifies this
      ensures seen == old(seen)
      ensures
        var fields, t := SerFields(graph, cfg, Slice(n.fields, cfg.limits.maxProperties), seen, depth),
          TypeOf(graph, n);
        result == if t.NoType? then Threw(t.message) else Done(Rec(WithMarkers(fields, |n.fields|, t, cfg)))
      decreases Room(cfg, depth), 3
    {
      var kept := Slice(n.fields, cfg.limits.maxProperties);
      var fields: map<string, Out> := map[];
      for i := 0 to |kept|
        invariant seen == old(seen) && SerFields(graph, cfg, kept[..i], seen, depth) == fields
      {
        assert kept[..i + 1][..i] == kept[..i];
        var key := kept[i].key;
        if ShouldRedact(cfg, key) {
          fields := Put(fields, key, Redacted);
        } else if kept[i].reading.Raised? {
          fields := Put(fields, key, Unserializable(kept[i].reading.message));
        } else {
          var value := Serialize(kept[i].reading.v, depth);
          fields := Put(fields, key, if value.Threw? then Unserializable(value.message) else value.out);
        }
      }
      assert kept[..|kept|] == kept;
      if |n.fields| > cfg.limits.maxProperties {
        fields := fields["__truncatedKeys" := Count(|n.fields| - cfg.limits.maxProperties)];
      }
      var maker := Own(n.fields, "constructor", n.maker);
      if maker.Raised? { return Threw(maker.message); }
      var name := NameOf(graph, maker.v);
      if name.Raised? { return Threw(name.message); }
      if Truthy(name.v) && name.v != Str("Object") { fields := fields["__type" := AsIs(name.v)]; }
      return Done(Rec(fields));
    }

    /** `serializeError`. */
    method SerializeError(n: Node, depth: int) returns (result: Result)
      requires n.ErrorNode?
      modifies this
      ensures seen == old(seen)
      ensures
        var base := SerCause(graph, cfg, n, seen, depth);
        if base.Failed? then result == Threw(base.message)
        else
          var all := SerErrorFields(graph, cfg, base.fields, n.fields, seen, depth);
          result == if all.Failed? then Threw(all.message) else Done(Err(all.fields))
      decreases Room(cfg, depth), 3
    {
      var fields := ErrorBase(cfg, n);
      if CauseOf(n).Raised? { return Threw(CauseOf(n).message); }
      if !CauseOf(n).v.Undefined? {
        var cause := Serialize(CauseOf(n).v, depth);
        if cause.Threw? { return cause; }
        fields := fields["cause" := cause.out];
      }
      ghost var base := fields;
      for i := 0 to |n.fields|
        invariant seen == old(seen) && SerErrorFields(graph, cfg, base, n.fields[..i], seen, depth) == Filled(fields)
      {
        assert n.fields[..i + 1][..i] == n.fields[..i];
        var key := n.fields[i].key;
        if ShouldRedact(cfg, key) {
          fields := Put(fields, key, Redacted);
        } else {
          var value: Result;
          if n.fields[i].reading.Raised? {
            value := Threw(n.fields[i].reading.message);
          } else {
            value := Serialize(n.fields[i].reading.v, depth);
          }
          if value.Threw? {
            ErrorFieldsBreak(graph, cfg, base, n.fields, i + 1, seen, depth);
            return value;
          }
          fields := Put(fields, key, value.out);
        }
      }
      assert n.fields[..|n.fields|] == n.fields;
      return Done(Err(fields));
    }
  }

  /** `serializeLogValue` and `serializeLogValueRedacted`. */
  method SerializeValue(graph: Heap, cfg: Config, v: Val) returns (result: Result)
    ensures result == SerializeLogValue(graph, cfg, v)
  {
    var run := new Serialization(graph, cfg);
    result := run.Serialize(v, 0);
  }
}
