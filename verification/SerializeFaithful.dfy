/** What the output of the serializer shows at each position, told by walking through the source
    graph: `[Circular]` is about the way to a position, never about what was visited elsewhere. */
module SerializeFaithful {
  import opened Common
  import opened SerializeSpec
  import opened SerializeNodes

  /** One step into an object. */
  datatype Step = Item(i: nat) | KeyAt(i: nat) | ValueAt(i: nat) | FieldAt(i: nat) | Cause

  /** What a step finds, unless the output leaves it out: beyond a cap, redacted, overwritten by a
      marker or by a property of the same name, or not an own key of the output. */
  function Child(h: Heap, cfg: Config, n: Node, step: Step): Option<Val> {
    match step
    case Item(i) =>
      if (n.ArrayNode? || n.SetNode?) && i < |Slice(n.items, cfg.limits.maxArrayLength)| then Some(n.items[i]) else None
    case KeyAt(i) =>
      if n.MapNode? && i < |Slice(n.entries, cfg.limits.maxArrayLength)| then Some(n.entries[i].key) else None
    case ValueAt(i) =>
      if n.MapNode? && i < |Slice(n.entries, cfg.limits.maxArrayLength)| && n.entries[i].called.Label? &&
         !ShouldRedact(cfg, n.entries[i].called.text) then Some(n.entries[i].value) else None
    case FieldAt(i) =>
      if n.RecordNode? && i < |Slice(n.fields, cfg.limits.maxProperties)| && !IsMarker(h, cfg, n, n.fields[i].key) then
        ShownValue(cfg, n.fields[i])
      else if n.ErrorNode? && i < |n.fields| then ShownValue(cfg, n.fields[i])
      else None
    case Cause =>
      if n.ErrorNode? && CauseOf(n).Got? && !CauseOf(n).v.Undefined? && !HasKey(n.fields, "cause") then
        Some(CauseOf(n).v)
      else None
  }

  function ShownValue(cfg: Config, f: Field): Option<Val> {
    if f.reading.Got? && !ShouldRedact(cfg, f.key) && f.key != "__proto__" then Some(f.reading.v) else None
  }

  /** Where the output of a node shows what the step finds. */
  function Piece(n: Node, out: Out, step: Step): Option<Out> {
    match step
    case Item(i) => if out.List? && i < |out.items| then Some(out.items[i]) else None
    case KeyAt(i) => if out.List? && i < |out.items| then Half(out.items[i], 0) else None
    case ValueAt(i) => if out.List? && i < |out.items| then Half(out.items[i], 1) else None
    case FieldAt(i) =>
      if (n.RecordNode? || n.ErrorNode?) && i < |n.fields| && (out.Rec? || out.Err?) &&
         n.fields[i].key in out.fields then
        Some(out.fields[n.fields[i].key])
      else None
    case Cause => if out.Err? && "cause" in out.fields then Some(out.fields["cause"]) else None
  }

  function Half(pair: Out, i: nat): Option<Out> {
    if pair.List? && i < |pair.items| then Some(pair.items[i]) else None
  }

  predicate IsMarker(h: Heap, cfg: Config, n: Node, key: string)
    requires n.RecordNode?
  {
    (key == "__truncatedKeys" && |n.fields| > cfg.limits.maxProperties) || (key == "__type" && TypeOf(h, n).Typed?)
  }

  // ---------------------------------------------------------------- one step

  /** A record is written exactly when its type name can be read. Then each property within the cap
      is written on its own, whatever its siblings do. */
  lemma RecordShown(h: Heap, cfg: Config, n: Node, seen: set<Ref>, depth: int)
    requires n.RecordNode? && DistinctKeys(n.fields) && depth < cfg.limits.maxDepth
    ensures
      var result := SerNode(h, cfg, n, seen, depth);
      (result.Done? <==> !TypeOf(h, n).NoType?) &&
      (result.Done? ==>
         result.out.Rec? &&
         forall i :: 0 <= i < |Slice(n.fields, cfg.limits.maxProperties)| && Written(h, cfg, n, i) ==>
           n.fields[i].key in result.out.fields &&
           result.out.fields[n.fields[i].key] == SerField(h, cfg, n.fields[i], seen, depth + 1))
  {
    hide ShouldRedact, TypeOf;
    var result, kept := SerNode(h, cfg, n, seen, depth), Slice(n.fields, cfg.limits.maxProperties);
    if result.Done? {
      forall i | 0 <= i < |kept| && Written(h, cfg, n, i)
        ensures n.fields[i].key in result.out.fields &&
            result.out.fields[n.fields[i].key] == SerField(h, cfg, n.fields[i], seen, depth + 1)
      {
        FieldShown(h, cfg, kept, seen, depth + 1, i);
      }
    }
  }

  /** Not `__proto__`, and not overwritten. */
  predicate Written(h: Heap, cfg: Config, n: Node, i: nat)
    requires n.RecordNode? && i < |n.fields|
  {
    n.fields[i].key != "__proto__" && !IsMarker(h, cfg, n, n.fields[i].key)
  }

  /** One step in the source is one step in the output. */
  lemma StepShown(h: Heap, cfg: Config, n: Node, seen: set<Ref>, depth: int, step: Step)
    requires AllQuiet(h, cfg) && Keyed(n) && depth < cfg.limits.maxDepth && Child(h, cfg, n, step).Some?
    requires SerNode(h, cfg, n, seen, depth).Done?
    ensures
      var child := Ser(h, cfg, Child(h, cfg, n, step).value, seen, depth + 1);
      child.Done? && Piece(n, SerNode(h, cfg, n, seen, depth).out, step) == Some(child.out)
  {
    hide ShouldRedact, AllQuiet, TypeOf, CauseOf;
    var kept := cfg.limits.maxArrayLength;
    NeverThrows(h, cfg, Child(h, cfg, n, step).value, seen, depth + 1);
    match step
    case Item(i) => ItemShown(h, cfg, Slice(n.items, kept), seen, depth + 1, i);
    case KeyAt(i) => EntryShown(h, cfg, Slice(n.entries, kept), seen, depth + 1, i);
    case ValueAt(i) => EntryShown(h, cfg, Slice(n.entries, kept), seen, depth + 1, i);
    case FieldAt(i) =>
      if n.RecordNode? {
        FieldShown(h, cfg, Slice(n.fields, cfg.limits.maxProperties), seen, depth + 1, i);
      } else {
        ErrorFieldShown(h, cfg, SerCause(h, cfg, n, seen, depth + 1).fields, n.fields, seen, depth + 1, i);
      }
    case Cause => BaseKept(h, cfg, SerCause(h, cfg, n, seen, depth + 1).fields, n.fields, seen, depth + 1, "cause");
  }

  // ---------------------------------------------------------------- any number of steps

  /** The objects entered on the way, and what is found. */
  datatype Trail = Lost | Trail(objects: seq<Ref>, last: Val)

  function Follow(h: Heap, cfg: Config, v: Val, steps: seq<Step>): Trail
    decreases |steps|
  {
    if steps == [] then Trail([], v)
    else if !v.Obj? || Child(h, cfg, h(v.ref), steps[0]).None? then Lost
    else
      match Follow(h, cfg, Child(h, cfg, h(v.ref), steps[0]).value, steps[1..])
      case Lost => Lost
      case Trail(objects, last) => Trail([v.ref] + objects, last)
  }

  function At(h: Heap, cfg: Config, v: Val, out: Out, steps: seq<Step>): Option<Out>
    decreases |steps|
  {
    if steps == [] then Some(out)
    else if !v.Obj? || Child(h, cfg, h(v.ref), steps[0]).None? || Piece(h(v.ref), out, steps[0]).None? then None
    else At(h, cfg, Child(h, cfg, h(v.ref), steps[0]).value, Piece(h(v.ref), out, steps[0]).value, steps[1..])
  }

  ghost predicate NoRepeat(objects: seq<Ref>) {
    forall i, j :: 0 <= i < j < |objects| ==> objects[i] != objects[j]
  }

  ghost predicate Avoids(objects: seq<Ref>, seen: set<Ref>) {
    forall i :: 0 <= i < |objects| ==> objects[i] !in seen
  }

  lemma {:induction false} WaysAreShown(h: Heap, cfg: Config, v: Val, seen: set<Ref>, depth: int, steps: seq<Step>)
    requires AllQuiet(h, cfg) && AllKeyed(h) && Follow(h, cfg, v, steps).Trail? &&
        depth + |steps| <= cfg.limits.maxDepth
    requires NoRepeat(Follow(h, cfg, v, steps).objects) && Avoids(Follow(h, cfg, v, steps).objects, seen)
    ensures
      var way := Follow(h, cfg, v, steps);
      var here := Ser(h, cfg, v, seen, depth);
      var there := Ser(h, cfg, way.last, seen + (set r | r in way.objects), depth + |steps|);
      here.Done? && there.Done? && At(h, cfg, v, here.out, steps) == Some(there.out)
    decreases |steps|
  {
    hide ShouldRedact, Child, Piece, AllQuiet, Quiet, AllKeyed, Keyed, NoRepeat, Avoids;
    NeverThrows(h, cfg, v, seen, depth);
    if steps == [] {
      assert seen + (set r | r in Follow(h, cfg, v, steps).objects) == seen;
    } else {
      var r := v.ref;
      var child := Child(h, cfg, h(r), steps[0]).value;
      var rest := Follow(h, cfg, child, steps[1..]);
      TailAvoids(r, rest.objects, seen);
      KeyedAt(h, r);
      StepShown(h, cfg, h(r), seen + {r}, depth, steps[0]);
      WaysAreShown(h, cfg, child, seen + {r}, depth + 1, steps[1..]);
    }
  }

  lemma KeyedAt(h: Heap, r: Ref)
    requires AllKeyed(h)
    ensures Keyed(h(r))
  {
  }

  lemma TailAvoids(r: Ref, rest: seq<Ref>, seen: set<Ref>)
    requires NoRepeat([r] + rest) && Avoids([r] + rest, seen)
    ensures r !in seen && NoRepeat(rest) && Avoids(rest, seen + {r})
    ensures seen + {r} + (set x | x in rest) == seen + (set x | x in [r] + rest)
  {
    var objects := [r] + rest;
    assert objects[0] == r;
    assert forall i :: 0 <= i < |rest| ==> objects[i + 1] == rest[i];
    forall i | 0 <= i < |rest| ensures rest[i] !in seen + {r} { assert objects[i + 1] == rest[i]; }
    forall i, j | 0 <= i < j < |rest| ensures rest[i] != rest[j] {
      assert objects[i + 1] == rest[i] && objects[j + 1] == rest[j];
    }
  }

  /** The size and kind of what is written for a node. */
  ghost predicate Portrait(h: Heap, cfg: Config, n: Node, out: Out) {
    match n
    case TextNode(text) => out == Text(text)
    case ArrayNode(items) => out.List? && Whole(cfg, out.items, |items|)
    case SetNode(items) => out.List? && Whole(cfg, out.items, |items|)
    case MapNode(entries) => out.List? && Whole(cfg, out.items, |entries|)
    case RecordNode(fields, _, _) =>
      out.Rec? &&
      (forall key :: key in out.fields <==>
        OwnKey(Slice(fields, cfg.limits.maxProperties), key) || IsMarker(h, cfg, n, key)) &&
      (TypeOf(h, n).Typed? ==> out.fields["__type"] == AsIs(TypeOf(h, n).v))
    case ErrorNode(_, _, stack, _, fields) =>
      out.Err? && forall key :: key in out.fields <==>
        OwnKey(fields, key) || key == "name" || key == "message" || (key == "stack" && stack != "") ||
        (key == "cause" && CauseOf(n) != Got(Undefined))
  }

  /** All items, or as many as the cap allows and a marker that counts the others. */
  ghost predicate Whole(cfg: Config, outs: seq<Out>, total: nat) {
    var cap := cfg.limits.maxArrayLength;
    if total <= cap then |outs| == total
    else cap >= 0 ==> |outs| == cap + 1 && outs[cap] == More(total - cap, total)
  }

  lemma NodePortrait(h: Heap, cfg: Config, n: Node, seen: set<Ref>, depth: int)
    requires depth < cfg.limits.maxDepth && SerNode(h, cfg, n, seen, depth).Done?
    ensures Portrait(h, cfg, n, SerNode(h, cfg, n, seen, depth).out)
  {
    hide ShouldRedact, HasKey, OwnKey, TypeOf, CauseOf;
    match n
    case RecordNode(fields, _, _) =>
      forall key { FieldKeys(h, cfg, Slice(fields, cfg.limits.maxProperties), seen, depth + 1, key); }
    case ErrorNode(_, _, stack, _, fields) =>
      forall key
        ensures key in SerNode(h, cfg, n, seen, depth).out.fields <==>
          OwnKey(fields, key) || key == "name" || key == "message" || (key == "stack" && stack != "") ||
          (key == "cause" && CauseOf(n) != Got(Undefined))
      {
        ErrorKeys(h, cfg, SerCause(h, cfg, n, seen, depth + 1).fields, fields, seen, depth + 1, key);
        BaseKeys(h, cfg, n, seen, depth + 1, key);
      }
    case _ =>
  }

  /** Main theorem on content. Follow any steps from the value, through objects that do not repeat
      and not deeper than the limit. The output then has at the same place: the circular marker
      exactly if the object found is one of those entered on the way there, the depth marker exactly
      if otherwise the limit is reached, and else the object in full, up to the caps. An object met
      on another branch makes no difference. */
  lemma {:induction false} PositionsShowWhatIsThere(h: Heap, cfg: Config, v: Val, steps: seq<Step>)
    requires AllQuiet(h, cfg) && AllKeyed(h) && Follow(h, cfg, v, steps).Trail? && |steps| <= cfg.limits.maxDepth
    requires NoRepeat(Follow(h, cfg, v, steps).objects)
    ensures
      var way := Follow(h, cfg, v, steps);
      var whole := SerializeLogValue(h, cfg, v);
      whole.Done? && At(h, cfg, v, whole.out, steps).Some? &&
      var shown := At(h, cfg, v, whole.out, steps).value;
      (shown == Circular <==> way.last.Obj? && way.last.ref in way.objects) &&
      (shown.Deep? <==> way.last.Obj? && way.last.ref !in way.objects && |steps| == cfg.limits.maxDepth) &&
      (way.last.Obj? ==> shown == Circular || shown.Deep? || Portrait(h, cfg, h(way.last.ref), shown)) &&
      (way.last.Str? ==> shown == TruncateString(way.last.s, cfg.limits.maxStringLength)) &&
      (way.last.Plain? ==> shown == Raw(way.last.p)) &&
      (way.last.Undefined? ==> shown == Text("[undefined]")) &&
      (way.last.Told? || way.last.Fun? ==> shown == Text(way.last.text))
  {
    hide AllQuiet, AllKeyed, ShouldRedact, Portrait, Child, Piece, NoRepeat;
    WaysAreShown(h, cfg, v, {}, 0, steps);
    var way := Follow(h, cfg, v, steps);
    var seen := {} + (set r | r in way.objects);
    if way.last.Obj? && way.last.ref !in seen && |steps| < cfg.limits.maxDepth {
      NodePortrait(h, cfg, h(way.last.ref), seen + {way.last.ref}, |steps|);
      PortraitIsNoMarker(h, cfg, h(way.last.ref), SerNode(h, cfg, h(way.last.ref), seen + {way.last.ref}, |steps|).out);
    }
  }

  lemma PortraitIsNoMarker(h: Heap, cfg: Config, n: Node, out: Out)
    requires Portrait(h, cfg, n, out)
    ensures !out.Circular? && !out.Deep?
  {
  }
}
