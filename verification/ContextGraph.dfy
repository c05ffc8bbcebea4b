/** The object graphs that `src/context-shared.ts` snapshots, with explicit references so that
    cycles and sharing are real, and what it means to be a snapshot of one. */
module ContextGraph {
  type Ref = nat

  /** `Atom` covers primitives and functions, which are returned as they are. */
  datatype Value = Atom(a: int) | Obj(ref: Ref)

  datatype Prop = Data(key: int, attributes: int, value: Value) | Accessor(key: int)

  /** Own keys other than an array's `length` are in `props`, in `Reflect.ownKeys` order. */
  datatype Node =
    | DateNode(time: int)
    | RegExpNode(source: int, lastIndex: int)
    | MapNode(entries: seq<(Value, Value)>)
    | SetNode(items: seq<Value>)
    | BufferNode(bytes: seq<int>)
    | ViewNode(kind: int, buffer: Ref, offset: nat, length: nat)
    | ErrorNode(proto: int, props: seq<Prop>)
    | ArrayNode(length: nat, props: seq<Prop>)
    | PlainNode(proto: int, props: seq<Prop>)
    | OpaqueNode(tag: int)

  type Heap = map<Ref, Node>

  predicate HasAccessor(props: seq<Prop>) {
    exists i :: 0 <= i < |props| && props[i].Accessor?
  }

  /** Class instances, and arrays and plain objects with accessors, are kept by identity. */
  predicate Cloneable(n: Node) {
    match n
    case OpaqueNode(_) => false
    case ArrayNode(_, props) => !HasAccessor(props)
    case PlainNode(_, props) => !HasAccessor(props)
    case _ => true
  }

  /** The data properties; only an error can have others and still be cloned. */
  function DataProps(props: seq<Prop>): (data: seq<Prop>)
    ensures forall i :: 0 <= i < |data| ==> data[i].Data?
    ensures forall p :: p in data ==> p in props
  {
    if props == [] then []
    else DataProps(props[..|props| - 1]) + if props[|props| - 1].Data? then [props[|props| - 1]] else []
  }

  function PropValues(props: seq<Prop>): seq<Value> {
    var data := DataProps(props);
    seq(|data|, i requires 0 <= i < |data| => data[i].value)
  }

  function Keys(entries: seq<(Value, Value)>): seq<Value> {
    seq(|entries|, i requires 0 <= i < |entries| => entries[i].0)
  }

  function Values(entries: seq<(Value, Value)>): seq<Value> {
    seq(|entries|, i requires 0 <= i < |entries| => entries[i].1)
  }

  /** What a clone looks at: for a map its keys and its values. */
  function Children(n: Node): seq<Value> {
    match n
    case MapNode(entries) => Keys(entries) + Values(entries)
    case SetNode(items) => items
    case ViewNode(_, buffer, _, _) => [Obj(buffer)]
    case ErrorNode(_, props) => PropValues(props)
    case ArrayNode(_, props) => PropValues(props)
    case PlainNode(_, props) => PropValues(props)
    case _ => []
  }

  /** A real heap: references lead somewhere, a view has a buffer, map keys and set items are
      distinct. */
  ghost predicate WellFormed(h: Heap) {
    forall r {:trigger NodeOk(h, h[r])} :: r in h ==> NodeOk(h, h[r])
  }

  ghost predicate NodeOk(h: Heap, n: Node) {
    (forall v :: v in Children(n) ==> v.Obj? ==> v.ref in h) &&
    (n.ViewNode? ==> n.buffer in h && h[n.buffer].BufferNode?) &&
    (n.MapNode? ==> forall i, j :: 0 <= i < j < |n.entries| ==> n.entries[i].0 != n.entries[j].0) &&
    (n.SetNode? ==> forall i, j :: 0 <= i < j < |n.items| ==> n.items[i] != n.items[j])
  }

  // ---------------------------------------------------------------- images

  function Image(seen: map<Ref, Ref>, v: Value): Value {
    if v.Obj? && v.ref in seen then Obj(seen[v.ref]) else v
  }

  function ImageProps(seen: map<Ref, Ref>, props: seq<Prop>): seq<Prop> {
    var data := DataProps(props);
    seq(|data|, i requires 0 <= i < |data| => Data(data[i].key, data[i].attributes, Image(seen, data[i].value)))
  }

  function ImagePairs(seen: map<Ref, Ref>, entries: seq<(Value, Value)>): seq<(Value, Value)> {
    seq(|entries|, i requires 0 <= i < |entries| => (Image(seen, entries[i].0), Image(seen, entries[i].1)))
  }

  function ImageItems(seen: map<Ref, Ref>, items: seq<Value>): seq<Value> {
    seq(|items|, i requires 0 <= i < |items| => Image(seen, items[i]))
  }

  /** The same node with every reference replaced by its copy. */
  function ImageNode(seen: map<Ref, Ref>, n: Node): Node {
    match n
    case MapNode(entries) => MapNode(ImagePairs(seen, entries))
    case SetNode(items) => SetNode(ImageItems(seen, items))
    case ViewNode(kind, buffer, offset, length) => ViewNode(kind, if buffer in seen then seen[buffer] else buffer,
      offset, length)
    case ErrorNode(proto, props) => ErrorNode(proto, ImageProps(seen, props))
    case ArrayNode(length, props) => ArrayNode(length, ImageProps(seen, props))
    case PlainNode(proto, props) => PlainNode(proto, ImageProps(seen, props))
    case _ => n
  }

  /** A value whose copy, if it needs one, exists. */
  ghost predicate Covered(src: Heap, seen: map<Ref, Ref>, v: Value) {
    v.Obj? && v.ref in src && Cloneable(src[v.ref]) ==> v.ref in seen
  }

  ghost predicate AllCovered(src: Heap, seen: map<Ref, Ref>, values: seq<Value>) {
    forall v :: v in values ==> Covered(src, seen, v)
  }

  /** `heap` is `src` with a copy `seen[r]` of every `r` in `seen`: the source is unchanged, copies
      are new and distinct, and except for those still `open` each copy is the image of its original
      and everything it leads to is copied as well. */
  ghost predicate Snapshot(src: Heap, heap: Heap, seen: map<Ref, Ref>, open: set<Ref>) {
    seen.Keys <= src.Keys && open <= seen.Keys &&
    (forall r :: r in src ==> r in heap && heap[r] == src[r]) &&
    (forall r :: r in seen ==> Cloneable(src[r]) && seen[r] in heap && seen[r] !in src) &&
    (forall r, s :: r in seen && s in seen && r != s ==> seen[r] != seen[s]) &&
    (forall x :: x in heap ==> x in src || x in seen.Values) &&
    (forall r {:trigger Finished(src, heap, seen, r)} :: r in seen && r !in open ==> Finished(src, heap, seen, r))
  }

  ghost predicate Finished(src: Heap, heap: Heap, seen: map<Ref, Ref>, r: Ref)
    requires r in seen && r in src && seen[r] in heap
  {
    heap[seen[r]] == ImageNode(seen, src[r]) && AllCovered(src, seen, Children(src[r]))
  }

  // ---------------------------------------------------------------- reachability

  /** Each reference of the chain is a child of the one before it, and all but the last are
      cloned. */
  ghost predicate Chain(src: Heap, path: seq<Ref>) {
    forall i {:trigger OnChain(src, path, i)} :: 0 <= i < |path| ==> OnChain(src, path, i)
  }

  ghost predicate OnChain(src: Heap, path: seq<Ref>, i: nat)
    requires i < |path|
  {
    path[i] in src && (i > 0 ==> Linked(src, path[i - 1], path[i]))
  }

  ghost predicate Linked(src: Heap, r: Ref, s: Ref) {
    r in src && Cloneable(src[r]) && Obj(s) in Children(src[r])
  }

  /** Reached from `root` through cloned nodes only. */
  ghost predicate Reached(src: Heap, root: Ref, r: Ref) {
    exists path :: Chain(src, path) && path != [] && path[0] == root && path[|path| - 1] == r
  }

  lemma ChainExtends(src: Heap, path: seq<Ref>, r: Ref)
    requires Chain(src, path) && path != [] && r in src && Linked(src, path[|path| - 1], r)
    ensures Chain(src, path + [r])
  {
    var longer := path + [r];
    forall i | 0 <= i < |longer| ensures OnChain(src, longer, i) {
      if i < |path| { assert OnChain(src, path, i); }
    }
  }

  /** A finished snapshot that covers the root covers everything reached from it. */
  lemma {:induction false} SnapshotIsComplete(src: Heap, heap: Heap, seen: map<Ref, Ref>, path: seq<Ref>)
    requires Snapshot(src, heap, seen, {}) && Chain(src, path) && path != [] && Covered(src, seen, Obj(path[0]))
    ensures Covered(src, seen, Obj(path[|path| - 1]))
    decreases |path|
  {
    if |path| > 1 {
      var init := path[..|path| - 1];
      forall i | 0 <= i < |init| ensures OnChain(src, init, i) { assert OnChain(src, path, i); }
      SnapshotIsComplete(src, heap, seen, init);
      assert OnChain(src, path, |path| - 1);
      if init[|init| - 1] in seen { assert Finished(src, heap, seen, init[|init| - 1]); }
    }
  }

  // ---------------------------------------------------------------- what a snapshot means

  /** Follows child positions from a value; `None` when a step is not possible. Opaque handles are
      not looked into. */
  datatype Stop = Nowhere | At(value: Value)

  function Walk(h: Heap, v: Value, steps: seq<nat>): Stop
    decreases |steps|
  {
    if steps == [] then At(v)
    else if v.Obj? && v.ref in h && Cloneable(h[v.ref]) && steps[0] < |Children(h[v.ref])| then
      Walk(h, Children(h[v.ref])[steps[0]], steps[1..])
    else Nowhere
  }

  lemma {:induction false} DataPropsOfData(props: seq<Prop>)
    requires forall i :: 0 <= i < |props| ==> props[i].Data?
    ensures DataProps(props) == props
  {
    if props != [] {
      var init := props[..|props| - 1];
      DataPropsOfData(init);
      assert props == init + [props[|props| - 1]];
    }
  }

  /** Taking the image keeps the node cloneable and maps its children one by one. */
  lemma ImageChildren(seen: map<Ref, Ref>, n: Node)
    requires Cloneable(n)
    ensures Cloneable(ImageNode(seen, n)) && |Children(ImageNode(seen, n))| == |Children(n)|
    ensures forall i :: 0 <= i < |Children(n)| ==> Children(ImageNode(seen, n))[i] == Image(seen, Children(n)[i])
  {
    match n
    case ErrorNode(_, props) => DataPropsOfData(ImageProps(seen, props));
    case ArrayNode(_, props) => DataPropsOfData(ImageProps(seen, props));
    case PlainNode(_, props) => DataPropsOfData(ImageProps(seen, props));
    case _ =>
  }

  /** The object that stands for `v`: a handle is itself, as it was, and a node to clone has a copy of
      its own kind, with its own keys, attributes, lengths and bytes, and the images of its
      children. */
  ghost predicate Twin(src: Heap, heap: Heap, seen: map<Ref, Ref>, v: Value) {
    v.Obj? ==>
      v.ref in src &&
      if Cloneable(src[v.ref]) then
        v.ref in seen && seen[v.ref] in heap && heap[seen[v.ref]] == ImageNode(seen, src[v.ref])
      else Image(seen, v) == v && v.ref in heap && heap[v.ref] == src[v.ref]
  }

  lemma TwinAt(src: Heap, heap: Heap, seen: map<Ref, Ref>, v: Value)
    requires Snapshot(src, heap, seen, {}) && Covered(src, seen, v) && (v.Obj? ==> v.ref in src)
    ensures Twin(src, heap, seen, v)
  {
    if v.Obj? && Cloneable(src[v.ref]) { assert Finished(src, heap, seen, v.ref); }
  }

  /** Main theorem about snapshots: walking through the copy is walking through the source. At every
      place there is the same atom, the same opaque handle, or the copy of the node that is there in
      the source, of the same kind and with the same keys; two places hold one copy exactly when
      they hold one node in the source. */
  lemma {:induction false} WalksMirror(src: Heap, heap: Heap, seen: map<Ref, Ref>, v: Value, steps: seq<nat>)
    requires WellFormed(src) && Snapshot(src, heap, seen, {}) && Covered(src, seen, v) && (v.Obj? ==> v.ref in src)
    ensures
      var there := Walk(src, v, steps);
      (there.Nowhere? ==> Walk(heap, Image(seen, v), steps) == Nowhere) &&
      (there.At? ==>
         Walk(heap, Image(seen, v), steps) == At(Image(seen, there.value)) && Twin(src, heap, seen, there.value))
    decreases |steps|
  {
    TwinAt(src, heap, seen, v);
    if steps != [] && v.Obj? {
      if Cloneable(src[v.ref]) {
        assert Finished(src, heap, seen, v.ref);
        ImageChildren(seen, src[v.ref]);
        if steps[0] < |Children(src[v.ref])| {
          var child := Children(src[v.ref])[steps[0]];
          assert child in Children(src[v.ref]);
          assert NodeOk(src, src[v.ref]);
          WalksMirror(src, heap, seen, child, steps[1..]);
        }
      }
    }
  }

  /** Images tell source values apart. */
  lemma ImageIsInjective(src: Heap, heap: Heap, seen: map<Ref, Ref>, open: set<Ref>, v: Value, w: Value)
    requires Snapshot(src, heap, seen, open) && (v.Obj? ==> v.ref in src) && (w.Obj? ==> w.ref in src)
    ensures Image(seen, v) == Image(seen, w) <==> v == w
  {
  }
}
