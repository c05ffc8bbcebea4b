/** What one step of the recursive snapshot of `src/context-shared.ts` does to the copies made so
    far, as lemmas about values. */
module ContextSteps {
  import opened Common
  import opened ContextGraph

  const MAX_DEPTH := 128
  const MAX_NODES := 10_000

  /** `Map.prototype.set`. */
  function MapSet(entries: seq<(Value, Value)>, key: Value, value: Value): seq<(Value, Value)> {
    if entries == [] then [(key, value)]
    else if entries[0].0 == key then [(key, value)] + entries[1..]
    else [entries[0]] + MapSet(entries[1..], key, value)
  }

  lemma {:induction false} MapSetNew(entries: seq<(Value, Value)>, key: Value, value: Value)
    requires forall i :: 0 <= i < |entries| ==> entries[i].0 != key
    ensures MapSet(entries, key, value) == entries + [(key, value)]
  {
    if entries != [] { MapSetNew(entries[1..], key, value); }
  }

  /** `Set.prototype.add`. */
  function SetAdd(items: seq<Value>, item: Value): seq<Value> {
    if item in items then items else items + [item]
  }

  /** Where a value is found: at the start, or as a child of a node. */
  datatype Place = Start | In(holder: Ref, position: nat)

  ghost predicate IsHandle(src: Heap, v: Value) { v.Obj? && v.ref in src && !Cloneable(src[v.ref]) }

  ghost predicate HandleAt(src: Heap, r: Ref, k: nat) {
    r in src && k < |Children(src[r])| && IsHandle(src, Children(src[r])[k])
  }

  ghost predicate HandlePlace(src: Heap, root: Ref, p: Place) {
    match p
    case Start => IsHandle(src, Obj(root))
    case In(r, k) => HandleAt(src, r, k)
  }

  /** The copies made so far; `nodes` is the counter, `met` the places where handles were met, and
      references from `next` on are free. */
  datatype State = State(heap: Heap, seen: map<Ref, Ref>, nodes: nat, next: Ref, met: set<Place>)

  /** `open` are the nodes whose copies are being filled, `waiting` those counted but not yet copied. */
  ghost predicate Good(src: Heap, root: Ref, st: State, open: set<Ref>, waiting: set<Ref>) {
    WellFormed(src) && Snapshot(src, st.heap, st.seen, open) && (forall r :: r in st.heap ==> r < st.next) &&
    (forall r :: r in st.seen ==> Reached(src, root, r)) && Exact(src, root, st, waiting) && AllMet(src, st, open)
  }

  /** Counted are the nodes copied or about to be, once each, and handles at every place where they
      were met. */
  ghost predicate Exact(src: Heap, root: Ref, st: State, waiting: set<Ref>) {
    (forall r :: r in waiting ==> r in src && r !in st.seen && Cloneable(src[r]) && Reached(src, root, r)) &&
    (forall p :: p in st.met ==> HandlePlace(src, root, p) && (p.In? ==> p.holder in st.seen)) &&
    st.nodes == |st.seen| + |waiting| + |st.met|
  }

  /** Every handle in a finished node was met. */
  ghost predicate AllMet(src: Heap, st: State, open: set<Ref>) {
    forall r :: r in st.seen && r !in open ==> Visited(src, st.met, r)
  }

  ghost predicate Visited(src: Heap, met: set<Place>, r: Ref) {
    forall k :: HandleAt(src, r, k) ==> In(r, k) in met
  }

  // ---------------------------------------------------------------- what a graph weighs

  ghost function Copies(src: Heap, root: Ref): set<Ref> {
    set r | r in src && Cloneable(src[r]) && Reached(src, root, r)
  }

  ghost function HandlePlaces(src: Heap, root: Ref): set<Place> {
    (set r, k | r in Copies(src, root) && 0 <= k < |Children(src[r])| && HandleAt(src, r, k) :: In(r, k)) +
    if IsHandle(src, Obj(root)) then {Start} else {}
  }

  /** The nodes to copy, once each, and the references to handles, all of them. */
  ghost function Weight(src: Heap, root: Ref): nat {
    |Copies(src, root)| + |HandlePlaces(src, root)|
  }

  /** What was counted, and one visit more, is part of the weight. */
  lemma CountedWeighs(src: Heap, root: Ref, st: State, open: set<Ref>, waiting: set<Ref>, copies: set<Ref>,
      met: set<Place>)
    requires Good(src, root, st, open, waiting)
    requires forall r :: r in copies ==> r in src && Cloneable(src[r]) && Reached(src, root, r)
    requires forall p :: p in met ==> HandlePlace(src, root, p) && (p.In? ==> p.holder in st.seen)
    ensures |copies| + |met| <= Weight(src, root)
  {
    hide Snapshot, WellFormed, Reached, Exact, HandleAt, Children;
    SnapshotKeys(src, st.heap, st.seen, open);
    forall p | p in met ensures p in HandlePlaces(src, root) { MetIsPlace(src, root, p); }
    SubsetSize(copies, Copies(src, root));
    SubsetSize(met, HandlePlaces(src, root));
  }

  lemma MetIsPlace(src: Heap, root: Ref, p: Place)
    requires HandlePlace(src, root, p) &&
        (p.In? ==> p.holder in src && Cloneable(src[p.holder]) && Reached(src, root, p.holder))
    ensures p in HandlePlaces(src, root)
  {
    hide Reached;
  }

  /** When all is copied, the counter is the weight. */
  lemma DoneWeighs(src: Heap, root: Ref, st: State)
    requires Good(src, root, st, {}, {}) && (forall r :: r in st.seen <==> r in Copies(src, root))
    requires Start in st.met <==> IsHandle(src, Obj(root))
    ensures st.nodes == Weight(src, root)
  {
    hide Snapshot, WellFormed, Reached, Copies, Children, HandleAt, HandlePlaces, Visited;
    assert st.seen.Keys == Copies(src, root);
    forall p ensures p in st.met <==> p in HandlePlaces(src, root) {
      if p.In? && p.holder in st.seen { assert Visited(src, st.met, p.holder); }
      PlaceIsMet(src, root, st, p);
    }
    assert st.met == HandlePlaces(src, root);
  }

  lemma PlaceIsMet(src: Heap, root: Ref, st: State, p: Place)
    requires p in st.met ==> HandlePlace(src, root, p) && (p.In? ==> p.holder in st.seen)
    requires p.In? && p.holder in st.seen ==> Visited(src, st.met, p.holder)
    requires forall r :: r in st.seen <==> r in Copies(src, root)
    requires Start in st.met <==> IsHandle(src, Obj(root))
    ensures p in st.met <==> p in HandlePlaces(src, root)
  {
    hide Copies, IsHandle, Children;
  }

  // ---------------------------------------------------------------- from one state to the next

  /** Copies only grow: finished copies stay as they are, and so do open ones. Handles were met at
      the places `at` and in new nodes only. */
  ghost predicate Grows(a: State, b: State, at: set<Place>) {
    a.nodes <= b.nodes && Extends(a.seen, b.seen) &&
    (forall x :: x in a.heap ==> x in b.heap && b.heap[x] == a.heap[x]) &&
    a.met <= b.met && forall p :: p in b.met ==> p in a.met || p in at || (p.In? && p.holder !in a.seen)
  }

  /** Between `a` and `b` the copy of `r` was allocated; it is being filled. */
  ghost predicate Filling(src: Heap, root: Ref, a: State, b: State, r: Ref, open: set<Ref>, waiting: set<Ref>) {
    Good(src, root, b, open + {r}, waiting) && r !in open && r in src && r in b.seen && b.seen[r] in b.heap &&
    b.seen[r] !in a.heap && r !in a.seen && Grows(a, b, {})
  }

  /** `value` is what is found at `place`, where no handle was met yet. */
  ghost predicate Unmet(src: Heap, root: Ref, st: State, place: Place, value: Value) {
    place !in st.met &&
    match place
    case Start => value.Obj? ==> value.ref == root
    case In(r, k) =>
      r in src && k < |Children(src[r])| && Children(src[r])[k] == value && (IsHandle(src, value) ==> r in st.seen)
  }

  /** In `r`, handles were met at exactly the positions `done`. */
  ghost predicate MetIn(src: Heap, met: set<Place>, r: Ref, done: set<nat>) {
    forall k :: In(r, k) in met <==> HandleAt(src, r, k) && k in done
  }

  lemma NothingMet(src: Heap, root: Ref, a: State, b: State, r: Ref, open: set<Ref>, waiting: set<Ref>)
    requires Good(src, root, a, open, waiting) && r !in a.seen && b.met == a.met
    ensures MetIn(src, b.met, r, {})
  {
    hide Snapshot, WellFormed, Reached, AllMet, HandlePlace;
  }

  /** The child at position `k` was looked at. */
  lemma MetStep(src: Heap, b: State, c: State, r: Ref, done: set<nat>, k: nat, value: Value)
    requires MetIn(src, b.met, r, done) && Grows(b, c, {In(r, k)}) && r in b.seen && r in src
    requires k < |Children(src[r])| && Children(src[r])[k] == value && (In(r, k) in c.met <==> IsHandle(src, value))
    ensures MetIn(src, c.met, r, done + {k})
  {
    hide Children, IsHandle, Extends;
    forall j ensures In(r, j) in c.met <==> HandleAt(src, r, j) && j in done + {k} {
      if j != k { assert In(r, j) in c.met <==> In(r, j) in b.met; }
    }
  }

  lemma UnmetFacts(src: Heap, root: Ref, st: State, place: Place, value: Value)
    requires Unmet(src, root, st, place, value)
    ensures place !in st.met && (value.Atom? ==> !IsHandle(src, value))
  {
  }

  lemma SeenIsNoHandle(src: Heap, root: Ref, st: State, open: set<Ref>, waiting: set<Ref>, r: Ref)
    requires Good(src, root, st, open, waiting) && r in st.seen
    ensures !IsHandle(src, Obj(r))
  {
    hide WellFormed, Reached, Exact, AllMet;
  }

  lemma HandleGrows(a: State, b: State, place: Place)
    requires b == a.(nodes := a.nodes + 1, met := a.met + {place})
    ensures Grows(a, b, {place})
  {
  }

  lemma CopyGrows(a: State, b: State, place: Place)
    requires Grows(a.(nodes := a.nodes + 1), b, {})
    ensures Grows(a, b, {place})
  {
  }

  /** Where the value was found is a fact about the source. */
  lemma HolderStays(src: Heap, root: Ref, st: State, place: Place, value: Value)
    requires Unmet(src, root, st, place, value)
    ensures
      match place
      case Start => value.Obj? ==> value.ref == root
      case In(r, k) => r in src && k < |Children(src[r])| && Children(src[r])[k] == value
  {
  }

  lemma NoChildren(src: Heap, met: set<Place>, r: Ref)
    requires r in src && (src[r].DateNode? || src[r].RegExpNode? || src[r].BufferNode?)
    ensures Visited(src, met, r)
  {
  }

  lemma ReadyGood(src: Heap, root: Ref, st: State, path: seq<Ref>, r: Ref, open: set<Ref>, waiting: set<Ref>)
    requires Ready(src, root, st, path, r, open, waiting)
    ensures Good(src, root, st, open, waiting + {r}) && r !in st.seen && {} + {r} == {r}
    ensures r in src && Cloneable(src[r]) && st.nodes <= MAX_NODES && On(src, root, path + [r])
  {
  }

  lemma EntryPlaces(src: Heap, root: Ref, st: State, r: Ref, entries: seq<(Value, Value)>, i: nat, done: set<nat>)
    requires r in src && src[r] == MapNode(entries) && i < |entries| && r in st.seen && MetIn(src, st.met, r, done)
    ensures i !in done ==> Unmet(src, root, st, In(r, i), entries[i].0)
    ensures |entries| + i !in done ==> Unmet(src, root, st, In(r, |entries| + i), entries[i].1)
    ensures |Children(src[r])| == 2 * |entries| && Children(src[r])[i] == entries[i].0 &&
        Children(src[r])[|entries| + i] == entries[i].1
  {
  }

  lemma MapWhole(src: Heap, met: set<Place>, r: Ref, entries: seq<(Value, Value)>, done: set<nat>)
    requires r in src && src[r] == MapNode(entries) && MetIn(src, met, r, done) &&
        forall k: nat :: k < 2 * |entries| ==> k in done
    ensures Visited(src, met, r)
  {
    assert |Children(src[r])| == 2 * |entries|;
    MetWhole(src, met, r, done);
  }

  lemma ItemPlace(src: Heap, root: Ref, st: State, r: Ref, items: seq<Value>, i: nat, done: set<nat>)
    requires r in src && src[r] == SetNode(items) && i < |items| && r in st.seen && MetIn(src, st.met, r, done) &&
        i !in done
    ensures Unmet(src, root, st, In(r, i), items[i]) && |Children(src[r])| == |items| && Children(src[r])[i] == items[i]
  {
  }

  lemma BufferPlace(src: Heap, root: Ref, st: State, path: seq<Ref>, r: Ref, open: set<Ref>)
    requires Ready(src, root, st, path, r, open, {}) && src[r].ViewNode?
    ensures Unmet(src, root, st, In(r, 0), Obj(src[r].buffer))
  {
    hide Snapshot, Reached, Chain, On, AllMet;
    assert NodeOk(src, src[r]);
  }

  lemma NoHandleInView(src: Heap, met: set<Place>, r: Ref)
    requires r in src && src[r].ViewNode? && src[r].buffer in src && src[src[r].buffer].BufferNode?
    ensures Visited(src, met, r)
  {
  }

  lemma {:induction false} DataPropAt(props: seq<Prop>, i: nat)
    requires i < |props| && props[i].Data?
    ensures |DataProps(props[..i])| < |DataProps(props)| && DataProps(props)[|DataProps(props[..i])|] == props[i]
    decreases |props|
  {
    var init := props[..|props| - 1];
    if i < |props| - 1 {
      assert init[..i] == props[..i];
      DataPropAt(init, i);
    } else { assert props[..i] == init; }
  }

  lemma PropPlace(src: Heap, root: Ref, st: State, r: Ref, props: seq<Prop>, i: nat, done: set<nat>)
    requires r in src && IsRecord(src[r]) && PropsOf(src[r]) == props && i < |props| && props[i].Data? && r in st.seen
    requires MetIn(src, st.met, r, done) && |DataProps(props[..i])| !in done
    ensures
      var k := |DataProps(props[..i])|;
      Unmet(src, root, st, In(r, k), props[i].value) && k < |Children(src[r])| &&
      Children(src[r])[k] == props[i].value &&
      |DataProps(props[..i + 1])| == k + 1
  {
    hide DataProps;
    DataPropAt(props, i);
    PropsSnoc(props, i);
  }

  lemma RecordWhole(src: Heap, met: set<Place>, r: Ref, props: seq<Prop>, done: set<nat>)
    requires r in src && IsRecord(src[r]) && PropsOf(src[r]) == props && MetIn(src, met, r, done)
    requires forall k: nat :: k < |DataProps(props)| ==> k in done
    ensures Visited(src, met, r)
  {
    MetWhole(src, met, r, done);
  }

  /** All children were looked at. */
  lemma MetWhole(src: Heap, met: set<Place>, r: Ref, done: set<nat>)
    requires MetIn(src, met, r, done) && r in src && forall k: nat :: k < |Children(src[r])| ==> k in done
    ensures Visited(src, met, r)
  {
  }

  /** A value that is no handle adds no place. */
  lemma NotMet(src: Heap, root: Ref, st: State, open: set<Ref>, waiting: set<Ref>, place: Place, value: Value)
    requires Good(src, root, st, open, waiting) && !IsHandle(src, value) && value.Obj?
    requires
      match place
      case Start => value.ref == root
      case In(r, k) => r in src && k < |Children(src[r])| && Children(src[r])[k] == value
    ensures place !in st.met
  {
    hide Snapshot, WellFormed, Reached, AllMet, IsHandle;
  }

  ghost predicate SourceKept(src: Heap, heap: Heap) {
    forall r :: r in src ==> r in heap && heap[r] == src[r]
  }

  /** A node to copy that has just been counted; `path` leads to its holder. */
  ghost predicate Ready(src: Heap, root: Ref, st: State, path: seq<Ref>, r: Ref, open: set<Ref>, waiting: set<Ref>) {
    Good(src, root, st, open, waiting + {r}) && r !in waiting && r in src && r !in st.seen && Cloneable(src[r]) &&
    st.nodes <= MAX_NODES &&
    On(src, root, path + [r])
  }

  /** The last node of `path` is being looked at. */
  ghost predicate On(src: Heap, root: Ref, path: seq<Ref>) {
    path != [] && path[0] == root && Chain(src, path)
  }

  /** The copy of `r` is allocated; its content follows. */
  lemma Begin(src: Heap, root: Ref, a: State, path: seq<Ref>, r: Ref, open: set<Ref>, waiting: set<Ref>, content: Node)
    requires Ready(src, root, a, path, r, open, waiting)
    ensures Filling(src, root, a,
        a.(heap := a.heap[a.next := content], seen := a.seen[r := a.next], next := a.next + 1), r, open, waiting)
  {
    hide Snapshot, WellFormed, Reached, Chain, Exact, Grows, On, Visited;
    var b := a.(heap := a.heap[a.next := content], seen := a.seen[r := a.next], next := a.next + 1);
    SnapshotKeys(src, a.heap, a.seen, open);
    AllocateKeeps(src, a.heap, a.seen, open, r, a.next, content);
    NowReached(src, root, path, r);
    Allocated(src, root, a, b, r, waiting);
  }

  lemma Allocated(src: Heap, root: Ref, a: State, b: State, r: Ref, waiting: set<Ref>)
    requires r !in a.seen && r !in waiting && Exact(src, root, a, waiting + {r}) && b.nodes == a.nodes && b.met == a.met
    requires b.seen == a.seen[r := a.next] && a.next !in a.heap && a.next in b.heap &&
        b.heap == a.heap[a.next := b.heap[a.next]]
    ensures Exact(src, root, b, waiting) && Grows(a, b, {})
  {
    hide Reached, HandlePlace;
    assert |waiting + {r}| == |waiting| + 1;
  }

  lemma NowReached(src: Heap, root: Ref, path: seq<Ref>, r: Ref)
    requires On(src, root, path + [r])
    ensures Reached(src, root, r)
  {
    assert (path + [r])[|path|] == r;
  }

  /** Copying the child at position `k` leaves the open copy alone. */
  lemma Below(src: Heap, root: Ref, a: State, b: State, c: State, r: Ref, open: set<Ref>, k: nat)
    requires Filling(src, root, a, b, r, open, {}) && Good(src, root, c, open + {r}, {}) && Grows(b, c, {In(r, k)})
    ensures Filling(src, root, a, c, r, open, {}) && c.seen[r] == b.seen[r] && c.heap[c.seen[r]] == b.heap[b.seen[r]]
  {
    hide Snapshot, WellFormed, Reached, Exact, AllMet;
  }

  lemma Write(src: Heap, root: Ref, a: State, b: State, r: Ref, open: set<Ref>, waiting: set<Ref>, content: Node)
    requires Filling(src, root, a, b, r, open, waiting)
    ensures Filling(src, root, a, b.(heap := b.heap[b.seen[r] := content]), r, open, waiting)
  {
    hide Snapshot, WellFormed, Reached, Chain, Visited, HandlePlace;
    WriteKeeps(src, b.heap, b.seen, open + {r}, r, content);
    GrowsPast(a, b, b.seen[r], content);
  }

  lemma GrowsPast(a: State, b: State, copy: Ref, content: Node)
    requires Grows(a, b, {}) && copy !in a.heap
    ensures Grows(a, b.(heap := b.heap[copy := content]), {})
  {
  }

  /** The finished copy is closed. */
  lemma End(src: Heap, root: Ref, a: State, b: State, r: Ref, open: set<Ref>, waiting: set<Ref>)
    requires Filling(src, root, a, b, r, open, waiting) && Visited(src, b.met, r)
    requires b.heap[b.seen[r]] == ImageNode(b.seen, src[r]) && AllCovered(src, b.seen, Children(src[r]))
    ensures Good(src, root, b, open, waiting) && Grows(a, b, {})
  {
    hide WellFormed, Reached, Exact, Visited, Grows;
    CloseKeeps(src, b.heap, b.seen, open + {r}, r);
    assert open + {r} - {r} == open;
  }

  lemma Kept(src: Heap, root: Ref, st: State, open: set<Ref>, waiting: set<Ref>)
    requires Good(src, root, st, open, waiting)
    ensures SourceKept(src, st.heap)
  {
  }

  /** Nodes whose children are their data properties. */
  predicate IsRecord(n: Node) { n.ErrorNode? || n.ArrayNode? || n.PlainNode? }

  function PropsOf(n: Node): seq<Prop>
    requires IsRecord(n)
  {
    n.props
  }

  function WithProps(n: Node, props: seq<Prop>): (m: Node)
    requires IsRecord(n)
    ensures IsRecord(m) && PropsOf(m) == props
  {
    n.(props := props)
  }

  // ---------------------------------------------------------------- steps of a copy, on values

  lemma AllocateKeeps(src: Heap, heap: Heap, seen: map<Ref, Ref>, open: set<Ref>, r: Ref, copy: Ref, content: Node)
    requires WellFormed(src) && Snapshot(src, heap, seen, open) && r in src && r !in seen && Cloneable(src[r]) &&
        copy !in heap
    ensures Snapshot(src, heap[copy := content], seen[r := copy], open + {r})
  {
    var more := seen[r := copy];
    ValuesGrow(seen, r, copy);
    forall s | s in more && s !in open + {r} ensures Finished(src, heap[copy := content], more, s) {
      assert Finished(src, heap, seen, s);
      assert more[s] == seen[s] && seen[s] in heap;
      StillImage(src, seen, more, src[s]);
    }
  }

  lemma ValuesGrow(seen: map<Ref, Ref>, r: Ref, copy: Ref)
    requires r !in seen
    ensures seen[r := copy].Values == seen.Values + {copy}
  {
    var more := seen[r := copy];
    forall x | x in seen.Values ensures x in more.Values {
      var k :| k in seen && seen[k] == x;
      assert more[k] == x;
    }
    assert more[r] == copy;
  }

  /** Writing into a copy that is still open. */
  lemma WriteKeeps(src: Heap, heap: Heap, seen: map<Ref, Ref>, open: set<Ref>, r: Ref, content: Node)
    requires Snapshot(src, heap, seen, open) && r in open
    ensures Snapshot(src, heap[seen[r] := content], seen, open)
  {
    forall s | s in seen && s !in open ensures Finished(src, heap[seen[r] := content], seen, s) {
      assert Finished(src, heap, seen, s);
    }
  }

  lemma CloseKeeps(src: Heap, heap: Heap, seen: map<Ref, Ref>, open: set<Ref>, r: Ref)
    requires Snapshot(src, heap, seen, open) && r in open
    requires heap[seen[r]] == ImageNode(seen, src[r]) && AllCovered(src, seen, Children(src[r]))
    ensures Snapshot(src, heap, seen, open - {r})
  {
  }

  /** Images of covered values do not change when `seen` grows. */
  lemma StillValue(src: Heap, seen: map<Ref, Ref>, more: map<Ref, Ref>, v: Value)
    requires Covered(src, seen, v) && (v.Obj? ==> v.ref in src)
    requires forall r :: r in seen ==> r in more && more[r] == seen[r]
    requires forall r :: r in more ==> r in src && Cloneable(src[r])
    ensures Image(more, v) == Image(seen, v)
  {
  }

  lemma StillImage(src: Heap, seen: map<Ref, Ref>, more: map<Ref, Ref>, n: Node)
    requires NodeOk(src, n) && AllCovered(src, seen, Children(n))
    requires forall r :: r in seen ==> r in more && more[r] == seen[r]
    requires forall r :: r in more ==> r in src && Cloneable(src[r])
    ensures ImageNode(more, n) == ImageNode(seen, n) && AllCovered(src, more, Children(n))
  {
    forall v | v in Children(n) ensures Image(more, v) == Image(seen, v) { StillValue(src, seen, more, v); }
    match n
    case MapNode(entries) => StillPairs(seen, more, n);
    case SetNode(items) => assert ImageItems(more, items) == ImageItems(seen, items);
    case ViewNode(_, buffer, _, _) => assert Obj(buffer) in Children(n);
    case ErrorNode(_, props) => StillProps(seen, more, props);
    case ArrayNode(_, props) => StillProps(seen, more, props);
    case PlainNode(_, props) => StillProps(seen, more, props);
    case _ =>
  }

  lemma LeafImage(src: Heap, seen: map<Ref, Ref>, n: Node)
    requires n.DateNode? || n.RegExpNode? || n.BufferNode?
    ensures ImageNode(seen, n) == n && AllCovered(src, seen, Children(n))
  {
  }

  lemma StillPairs(seen: map<Ref, Ref>, more: map<Ref, Ref>, n: Node)
    requires n.MapNode? && forall v :: v in Children(n) ==> Image(more, v) == Image(seen, v)
    ensures ImagePairs(more, n.entries) == ImagePairs(seen, n.entries)
  {
    forall i | 0 <= i < |n.entries|
      ensures Image(more, n.entries[i].0) == Image(seen, n.entries[i].0) &&
          Image(more, n.entries[i].1) == Image(seen, n.entries[i].1)
    {
      assert Children(n)[i] == n.entries[i].0 && Children(n)[|n.entries| + i] == n.entries[i].1;
    }
  }

  lemma StillProps(seen: map<Ref, Ref>, more: map<Ref, Ref>, props: seq<Prop>)
    requires forall v :: v in PropValues(props) ==> Image(more, v) == Image(seen, v)
    ensures ImageProps(more, props) == ImageProps(seen, props)
  {
    var data := DataProps(props);
    forall i | 0 <= i < |data| ensures Image(more, data[i].value) == Image(seen, data[i].value) {
      assert PropValues(props)[i] == data[i].value;
    }
  }

  /** `v`, held by the last node of `path`, can be looked at next. */
  ghost predicate OnPath(src: Heap, root: Ref, path: seq<Ref>, v: Value) {
    v.Obj? ==> v.ref in src && On(src, root, path + [v.ref])
  }

  /** A child of the last node of a path extends the path. */
  lemma ChildOnPath(src: Heap, root: Ref, path: seq<Ref>, r: Ref, v: Value)
    requires WellFormed(src) && On(src, root, path + [r]) && r in src && Cloneable(src[r]) && v in Children(src[r])
    ensures OnPath(src, root, path + [r], v)
  {
    assert (path + [r])[|path|] == r;
    assert NodeOk(src, src[r]);
    if v.Obj? { ChainExtends(src, path + [r], v.ref); }
  }

  ghost predicate Extends(seen: map<Ref, Ref>, more: map<Ref, Ref>) {
    forall r :: r in seen ==> r in more && more[r] == seen[r]
  }

  lemma StillCovered(src: Heap, seen: map<Ref, Ref>, more: map<Ref, Ref>, values: seq<Value>)
    requires AllCovered(src, seen, values) && Extends(seen, more)
    requires forall v :: v in values ==> v.Obj? ==> v.ref in src
    requires forall r :: r in more ==> r in src && Cloneable(src[r])
    ensures AllCovered(src, more, values) && forall v :: v in values ==> Image(more, v) == Image(seen, v)
  {
    forall v | v in values ensures Image(more, v) == Image(seen, v) && Covered(src, more, v) {
      StillValue(src, seen, more, v);
    }
  }

  /** Adding the image of the next item, which is new because images tell values apart. */
  lemma SetStep(src: Heap, root: Ref, a: State, c: State, at: set<Place>, r: Ref, open: set<Ref>, items: seq<Value>,
      i: nat)
    requires Good(src, root, c, open + {r}, {}) && Grows(a, c, at) && r in src && src[r] == SetNode(items) &&
        i < |items|
    requires AllCovered(src, a.seen, items[..i]) && Covered(src, c.seen, items[i])
    ensures SetAdd(ImageItems(a.seen, items[..i]), Image(c.seen, items[i])) == ImageItems(c.seen, items[..i + 1])
    ensures AllCovered(src, c.seen, items[..i + 1])
  {
    assert NodeOk(src, src[r]);
    ItemStep(src, c.heap, a.seen, c.seen, open + {r}, items, i);
  }

  lemma ItemStep(src: Heap, heap: Heap, seen: map<Ref, Ref>, more: map<Ref, Ref>, open: set<Ref>, items: seq<Value>,
      i: nat)
    requires Snapshot(src, heap, more, open) && NodeOk(src, SetNode(items)) && i < |items|
    requires Extends(seen, more) && AllCovered(src, seen, items[..i]) && Covered(src, more, items[i])
    ensures SetAdd(ImageItems(seen, items[..i]), Image(more, items[i])) == ImageItems(more, items[..i + 1])
    ensures AllCovered(src, more, items[..i + 1])
  {
    assert items == Children(SetNode(items)) && items[..i + 1] == items[..i] + [items[i]];
    StillCovered(src, seen, more, items[..i]);
    var images := ImageItems(seen, items[..i]);
    forall j | 0 <= j < i ensures images[j] == Image(more, items[j]) && images[j] != Image(more, items[i]) {
      assert items[..i][j] == items[j];
      ImageIsInjective(src, heap, more, open, items[j], items[i]);
    }
  }

  /** Setting the images of the next entry; `b` is the state between its key and its value. */
  lemma MapStep(
    src: Heap, root: Ref, a: State, b: State, c: State, at: set<Place>, more: set<Place>, r: Ref, open: set<Ref>,
      entries: seq<(Value, Value)>,
    i: nat)
    requires Good(src, root, c, open + {r}, {}) && Grows(a, b, at) && Grows(b, c, more)
    requires r in src && src[r] == MapNode(entries) && i < |entries|
    requires AllCovered(src, a.seen, Children(MapNode(entries[..i])))
    requires Covered(src, b.seen, entries[i].0) && Covered(src, c.seen, entries[i].1)
    ensures MapSet(ImagePairs(a.seen, entries[..i]), Image(b.seen, entries[i].0), Image(c.seen, entries[i].1)) ==
              ImagePairs(c.seen, entries[..i + 1])
    ensures AllCovered(src, c.seen, Children(MapNode(entries[..i + 1])))
  {
    hide Reached, Exact, ImagePairs, MapSet, AllCovered;
    EntryKnown(src, r, entries, i);
    StillValue(src, b.seen, c.seen, entries[i].0);
    EntryStep(src, c.heap, a.seen, c.seen, open + {r}, entries, i);
  }

  lemma EntryKnown(src: Heap, r: Ref, entries: seq<(Value, Value)>, i: nat)
    requires WellFormed(src) && r in src && src[r] == MapNode(entries) && i < |entries|
    ensures NodeOk(src, src[r]) && (entries[i].0.Obj? ==> entries[i].0.ref in src)
  {
    assert NodeOk(src, src[r]);
    assert Children(src[r])[i] == entries[i].0;
  }

  lemma EntryStep(src: Heap, heap: Heap, seen: map<Ref, Ref>, more: map<Ref, Ref>, open: set<Ref>,
      entries: seq<(Value, Value)>, i: nat)
    requires Snapshot(src, heap, more, open) && NodeOk(src, MapNode(entries)) && i < |entries|
    requires Extends(seen, more) && AllCovered(src, seen, Children(MapNode(entries[..i])))
    requires Covered(src, more, entries[i].0) && Covered(src, more, entries[i].1)
    ensures MapSet(ImagePairs(seen, entries[..i]), Image(more, entries[i].0), Image(more, entries[i].1)) ==
              ImagePairs(more, entries[..i + 1])
    ensures AllCovered(src, more, Children(MapNode(entries[..i + 1])))
  {
    var done := MapNode(entries[..i]);
    forall v | v in Children(done) ensures v in Children(MapNode(entries)) { ChildOfPrefix(entries, i, v); }
    StillCovered(src, seen, more, Children(done));
    StillPairs(seen, more, done);
    var images := ImagePairs(more, entries[..i]);
    forall j | 0 <= j < i ensures images[j].0 != Image(more, entries[i].0) {
      assert Children(MapNode(entries))[j] == entries[j].0 && Children(MapNode(entries))[i] == entries[i].0;
      ImageIsInjective(src, heap, more, open, entries[j].0, entries[i].0);
    }
    MapSetNew(images, Image(more, entries[i].0), Image(more, entries[i].1));
    forall v | v in Children(MapNode(entries[..i + 1])) ensures Covered(src, more, v) {
      ChildOfNext(entries, i, v);
    }
  }

  lemma ChildOfPrefix(entries: seq<(Value, Value)>, i: nat, v: Value)
    requires i <= |entries|
    ensures v in Children(MapNode(entries[..i])) ==> v in Children(MapNode(entries))
  {
    if v in Children(MapNode(entries[..i])) {
      var k :| 0 <= k < 2 * i && Children(MapNode(entries[..i]))[k] == v;
      assert Children(MapNode(entries))[if k < i then k else |entries| + k - i] == v;
    }
  }

  lemma ChildOfNext(entries: seq<(Value, Value)>, i: nat, v: Value)
    requires i < |entries| && v in Children(MapNode(entries[..i + 1]))
    ensures v == entries[i].0 || v == entries[i].1 || v in Children(MapNode(entries[..i]))
  {
    var k :| 0 <= k < 2 * (i + 1) && Children(MapNode(entries[..i + 1]))[k] == v;
    if k != i && k != 2 * i + 1 {
      assert Children(MapNode(entries[..i]))[if k < i then k else k - 1] == v;
    }
  }

  lemma PropsSnoc(props: seq<Prop>, i: nat)
    requires i < |props|
    ensures DataProps(props[..i + 1]) == DataProps(props[..i]) + if props[i].Data? then [props[i]] else []
  {
    assert props[..i + 1][..i] == props[..i];
  }

  lemma {:induction false} PropIsChild(props: seq<Prop>, i: nat)
    requires i < |props| && props[i].Data?
    ensures props[i].value in PropValues(props)
  {
    var init := props[..|props| - 1];
    if i == |props| - 1 {
      assert PropValues(props)[|DataProps(init)|] == props[i].value;
    } else {
      PropIsChild(init, i);
      var k :| 0 <= k < |DataProps(init)| && PropValues(init)[k] == props[i].value;
      assert PropValues(props)[k] == props[i].value;
    }
  }

  lemma PropsPrefix(props: seq<Prop>, i: nat, v: Value)
    requires i <= |props| && v in PropValues(props[..i])
    ensures v in PropValues(props)
  {
    var k :| 0 <= k < |DataProps(props[..i])| && PropValues(props[..i])[k] == v;
    var p := DataProps(props[..i])[k];
    assert p in props[..i];
    var j :| 0 <= j < i && props[..i][j] == p;
    PropIsChild(props, j);
  }

  /** Defining the next data property with the image of its value. */
  lemma PropStep(src: Heap, root: Ref, a: State, c: State, at: set<Place>, r: Ref, open: set<Ref>, props: seq<Prop>,
      i: nat)
    requires Good(src, root, c, open + {r}, {}) && Grows(a, c, at) && r in src && IsRecord(src[r]) &&
        PropsOf(src[r]) == props
    requires i < |props| && props[i].Data?
    requires AllCovered(src, a.seen, PropValues(props[..i])) && Covered(src, c.seen, props[i].value)
    ensures ImageProps(a.seen, props[..i]) + [Data(props[i].key, props[i].attributes, Image(c.seen, props[i].value))] ==
              ImageProps(c.seen, props[..i + 1])
    ensures AllCovered(src, c.seen, PropValues(props[..i + 1]))
  {
    hide Reached, Exact, ImageProps, AllCovered, Snapshot;
    assert NodeOk(src, src[r]) && Children(src[r]) == PropValues(props);
    SnapshotKeys(src, c.heap, c.seen, open + {r});
    NextProp(src, a.seen, c.seen, props, i);
  }

  lemma NextProp(src: Heap, seen: map<Ref, Ref>, more: map<Ref, Ref>, props: seq<Prop>, i: nat)
    requires i < |props| && props[i].Data? && Extends(seen, more)
    requires forall v :: v in PropValues(props) ==> v.Obj? ==> v.ref in src
    requires forall r :: r in more ==> r in src && Cloneable(src[r])
    requires AllCovered(src, seen, PropValues(props[..i])) && Covered(src, more, props[i].value)
    ensures ImageProps(seen, props[..i]) + [Data(props[i].key, props[i].attributes, Image(more, props[i].value))] ==
              ImageProps(more, props[..i + 1])
    ensures AllCovered(src, more, PropValues(props[..i + 1]))
  {
    forall v | v in PropValues(props[..i]) ensures v.Obj? ==> v.ref in src { PropsPrefix(props, i, v); }
    StillCovered(src, seen, more, PropValues(props[..i]));
    StillProps(seen, more, props[..i]);
    PropsSnoc(props, i);
    forall v | v in PropValues(props[..i + 1]) ensures Covered(src, more, v) {
      if v != props[i].value {
        var k :| 0 <= k < |PropValues(props[..i + 1])| && PropValues(props[..i + 1])[k] == v;
        assert PropValues(props[..i])[k] == v;
      }
    }
  }

  /** An accessor of an error is left out. */
  lemma AccessorStep(src: Heap, seen: map<Ref, Ref>, props: seq<Prop>, i: nat)
    requires i < |props| && props[i].Accessor? && AllCovered(src, seen, PropValues(props[..i]))
    ensures ImageProps(seen, props[..i]) == ImageProps(seen, props[..i + 1]) &&
        AllCovered(src, seen, PropValues(props[..i + 1]))
  {
    PropsSnoc(props, i);
    assert DataProps(props[..i + 1]) == DataProps(props[..i]);
  }

  lemma RecordImage(seen: map<Ref, Ref>, n: Node)
    requires IsRecord(n)
    ensures ImageNode(seen, n) == WithProps(n, ImageProps(seen, PropsOf(n))) && Children(n) == PropValues(PropsOf(n))
  {
  }

  lemma ViewImage(src: Heap, seen: map<Ref, Ref>, n: Node)
    requires n.ViewNode? && n.buffer in seen
    ensures ImageNode(seen, n) == ViewNode(n.kind, seen[n.buffer], n.offset, n.length) &&
        AllCovered(src, seen, Children(n))
  {
  }

  lemma SetChildren(n: Node)
    requires n.SetNode?
    ensures Children(n) == n.items
  {
  }

  lemma NothingMapped(src: Heap, seen: map<Ref, Ref>)
    ensures ImagePairs(seen, []) == [] && AllCovered(src, seen, Children(MapNode([])))
  {
  }

  lemma NothingAdded(src: Heap, seen: map<Ref, Ref>)
    ensures ImageItems(seen, []) == [] && AllCovered(src, seen, [])
  {
  }

  lemma NothingDefined(src: Heap, seen: map<Ref, Ref>)
    ensures ImageProps(seen, []) == [] && AllCovered(src, seen, PropValues([])) && DataProps([]) == []
  {
  }

  // ---------------------------------------------------------------- what the methods need to know

  lemma StayedStill(st: State, at: set<Place>)
    ensures Grows(st, st, at)
  {
  }

  /** `r`, found at `place`, is counted; one visit too many means that the graph weighs too much. */
  lemma Counted(src: Heap, root: Ref, st: State, path: seq<Ref>, r: Ref, open: set<Ref>, waiting: set<Ref>,
      place: Place)
    requires Good(src, root, st, open, waiting) && r in src && r !in st.seen && r !in waiting &&
        On(src, root, path + [r])
    requires st.nodes <= MAX_NODES && Unmet(src, root, st, place, Obj(r))
    ensures st.nodes == MAX_NODES ==> Weight(src, root) > MAX_NODES
    ensures Cloneable(src[r]) && st.nodes < MAX_NODES ==>
              Ready(src, root, st.(nodes := st.nodes + 1), path, r, open, waiting)
    ensures !Cloneable(src[r]) ==> Good(src, root, st.(nodes := st.nodes + 1, met := st.met + {place}), open, waiting)
  {
    hide Snapshot, WellFormed, Reached, Chain, Exact, On, Weight, Unmet, Visited;
    NowReached(src, root, path, r);
    if st.nodes == MAX_NODES { TooHeavy(src, root, st, r, open, waiting, place); }
    if Cloneable(src[r]) {
      OneMore(src, root, st, r, waiting);
    } else {
      Handle(src, root, st, r, waiting, place);
      StillVisited(src, st, open, place);
    }
  }

  lemma StillVisited(src: Heap, st: State, open: set<Ref>, place: Place)
    requires AllMet(src, st, open)
    ensures AllMet(src, st.(nodes := st.nodes + 1, met := st.met + {place}), open)
  {
    forall r | r in st.seen && r !in open ensures Visited(src, st.met + {place}, r) { assert Visited(src, st.met, r); }
  }

  lemma OneMore(src: Heap, root: Ref, st: State, r: Ref, waiting: set<Ref>)
    requires Exact(src, root, st, waiting) && r in src && r !in st.seen && r !in waiting && Cloneable(src[r]) &&
        Reached(src, root, r)
    ensures Exact(src, root, st.(nodes := st.nodes + 1), waiting + {r})
  {
    hide Reached, HandlePlace;
    assert |waiting + {r}| == |waiting| + 1;
  }

  lemma Handle(src: Heap, root: Ref, st: State, r: Ref, waiting: set<Ref>, place: Place)
    requires Exact(src, root, st, waiting) && r in src && !Cloneable(src[r]) && Unmet(src, root, st, place, Obj(r))
    ensures Exact(src, root, st.(nodes := st.nodes + 1, met := st.met + {place}), waiting)
  {
    hide Reached;
    assert |st.met + {place}| == |st.met| + 1;
  }

  lemma TooHeavy(src: Heap, root: Ref, st: State, r: Ref, open: set<Ref>, waiting: set<Ref>, place: Place)
    requires Good(src, root, st, open, waiting) && st.nodes == MAX_NODES && Unmet(src, root, st, place, Obj(r))
    requires r in src && r !in st.seen && r !in waiting && Reached(src, root, r)
    ensures Weight(src, root) > MAX_NODES
  {
    hide Snapshot, WellFormed, Reached, Chain, Weight, AllMet;
    SnapshotKeys(src, st.heap, st.seen, open);
    if Cloneable(src[r]) {
      SizeOfThree(st.seen.Keys, waiting, r);
      CountedWeighs(src, root, st, open, waiting, st.seen.Keys + waiting + {r}, st.met);
    } else {
      assert |st.seen.Keys + waiting| == |st.seen.Keys| + |waiting|;
      assert |st.met + {place}| == |st.met| + 1;
      CountedWeighs(src, root, st, open, waiting, st.seen.Keys + waiting, st.met + {place});
    }
  }

  lemma SnapshotKeys(src: Heap, heap: Heap, seen: map<Ref, Ref>, open: set<Ref>)
    requires Snapshot(src, heap, seen, open)
    ensures open <= seen.Keys && forall r :: r in seen ==> r in src && Cloneable(src[r])
  {
  }

  lemma SizeOfThree(a: set<Ref>, b: set<Ref>, r: Ref)
    requires a !! b && r !in a && r !in b
    ensures |a + b + {r}| == |a| + |b| + 1
  {
    assert |a + b| == |a| + |b|;
  }

  lemma FillingFacts(src: Heap, root: Ref, a: State, b: State, r: Ref, open: set<Ref>, waiting: set<Ref>)
    requires Filling(src, root, a, b, r, open, waiting)
    ensures Good(src, root, b, open + {r}, waiting) && r in src && r in b.seen && b.seen[r] in b.heap && WellFormed(src)
  {
  }

  lemma EntryOnPath(src: Heap, root: Ref, path: seq<Ref>, r: Ref, entries: seq<(Value, Value)>, i: nat)
    requires WellFormed(src) && On(src, root, path + [r]) && r in src && src[r] == MapNode(entries) && i < |entries|
    ensures OnPath(src, root, path + [r], entries[i].0) && OnPath(src, root, path + [r], entries[i].1)
  {
    assert Children(src[r])[i] == entries[i].0 && Children(src[r])[|entries| + i] == entries[i].1;
    ChildOnPath(src, root, path, r, entries[i].0);
    ChildOnPath(src, root, path, r, entries[i].1);
  }

  lemma ItemOnPath(src: Heap, root: Ref, path: seq<Ref>, r: Ref, items: seq<Value>, i: nat)
    requires WellFormed(src) && On(src, root, path + [r]) && r in src && src[r] == SetNode(items) && i < |items|
    ensures OnPath(src, root, path + [r], items[i])
  {
    ChildOnPath(src, root, path, r, items[i]);
  }

  lemma PropOnPath(src: Heap, root: Ref, path: seq<Ref>, r: Ref, props: seq<Prop>, i: nat)
    requires WellFormed(src) && On(src, root, path + [r]) && r in src && Cloneable(src[r])
    requires IsRecord(src[r]) && PropsOf(src[r]) == props && i < |props| && props[i].Data?
    ensures OnPath(src, root, path + [r], props[i].value)
  {
    PropIsChild(props, i);
    ChildOnPath(src, root, path, r, props[i].value);
  }

  lemma ViewOnPath(src: Heap, root: Ref, st: State, path: seq<Ref>, r: Ref, open: set<Ref>)
    requires Ready(src, root, st, path, r, open, {}) && src[r].ViewNode?
    ensures OnPath(src, root, path + [r], Obj(src[r].buffer)) && src[src[r].buffer].BufferNode?
  {
    assert NodeOk(src, src[r]);
    assert Obj(src[r].buffer) in Children(src[r]);
    ChildOnPath(src, root, path, r, Obj(src[r].buffer));
  }

  /** Copying the buffer of a view leaves the view still to be copied. */
  lemma StillReady(src: Heap, root: Ref, a: State, b: State, path: seq<Ref>, r: Ref, open: set<Ref>)
    requires Ready(src, root, a, path, r, open, {}) && src[r].ViewNode? && Good(src, root, b, open, {r}) &&
        Grows(a, b, {In(r, 0)})
    requires src[r].buffer in src && src[src[r].buffer].BufferNode? && b.seen.Keys <= a.seen.Keys + {src[r].buffer}
    requires b.nodes <= MAX_NODES
    ensures Ready(src, root, b, path, r, open, {})
  {
    hide Snapshot, WellFormed, Reached, Chain;
  }

  lemma Chained(a: State, b: State, c: State, r: Ref)
    requires Grows(a, b, {In(r, 0)}) && Grows(b, c, {}) && r !in a.seen
    ensures Grows(a, c, {})
  {
  }
}
