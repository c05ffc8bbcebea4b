/** The recursive snapshot of `src/context-shared.ts`: a depth-first copy that shares its `seen`
    table and node counter between all levels of the recursion. */
module ContextClone {
  import opened ContextGraph
  import opened ContextSteps
  import opened ContextLoops

  /** The two range errors, or the copy. */
  datatype Result = TooDeep | TooMany | Copied(value: Value)

  class Cloner {
    /** The source graph and the copies made so far. */
    var heap: Heap
    var seen: map<Ref, Ref>
    var nodes: nat
    var next: Ref
    ghost const src: Heap
    ghost const root: Ref
    /** Where handles were met. */
    ghost var met: set<Place>

    ghost function Now(): State
      reads this
    {
      State(heap, seen, nodes, next, met)
    }

    constructor (heap: Heap, next: Ref, ghost root: Ref)
      requires WellFormed(heap) && forall r :: r in heap ==> r < next
      ensures src == heap && this.root == root && Now() == State(heap, map[], 0, next, {}) &&
          Good(src, root, Now(), {}, {})
    {
      this.heap, this.seen, this.nodes, this.next := heap, map[], 0, next;
      this.src, this.root, this.met := heap, root, {};
    }

    /** An error is reported for the reason it names; the source is what it was even then. */
    ghost predicate Justified(result: Result)
      reads this
    {
      SourceKept(src, heap) &&
      (result.TooDeep? ==> exists path :: |path| == MAX_DEPTH + 2 && On(src, root, path)) &&
      (result.TooMany? ==> Weight(src, root) > MAX_NODES)
    }

    /** What copying the children of `r` and filling its copy achieves. */
    twostate predicate Made(result: Result, r: Ref, open: set<Ref>, waiting: set<Ref>)
      reads this
    {
      Justified(result) &&
      (result.Copied? ==>
         Good(src, root, Now(), open, waiting) && Grows(old(Now()), Now(), {}) && nodes <= MAX_NODES && r in seen &&
         result.value == Obj(seen[r]))
    }

    /** `cloneContextValueInternal`; `path` leads from the root to the object that holds `value`, at
        `place`. */
    method Clone(value: Value, depth: nat, ghost path: seq<Ref>, ghost place: Place, ghost open: set<Ref>,
        ghost waiting: set<Ref>)
      returns (result: Result)
      requires Good(src, root, Now(), open, waiting) && nodes <= MAX_NODES && depth == |path| <= MAX_DEPTH + 1
      requires OnPath(src, root, path, value) && Unmet(src, root, Now(), place, value)
      requires waiting != {} ==> value.Obj? && src[value.ref].BufferNode? && value.ref !in waiting
      modifies this
      ensures Justified(result)
      ensures result.Copied? ==>
                Good(src, root, Now(), open, waiting) && Grows(old(Now()), Now(), {place}) && nodes <= MAX_NODES
      ensures result.Copied? ==>
                result.value == Image(seen, value) && Covered(src, seen, value) &&
                (place in met <==> IsHandle(src, value))
      ensures value.Atom? ==> result == Copied(value) && seen == old(seen)
      ensures result.Copied? && value.Obj? && src[value.ref].BufferNode? ==> value.ref in seen
      ensures result.Copied? && value.Obj? && src[value.ref].BufferNode? ==> seen.Keys <= old(seen).Keys + {value.ref}
      decreases MAX_DEPTH + 1 - depth, 1
    {
      hide Good, Grows, Chain, On, Ready, Weight, SourceKept, DataProps, Unmet, Children;
      Kept(src, root, Now(), open, waiting);
      StayedStill(Now(), {place});
      UnmetFacts(src, root, Now(), place, value);
      if value.Atom? { return Copied(value); }
      if depth > MAX_DEPTH {
        assert |path + [value.ref]| == MAX_DEPTH + 2;
        return TooDeep;
      }
      var r := value.ref;
      if r in seen {
        SeenIsNoHandle(src, root, Now(), open, waiting, r);
        return Copied(Obj(seen[r]));
      }
      Counted(src, root, Now(), path, r, open, waiting, place);
      ghost var before := Now();
      nodes := nodes + 1;
      if nodes > MAX_NODES { return TooMany; }
      var n := heap[r];
      if !Cloneable(n) {
        met := met + {place};
        HandleGrows(before, Now(), place);
        return Copied(value);
      }
      if n.DateNode? || n.RegExpNode? || n.BufferNode? {
        result := CloneLeaf(r, path, open, waiting);
      } else if n.MapNode? {
        result := CloneMap(r, n.entries, depth, path, open);
      } else if n.SetNode? {
        result := CloneSet(r, n.items, depth, path, open);
      } else if n.ViewNode? {
        result := CloneView(r, n, depth, path, open);
      } else {
        result := CloneRecord(r, n, PropsOf(n), depth, path, open);
      }
      if result.Copied? {
        CopyGrows(before, Now(), place);
        HolderStays(src, root, before, place, value);
        NotMet(src, root, Now(), open, waiting, place, value);
      }
    }

    /** Allocates the copy of `r`, to be filled. */
    method Allocate(r: Ref, content: Node, ghost path: seq<Ref>, ghost open: set<Ref>, ghost waiting: set<Ref>)
      requires Ready(src, root, Now(), path, r, open, waiting)
      modifies this`heap, this`seen, this`next
      ensures Filling(src, root, old(Now()), Now(), r, open, waiting) && heap[seen[r]] == content
      ensures seen == old(seen)[r := seen[r]]
    {
      hide Filling, Ready;
      Begin(src, root, Now(), path, r, open, waiting, content);
      var copy := next;
      heap := heap[copy := content];
      seen := seen[r := copy];
      next := next + 1;
    }

    /** Dates, regular expressions and buffers hold no references. */
    method CloneLeaf(r: Ref, ghost path: seq<Ref>, ghost open: set<Ref>, ghost waiting: set<Ref>)
        returns (result: Result)
      requires Ready(src, root, Now(), path, r, open, waiting) && r in heap && heap[r] == src[r]
      requires src[r].DateNode? || src[r].RegExpNode? || src[r].BufferNode?
      modifies this`heap, this`seen, this`next
      ensures Made(result, r, open, waiting) && result.Copied? && seen.Keys == old(seen).Keys + {r}
    {
      hide Good, Grows, Chain, ImageNode;
      Allocate(r, heap[r], path, open, waiting);
      LeafImage(src, seen, src[r]);
      NoChildren(src, met, r);
      End(src, root, old(Now()), Now(), r, open, waiting);
      Kept(src, root, Now(), open, waiting);
      return Copied(Obj(seen[r]));
    }

    method CloneMap(r: Ref, entries: seq<(Value, Value)>, depth: nat, ghost path: seq<Ref>, ghost open: set<Ref>)
      returns (result: Result)
      requires Ready(src, root, Now(), path, r, open, {}) && src[r] == MapNode(entries) && depth == |path| <= MAX_DEPTH
      modifies this
      ensures Made(result, r, open, {})
      decreases MAX_DEPTH + 1 - depth, 0
    {
      hide Good, Grows, Chain, Filling, Covered, AllCovered, Image, Children, MetIn, Unmet, IsHandle, Ready, On,
        OnPath, SourceKept, Weight,
        ImagePairs, MapSet, MapLoop, WithEntry, Draft;
      ReadyGood(src, root, Now(), path, r, open, {});
      Allocate(r, MapNode([]), path, open, {});
      ghost var done: set<nat> := {};
      MapBegins(src, root, old(Now()), Now(), path, r, open, entries);
      for i := 0 to |entries|
        invariant MapLoop(src, root, old(Now()), Now(), r, open, entries, i, done)
      {
        ghost var a := Now();
        KeyNext(src, root, old(Now()), a, path, r, open, entries, i, done);
        var key := Clone(entries[i].0, depth + 1, path + [r], In(r, i), open + {r}, {});
        if !key.Copied? { return key; }
        ghost var b := Now();
        ValueNext(src, root, old(Now()), a, b, path, r, open, entries, i, done);
        var value := Clone(entries[i].1, depth + 1, path + [r], In(r, |entries| + i), open + {r}, {});
        if !value.Copied? { return value; }
        EntryTakes(src, root, old(Now()), a, b, Now(), r, open, entries, i, done, |entries| + i, entries[i].0,
          entries[i].1);
        MapDraft(src, root, old(Now()), a, Now(), r, open, entries, i, done);
        heap := heap[seen[r] := WithEntry(heap[seen[r]], key.value, value.value)];
        done := done + {i} + {|entries| + i};
      }
      MapEnds(src, root, old(Now()), Now(), r, open, entries, done);
      return Copied(Obj(seen[r]));
    }

    method CloneSet(r: Ref, items: seq<Value>, depth: nat, ghost path: seq<Ref>, ghost open: set<Ref>)
      returns (result: Result)
      requires Ready(src, root, Now(), path, r, open, {}) && src[r] == SetNode(items) && depth == |path| <= MAX_DEPTH
      modifies this
      ensures Made(result, r, open, {})
      decreases MAX_DEPTH + 1 - depth, 0
    {
      hide Good, Grows, Chain, Filling, Covered, AllCovered, Image, Children, MetIn, Unmet, IsHandle, Ready, On,
        OnPath, SourceKept, Weight,
        ImageItems, SetAdd, SetLoop;
      ReadyGood(src, root, Now(), path, r, open, {});
      Allocate(r, SetNode([]), path, open, {});
      ghost var done: set<nat> := {};
      SetBegins(src, root, old(Now()), Now(), path, r, open, items);
      for i := 0 to |items|
        invariant SetLoop(src, root, old(Now()), Now(), r, open, items, i, done)
      {
        ghost var a := Now();
        SetNext(src, root, old(Now()), a, path, r, open, items, i, done);
        var item := Clone(items[i], depth + 1, path + [r], In(r, i), open + {r}, {});
        if !item.Copied? { return item; }
        SetTakes(src, root, old(Now()), a, Now(), r, open, items, i, done);
        heap := heap[seen[r] := SetNode(SetAdd(heap[seen[r]].items, item.value))];
        done := done + {i};
      }
      SetEnds(src, root, old(Now()), Now(), r, open, items, done);
      return Copied(Obj(seen[r]));
    }

    /** A view is built over the copy of its buffer. */
    method CloneView(r: Ref, n: Node, depth: nat, ghost path: seq<Ref>, ghost open: set<Ref>) returns (result: Result)
      requires Ready(src, root, Now(), path, r, open, {}) && src[r] == n && n.ViewNode? && depth == |path| <= MAX_DEPTH
      modifies this
      ensures Made(result, r, open, {})
      decreases MAX_DEPTH + 1 - depth, 0
    {
      hide Good, Grows, Chain, Filling, ImageNode, AllCovered, Cloneable, Unmet, IsHandle, Visited;
      ViewOnPath(src, root, Now(), path, r, open);
      ReadyGood(src, root, Now(), path, r, open, {});
      BufferPlace(src, root, Now(), path, r, open);
      var buffer := Clone(Obj(n.buffer), depth + 1, path + [r], In(r, 0), open, {r});
      if !buffer.Copied? { return buffer; }
      StillReady(src, root, old(Now()), Now(), path, r, open);
      ghost var a := Now();
      Allocate(r, ViewNode(n.kind, buffer.value.ref, n.offset, n.length), path, open, {});
      FillingFacts(src, root, a, Now(), r, open, {});
      ViewImage(src, seen, n);
      NoHandleInView(src, met, r);
      End(src, root, a, Now(), r, open, {});
      Chained(old(Now()), a, Now(), r);
      Kept(src, root, Now(), open, {});
      return Copied(Obj(seen[r]));
    }

    /** Errors, arrays and plain objects: `cloneOwnDataProperties` skips accessors. */
    method CloneRecord(r: Ref, n: Node, props: seq<Prop>, depth: nat, ghost path: seq<Ref>, ghost open: set<Ref>)
      returns (result: Result)
      requires Ready(src, root, Now(), path, r, open, {}) && src[r] == n && depth == |path| <= MAX_DEPTH
      requires IsRecord(n) && PropsOf(n) == props
      modifies this
      ensures Made(result, r, open, {})
      decreases MAX_DEPTH + 1 - depth, 0
    {
      hide Good, Grows, Chain, Filling, Covered, AllCovered, Image, Children, MetIn, Unmet, IsHandle, Ready, On,
        OnPath, SourceKept, Weight,
        ImageProps, PropValues, DataProps, WithProps, IsRecord, PropsOf, PropLoop;
      ReadyGood(src, root, Now(), path, r, open, {});
      Allocate(r, WithProps(n, []), path, open, {});
      ghost var done: set<nat> := {};
      PropBegins(src, root, old(Now()), Now(), path, r, open, props);
      for i := 0 to |props|
        invariant PropLoop(src, root, old(Now()), Now(), r, open, props, i, done)
      {
        ghost var a := Now();
        if props[i].Data? {
          ghost var k := |DataProps(props[..i])|;
          PropNext(src, root, old(Now()), a, path, r, open, props, i, done);
          var value := Clone(props[i].value, depth + 1, path + [r], In(r, k), open + {r}, {});
          if !value.Copied? { return value; }
          PropTakes(src, root, old(Now()), a, Now(), r, open, props, i, done, k);
          var copied := PropsOf(heap[seen[r]]) + [Data(props[i].key, props[i].attributes, value.value)];
          heap := heap[seen[r] := WithProps(n, copied)];
          done := done + {k};
        } else {
          PropSkips(src, root, old(Now()), a, r, open, props, i, done);
        }
      }
      PropEnds(src, root, old(Now()), Now(), r, open, props, done);
      return Copied(Obj(seen[r]));
    }
  }

  /** A snapshot of `src` that stands on its own: it covers the root value, holds exactly the cloned
      nodes that the root value leads to, and adds nothing else to the heap. */
  ghost predicate IsSnapshotOf(src: Heap, heap: Heap, seen: map<Ref, Ref>, value: Value) {
    Snapshot(src, heap, seen, {}) && Covered(src, seen, value) &&
    forall r :: r in seen <==> r in src && value.Obj? && Cloneable(src[r]) && Reached(src, value.ref, r)
  }

  /** `cloneContextValue`: the result is the root of a snapshot of a graph that is within the node
      limit, or the graph is too heavy, or it has a path that is too long. The source is untouched. */
  method CloneContextValue(heap: Heap, next: Ref, value: Value)
    returns (result: Result, after: Heap, ghost seen: map<Ref, Ref>)
    requires WellFormed(heap) && (forall r :: r in heap ==> r < next) && (value.Obj? ==> value.ref in heap)
    ensures SourceKept(heap, after)
    ensures result.Copied? ==>
              IsSnapshotOf(heap, after, seen, value) && result.value == Image(seen, value) &&
              (value.Obj? ==> Weight(heap, value.ref) <= MAX_NODES)
    ensures result.TooDeep? ==> value.Obj? && exists path :: |path| == MAX_DEPTH + 2 && On(heap, value.ref, path)
    ensures result.TooMany? ==> value.Obj? && Weight(heap, value.ref) > MAX_NODES
  {
    var cloner := new Cloner(heap, next, if value.Obj? then value.ref else 0);
    result := cloner.Clone(value, 0, [], Start, {}, {});
    after, seen := cloner.heap, cloner.seen;
    if result.Copied? && value.Obj? {
      AllReached(heap, after, seen, value);
      SnapshotIsCopies(heap, after, seen, value);
      DoneWeighs(heap, value.ref, cloner.Now());
    }
  }

  lemma AllReached(src: Heap, heap: Heap, seen: map<Ref, Ref>, value: Value)
    requires Snapshot(src, heap, seen, {}) && Covered(src, seen, value) && value.Obj?
    requires forall r :: r in seen ==> Reached(src, value.ref, r)
    ensures IsSnapshotOf(src, heap, seen, value)
  {
    forall r | r in src && Cloneable(src[r]) && Reached(src, value.ref, r) ensures r in seen {
      var path :| Chain(src, path) && path != [] && path[0] == value.ref && path[|path| - 1] == r;
      SnapshotIsComplete(src, heap, seen, path);
    }
  }

  /** What a snapshot copies is what the weight counts. */
  lemma SnapshotIsCopies(src: Heap, heap: Heap, seen: map<Ref, Ref>, value: Value)
    requires IsSnapshotOf(src, heap, seen, value) && value.Obj?
    ensures forall r :: r in seen <==> r in Copies(src, value.ref)
  {
  }

  // ---------------------------------------------------------------- handles weigh as often as they are met

  /** An array of `n` references to one class instance. */
  function Shared(n: nat): Heap {
    map[0 := ArrayNode(n, References(n)), 1 := OpaqueNode(0)]
  }

  function References(n: nat): seq<Prop> { seq(n, i => Data(i, 0, Obj(1))) }

  lemma SharedFacts(n: nat)
    ensures
      var src := Shared(n);
      WellFormed(src) && Cloneable(src[0]) && !Cloneable(src[1]) && Children(src[0]) == seq(n, i => Obj(1))
  {
    DataPropsOfData(References(n));
    assert Children(Shared(n)[0]) == seq(n, i => Obj(1));
  }

  lemma SharedIsReached(n: nat)
    ensures Reached(Shared(n), 0, 0)
  {
    hide Children, Cloneable;
    assert OnChain(Shared(n), [0], 0);
    assert Chain(Shared(n), [0]) && [0][0] == 0;
  }

  /** A graph of two nodes can weigh anything: with 10,000 references it is over the limit. */
  lemma SharedHandlesWeigh(n: nat)
    ensures WellFormed(Shared(n)) && |Shared(n)| == 2 && Weight(Shared(n), 0) == n + 1
  {
    hide Reached, Children, Cloneable, WellFormed;
    var src := Shared(n);
    SharedFacts(n);
    SharedIsReached(n);
    assert Copies(src, 0) == {0};
    forall p ensures p in HandlePlaces(src, 0) <==> p in Positions(n) { }
    assert HandlePlaces(src, 0) == Positions(n);
    PositionsSize(n);
  }

  ghost function Positions(n: nat): set<Place> { set k | 0 <= k < n :: In(0, k) }

  lemma {:induction false} PositionsSize(n: nat)
    ensures |Positions(n)| == n
  {
    if n > 0 {
      PositionsSize(n - 1);
      assert Positions(n) == Positions(n - 1) + {In(0, n - 1)};
    }
  }
}
