/** The loops of the recursive snapshot of `src/context-shared.ts` over the entries of a map, the items
    of a set and the properties of a record: what holds before, during and after each. */
module ContextLoops {
  import opened ContextGraph
  import opened ContextSteps

  /** Sets: `i` items are copied; `done` are the positions looked at. */
  ghost predicate SetLoop(
    src: Heap, root: Ref, a: State, b: State, r: Ref, open: set<Ref>, items: seq<Value>, i: nat, done: set<nat>)
  {
    Filling(src, root, a, b, r, open, {}) && b.nodes <= MAX_NODES && src[r] == SetNode(items) && i <= |items| &&
    b.heap[b.seen[r]] == SetNode(ImageItems(b.seen, items[..i])) && AllCovered(src, b.seen, items[..i]) &&
    MetIn(src, b.met, r, done) && forall k: nat :: k in done <==> k < i
  }

  lemma SetBegins(src: Heap, root: Ref, a: State, b: State, path: seq<Ref>, r: Ref, open: set<Ref>, items: seq<Value>)
    requires Ready(src, root, a, path, r, open, {}) && src[r] == SetNode(items) && Filling(src, root, a, b, r, open, {})
    requires b.heap[b.seen[r]] == SetNode([]) && b.met == a.met && b.nodes == a.nodes
    ensures SetLoop(src, root, a, b, r, open, items, 0, {})
  {
    hide Filling, Good, MetIn, Chain;
    ReadyGood(src, root, a, path, r, open, {});
    FillingFacts(src, root, a, b, r, open, {});
    NothingMet(src, root, a, b, r, open, {r});
    NothingAdded(src, b.seen);
  }

  lemma SetNext(
    src: Heap, root: Ref, a: State, b: State, path: seq<Ref>, r: Ref, open: set<Ref>, items: seq<Value>, i: nat,
      done: set<nat>)
    requires SetLoop(src, root, a, b, r, open, items, i, done) && i < |items| && On(src, root, path + [r])
    ensures Good(src, root, b, open + {r}, {}) && b.nodes <= MAX_NODES && OnPath(src, root, path + [r], items[i])
    ensures Unmet(src, root, b, In(r, i), items[i])
  {
    hide Filling, Good, MetIn, Chain, AllCovered, On, Unmet;
    FillingFacts(src, root, a, b, r, open, {});
    ItemOnPath(src, root, path, r, items, i);
    ItemPlace(src, root, b, r, items, i, done);
  }

  lemma SetTakes(
    src: Heap, root: Ref, a: State, b: State, c: State, r: Ref, open: set<Ref>, items: seq<Value>, i: nat,
      done: set<nat>)
    requires SetLoop(src, root, a, b, r, open, items, i, done) && i < |items|
    requires Good(src, root, c, open + {r}, {}) && Grows(b, c, {In(r, i)}) && c.nodes <= MAX_NODES
    requires Covered(src, c.seen, items[i]) && (In(r, i) in c.met <==> IsHandle(src, items[i]))
    ensures r in c.seen && c.seen[r] in c.heap && c.heap[c.seen[r]].SetNode?
    ensures
      var content := SetNode(SetAdd(c.heap[c.seen[r]].items, Image(c.seen, items[i])));
      SetLoop(src, root, a, c.(heap := c.heap[c.seen[r] := content]), r, open, items, i + 1, done + {i})
  {
    hide Good, Grows, Filling, MetIn, AllCovered, Covered, Image, ImageItems, SetAdd, IsHandle;
    FillingFacts(src, root, a, b, r, open, {});
    Below(src, root, a, b, c, r, open, i);
    FillingFacts(src, root, a, c, r, open, {});
    SetChildren(src[r]);
    MetStep(src, b, c, r, done, i, items[i]);
    SetStep(src, root, b, c, {In(r, i)}, r, open, items, i);
    var content := SetNode(SetAdd(c.heap[c.seen[r]].items, Image(c.seen, items[i])));
    Write(src, root, a, c, r, open, {}, content);
  }

  lemma SetEnds(src: Heap, root: Ref, a: State, b: State, r: Ref, open: set<Ref>, items: seq<Value>, done: set<nat>)
    requires SetLoop(src, root, a, b, r, open, items, |items|, done)
    ensures Good(src, root, b, open, {}) && Grows(a, b, {}) && r in b.seen && b.nodes <= MAX_NODES &&
        SourceKept(src, b.heap)
  {
    hide Good, Grows, Filling, MetIn, AllCovered, ImageItems;
    FillingFacts(src, root, a, b, r, open, {});
    assert items[..|items|] == items;
    SetChildren(src[r]);
    MetWhole(src, b.met, r, done);
    End(src, root, a, b, r, open, {});
    Kept(src, root, b, open, {});
  }

  /** Maps: `i` entries are copied. Keys come before values among the positions. */
  ghost predicate MapLoop(
    src: Heap, root: Ref, a: State, b: State, r: Ref, open: set<Ref>, entries: seq<(Value, Value)>, i: nat,
      done: set<nat>)
  {
    Filling(src, root, a, b, r, open, {}) && b.nodes <= MAX_NODES && src[r] == MapNode(entries) && i <= |entries| &&
    b.heap[b.seen[r]] == MapNode(ImagePairs(b.seen, entries[..i])) &&
    AllCovered(src, b.seen, Children(MapNode(entries[..i]))) &&
    MetIn(src, b.met, r, done) && forall k: nat :: k in done <==> k < i || |entries| <= k < |entries| + i
  }

  lemma MapBegins(src: Heap, root: Ref, a: State, b: State, path: seq<Ref>, r: Ref, open: set<Ref>,
      entries: seq<(Value, Value)>)
    requires Ready(src, root, a, path, r, open, {}) && src[r] == MapNode(entries) &&
        Filling(src, root, a, b, r, open, {})
    requires b.heap[b.seen[r]] == MapNode([]) && b.met == a.met && b.nodes == a.nodes
    ensures MapLoop(src, root, a, b, r, open, entries, 0, {})
  {
    hide Filling, Good, MetIn, Chain, Children;
    ReadyGood(src, root, a, path, r, open, {});
    FillingFacts(src, root, a, b, r, open, {});
    NothingMet(src, root, a, b, r, open, {r});
    NothingMapped(src, b.seen);
  }

  lemma KeyNext(
    src: Heap, root: Ref, a: State, b: State, path: seq<Ref>, r: Ref, open: set<Ref>, entries: seq<(Value, Value)>,
      i: nat,
    done: set<nat>)
    requires MapLoop(src, root, a, b, r, open, entries, i, done) && i < |entries| && On(src, root, path + [r])
    ensures Good(src, root, b, open + {r}, {}) && b.nodes <= MAX_NODES && OnPath(src, root, path + [r], entries[i].0)
    ensures Unmet(src, root, b, In(r, i), entries[i].0)
  {
    hide Filling, Good, MetIn, Chain, AllCovered, On, Unmet, Children, ImagePairs;
    FillingFacts(src, root, a, b, r, open, {});
    EntryOnPath(src, root, path, r, entries, i);
    EntryPlaces(src, root, b, r, entries, i, done);
  }

  /** Between a key and its value. */
  lemma ValueNext(
    src: Heap, root: Ref, a: State, b: State, c: State, path: seq<Ref>, r: Ref, open: set<Ref>,
      entries: seq<(Value, Value)>, i: nat,
    done: set<nat>)
    requires MapLoop(src, root, a, b, r, open, entries, i, done) && i < |entries| && On(src, root, path + [r])
    requires Good(src, root, c, open + {r}, {}) && Grows(b, c, {In(r, i)}) &&
        (In(r, i) in c.met <==> IsHandle(src, entries[i].0))
    ensures OnPath(src, root, path + [r], entries[i].1) && Unmet(src, root, c, In(r, |entries| + i), entries[i].1)
    ensures Filling(src, root, a, c, r, open, {}) && Draft(c, r) == Draft(b, r) && MetIn(src, c.met, r, done + {i})
  {
    hide Filling, Good, MetIn, Chain, AllCovered, On, Unmet, Children, ImagePairs, Grows, IsHandle;
    FillingFacts(src, root, a, b, r, open, {});
    Below(src, root, a, b, c, r, open, i);
    FillingFacts(src, root, a, c, r, open, {});
    EntryOnPath(src, root, path, r, entries, i);
    EntryPlaces(src, root, b, r, entries, i, done);
    MetStep(src, b, c, r, done, i, entries[i].0);
    EntryPlaces(src, root, c, r, entries, i, done + {i});
  }

  /** The copy of `r`, as far as it is filled. */
  ghost function Draft(st: State, r: Ref): Node {
    if r in st.seen && st.seen[r] in st.heap then st.heap[st.seen[r]] else OpaqueNode(0)
  }

  ghost function Redrafted(st: State, r: Ref, content: Node): State {
    if r in st.seen then st.(heap := st.heap[st.seen[r] := content]) else st
  }

  /** The content of the copy after the next entry. */
  function WithEntry(n: Node, key: Value, value: Value): Node {
    if n.MapNode? then MapNode(MapSet(n.entries, key, value)) else n
  }

  lemma EntryTakes(
    src: Heap, root: Ref, a: State, b: State, c: State, d: State, r: Ref, open: set<Ref>, entries: seq<(Value, Value)>,
      i: nat,
    done: set<nat>, k: nat, key: Value, value: Value)
    requires i < |entries| && entries[i] == (key, value) && k == |entries| + i &&
        MapLoop(src, root, a, b, r, open, entries, i, done)
    requires Filling(src, root, a, c, r, open, {}) && Draft(c, r) == Draft(b, r) && Grows(b, c, {In(r, i)})
    requires MetIn(src, c.met, r, done + {i}) && Covered(src, c.seen, key)
    requires Good(src, root, d, open + {r}, {}) && Grows(c, d, {In(r, k)}) && d.nodes <= MAX_NODES
    requires Covered(src, d.seen, value) && (In(r, k) in d.met <==> IsHandle(src, value))
    ensures r in d.seen && Draft(d, r) == Draft(b, r)
    ensures
      var content := WithEntry(Draft(b, r), Image(c.seen, key), Image(d.seen, value));
      MapLoop(src, root, a, Redrafted(d, r, content), r, open, entries, i + 1, done + {i} + {k})
  {
    hide Good, Grows, Filling, MetIn, AllCovered, Covered, Image, ImagePairs, MapSet, IsHandle, Children, On, Unmet;
    FillingFacts(src, root, a, b, r, open, {});
    FillingFacts(src, root, a, c, r, open, {});
    Below(src, root, a, c, d, r, open, k);
    FillingFacts(src, root, a, d, r, open, {});
    EntryPlaces(src, root, c, r, entries, i, done + {i});
    MetStep(src, c, d, r, done + {i}, k, value);
    MapStep(src, root, b, c, d, {In(r, i)}, {In(r, k)}, r, open, entries, i);
    Write(src, root, a, d, r, open, {}, WithEntry(Draft(b, r), Image(c.seen, key), Image(d.seen, value)));
  }

  lemma MapDraft(
    src: Heap, root: Ref, a: State, b: State, d: State, r: Ref, open: set<Ref>, entries: seq<(Value, Value)>, i: nat,
      done: set<nat>)
    requires MapLoop(src, root, a, b, r, open, entries, i, done) && Draft(d, r) == Draft(b, r)
    ensures r in d.seen && d.seen[r] in d.heap && d.heap[d.seen[r]] == Draft(b, r)
  {
    hide Good, Grows, MetIn, AllCovered, ImagePairs, Children;
  }

  lemma MapEnds(src: Heap, root: Ref, a: State, b: State, r: Ref, open: set<Ref>, entries: seq<(Value, Value)>,
      done: set<nat>)
    requires MapLoop(src, root, a, b, r, open, entries, |entries|, done)
    ensures Good(src, root, b, open, {}) && Grows(a, b, {}) && r in b.seen && b.nodes <= MAX_NODES &&
        SourceKept(src, b.heap)
  {
    hide Good, Grows, Filling, MetIn, AllCovered, ImagePairs, Children;
    FillingFacts(src, root, a, b, r, open, {});
    assert entries[..|entries|] == entries;
    MapWhole(src, b.met, r, entries, done);
    End(src, root, a, b, r, open, {});
    Kept(src, root, b, open, {});
  }

  /** Errors, arrays and plain objects: `i` properties are copied or left out. */
  ghost predicate PropLoop(
    src: Heap, root: Ref, a: State, b: State, r: Ref, open: set<Ref>, props: seq<Prop>, i: nat, done: set<nat>)
  {
    Filling(src, root, a, b, r, open, {}) && b.nodes <= MAX_NODES && IsRecord(src[r]) && PropsOf(src[r]) == props &&
    i <= |props| &&
    b.heap[b.seen[r]] == WithProps(src[r], ImageProps(b.seen, props[..i])) &&
    AllCovered(src, b.seen, PropValues(props[..i])) &&
    MetIn(src, b.met, r, done) && forall k: nat :: k in done <==> k < |DataProps(props[..i])|
  }

  lemma PropBegins(src: Heap, root: Ref, a: State, b: State, path: seq<Ref>, r: Ref, open: set<Ref>, props: seq<Prop>)
    requires Ready(src, root, a, path, r, open, {}) && IsRecord(src[r]) && PropsOf(src[r]) == props &&
        Filling(src, root, a, b, r, open, {})
    requires b.heap[b.seen[r]] == WithProps(src[r], []) && b.met == a.met && b.nodes == a.nodes
    ensures PropLoop(src, root, a, b, r, open, props, 0, {})
  {
    hide Filling, Good, MetIn, Chain, WithProps, IsRecord;
    ReadyGood(src, root, a, path, r, open, {});
    FillingFacts(src, root, a, b, r, open, {});
    NothingMet(src, root, a, b, r, open, {r});
    NothingDefined(src, b.seen);
  }

  lemma PropNext(
    src: Heap, root: Ref, a: State, b: State, path: seq<Ref>, r: Ref, open: set<Ref>, props: seq<Prop>, i: nat,
      done: set<nat>)
    requires PropLoop(src, root, a, b, r, open, props, i, done) && i < |props| && props[i].Data? &&
        On(src, root, path + [r])
    requires Cloneable(src[r])
    ensures Good(src, root, b, open + {r}, {}) && b.nodes <= MAX_NODES && OnPath(src, root, path + [r], props[i].value)
    ensures Unmet(src, root, b, In(r, |DataProps(props[..i])|), props[i].value)
  {
    hide Filling, Good, MetIn, Chain, AllCovered, On, Unmet, DataProps, IsRecord, WithProps, ImageProps, PropValues,
      Cloneable;
    FillingFacts(src, root, a, b, r, open, {});
    PropOnPath(src, root, path, r, props, i);
    PropPlace(src, root, b, r, props, i, done);
  }

  lemma PropTakes(
    src: Heap, root: Ref, a: State, b: State, c: State, r: Ref, open: set<Ref>, props: seq<Prop>, i: nat,
      done: set<nat>, k: nat)
    requires PropLoop(src, root, a, b, r, open, props, i, done) && i < |props| && props[i].Data? &&
        k == |DataProps(props[..i])|
    requires Good(src, root, c, open + {r}, {}) && Grows(b, c, {In(r, k)}) && c.nodes <= MAX_NODES
    requires Covered(src, c.seen, props[i].value) && (In(r, k) in c.met <==> IsHandle(src, props[i].value))
    ensures r in src && IsRecord(src[r]) && r in c.seen && c.seen[r] in c.heap && IsRecord(c.heap[c.seen[r]])
    ensures
      var copied := PropsOf(c.heap[c.seen[r]]) +
        [Data(props[i].key, props[i].attributes, Image(c.seen, props[i].value))];
      PropLoop(src, root, a, c.(heap := c.heap[c.seen[r] := WithProps(src[r], copied)]), r, open, props, i + 1,
        done + {k})
  {
    hide Good, Grows, Filling, MetIn, AllCovered, Covered, Image, ImageProps, PropValues, IsHandle, DataProps,
      IsRecord, WithProps, Unmet;
    FillingFacts(src, root, a, b, r, open, {});
    Below(src, root, a, b, c, r, open, k);
    FillingFacts(src, root, a, c, r, open, {});
    PropPlace(src, root, b, r, props, i, done);
    MetStep(src, b, c, r, done, k, props[i].value);
    PropStep(src, root, b, c, {In(r, k)}, r, open, props, i);
    var copied := PropsOf(c.heap[c.seen[r]]) + [Data(props[i].key, props[i].attributes, Image(c.seen, props[i].value))];
    Write(src, root, a, c, r, open, {}, WithProps(src[r], copied));
  }

  lemma PropSkips(src: Heap, root: Ref, a: State, b: State, r: Ref, open: set<Ref>, props: seq<Prop>, i: nat,
      done: set<nat>)
    requires PropLoop(src, root, a, b, r, open, props, i, done) && i < |props| && props[i].Accessor?
    ensures PropLoop(src, root, a, b, r, open, props, i + 1, done)
  {
    hide Filling, MetIn, WithProps, ImageProps, AllCovered, IsRecord;
    AccessorStep(src, b.seen, props, i);
    PropsSnoc(props, i);
    assert DataProps(props[..i]) + [] == DataProps(props[..i]);
  }

  lemma PropEnds(src: Heap, root: Ref, a: State, b: State, r: Ref, open: set<Ref>, props: seq<Prop>, done: set<nat>)
    requires PropLoop(src, root, a, b, r, open, props, |props|, done)
    ensures Good(src, root, b, open, {}) && Grows(a, b, {}) && r in b.seen && b.nodes <= MAX_NODES &&
        SourceKept(src, b.heap)
  {
    hide Good, Grows, Filling, MetIn, AllCovered, ImageProps, IsRecord, WithProps, PropValues, DataProps, Children;
    FillingFacts(src, root, a, b, r, open, {});
    assert props[..|props|] == props;
    RecordImage(b.seen, src[r]);
    RecordWhole(src, b.met, r, props, done);
    End(src, root, a, b, r, open, {});
    Kept(src, root, b, open, {});
  }
}
