/** The two histograms of the repository, cumulative (`src/prometheus.ts`) and disjoint
    (`src/apm.ts`), told by the values observed, and the label budget of `src/prometheus.ts`.
    Values are real numbers. */
module HistogramSpec {
  import opened Common

  function Sum(values: seq<real>): real {
    if values == [] then 0.0 else Sum(values[..|values| - 1]) + values[|values| - 1]
  }

  /** How many of the values are at most `bound`. */
  function AtMost(values: seq<real>, bound: real): nat {
    if values == [] then 0
    else AtMost(values[..|values| - 1], bound) + if values[|values| - 1] <= bound then 1 else 0
  }

  predicate Increasing(bounds: seq<real>) {
    forall i, j :: 0 <= i < j < |bounds| ==> bounds[i] < bounds[j]
  }

  lemma Observed(values: seq<real>, v: real, bound: real)
    ensures Sum(values + [v]) == Sum(values) + v &&
        AtMost(values + [v], bound) == AtMost(values, bound) + if v <= bound then 1 else 0
  {
    assert (values + [v])[..|values|] == values;
  }

  // ---------------------------------------------------------------- cumulative

  datatype Series = Series(buckets: seq<nat>, count: nat, sum: real)

  /** Bucket `i` counts the values up to bound `i`. */
  ghost predicate Cumulates(bounds: seq<real>, s: Series, values: seq<real>) {
    |s.buckets| == |bounds| && s.count == |values| && s.sum == Sum(values) &&
    forall i :: 0 <= i < |bounds| ==> s.buckets[i] == AtMost(values, bounds[i])
  }

  function EmptySeries(bounds: seq<real>): Series { Series(seq(|bounds|, _ => 0), 0, 0.0) }

  // ---------------------------------------------------------------- disjoint

  datatype Latencies = Latencies(bounds: seq<real>, counts: seq<nat>, count: nat, sum: real)

  /** `findIndex`: the first bound that is not below the value. */
  function BucketOf(bounds: seq<real>, v: real, i: nat): (bucket: nat)
    requires i <= |bounds|
    ensures i <= bucket <= |bounds|
    ensures bucket < |bounds| ==> v <= bounds[bucket]
    ensures forall j :: i <= j < bucket ==> bounds[j] < v
    decreases |bounds| - i
  {
    if i == |bounds| || v <= bounds[i] then i else BucketOf(bounds, v, i + 1)
  }

  function EmptyLatencies(bounds: seq<real>): Latencies { Latencies(bounds, seq(|bounds| + 1, _ => 0), 0, 0.0) }

  function RecordLatency(s: Latencies, v: real): Latencies
    requires |s.counts| == |s.bounds| + 1
  {
    var bucket := BucketOf(s.bounds, v, 0);
    s.(counts := s.counts[bucket := s.counts[bucket] + 1], count := s.count + 1, sum := s.sum + v)
  }

  function RecordAll(bounds: seq<real>, values: seq<real>): (s: Latencies)
    ensures s.bounds == bounds && |s.counts| == |bounds| + 1
  {
    if values == [] then EmptyLatencies(bounds)
      else RecordLatency(RecordAll(bounds, values[..|values| - 1]), values[|values| - 1])
  }

  function Total(counts: seq<nat>): nat {
    if counts == [] then 0 else Total(counts[..|counts| - 1]) + counts[|counts| - 1]
  }

  lemma {:induction false} TotalOfUpdate(counts: seq<nat>, bucket: nat, k: nat)
    requires bucket < |counts| && k <= |counts|
    ensures Total(counts[bucket := counts[bucket] + 1][..k]) == Total(counts[..k]) + if bucket < k then 1 else 0
    decreases k
  {
    if k > 0 {
      var more := counts[bucket := counts[bucket] + 1];
      TotalOfUpdate(counts, bucket, k - 1);
      assert more[..k][..k - 1] == more[..k - 1] && counts[..k][..k - 1] == counts[..k - 1];
    } else { assert counts[bucket := counts[bucket] + 1][..0] == [] && counts[..0] == []; }
  }

  lemma {:induction false} TotalOfZeros(counts: seq<nat>)
    requires forall i :: 0 <= i < |counts| ==> counts[i] == 0
    ensures Total(counts) == 0
  {
    if counts != [] { TotalOfZeros(counts[..|counts| - 1]); }
  }

  /** Main theorem on buckets: the disjoint buckets total the number of values, and up to bound `i`
      they total what the cumulative bucket `i` counts. */
  lemma {:induction false} HistogramsAgree(bounds: seq<real>, values: seq<real>, i: nat)
    requires Increasing(bounds) && i < |bounds|
    ensures
      var s := RecordAll(bounds, values);
      Total(s.counts[..i + 1]) == AtMost(values, bounds[i]) && Total(s.counts) == s.count == |values| &&
      s.sum == Sum(values)
    decreases |values|
  {
    hide RecordLatency, BucketOf;
    var s := RecordAll(bounds, values);
    if values == [] {
      TotalOfZeros(s.counts[..i + 1]);
      TotalOfZeros(s.counts);
    } else {
      var before := RecordAll(bounds, values[..|values| - 1]);
      HistogramsAgree(bounds, values[..|values| - 1], i);
      OneMore(before, values[|values| - 1], i);
    }
  }

  lemma OneMore(before: Latencies, v: real, i: nat)
    requires |before.counts| == |before.bounds| + 1 && Increasing(before.bounds) && i < |before.bounds|
    ensures
      var s := RecordLatency(before, v);
      s.count == before.count + 1 && s.sum == before.sum + v && |s.counts| == |before.counts| &&
      Total(s.counts) == Total(before.counts) + 1 &&
      Total(s.counts[..i + 1]) == Total(before.counts[..i + 1]) + if v <= before.bounds[i] then 1 else 0
  {
    hide BucketOf, Total;
    var s := RecordLatency(before, v);
    var bucket := BucketOf(before.bounds, v, 0);
    TotalOfUpdate(before.counts, bucket, i + 1);
    TotalOfUpdate(before.counts, bucket, |before.counts|);
    assert s.counts[..|s.counts|] == s.counts && before.counts[..|before.counts|] == before.counts;
    BucketCovers(before.bounds, v, i);
  }

  lemma BucketCovers(bounds: seq<real>, v: real, i: nat)
    requires Increasing(bounds) && i < |bounds|
    ensures BucketOf(bounds, v, 0) <= i <==> v <= bounds[i]
  {
    var bucket := BucketOf(bounds, v, 0);
    if bucket < i { assert bounds[bucket] < bounds[i]; }
  }

  // ---------------------------------------------------------------- label budget

  type Key = string

  /** The labels of a metric: `overflow` is the key of the overflow series. Without label names there
      is one key only. */
  datatype Labels = Labels(named: bool, maximumSeries: int, overflow: Key)

  function Budget(l: Labels): nat { if l.maximumSeries > 1 then l.maximumSeries - 1 else 0 }

  /** `labels`: the series that a value recorded under `key` goes to. */
  function Route(l: Labels, table: set<Key>, key: Key): Key {
    if key in table || !l.named || |table - {l.overflow}| < Budget(l) then key else l.overflow
  }

  datatype Entry = Entry(key: Key, value: real)

  /** The values recorded under a key, or under none of the given keys. */
  function Under(history: seq<Entry>, key: Key): seq<real> {
    if history == [] then []
    else
      var last := history[|history| - 1];
      Under(history[..|history| - 1], key) + if last.key == key then [last.value] else []
  }

  function Beside(history: seq<Entry>, keys: set<Key>): seq<real> {
    if history == [] then []
    else
      var last := history[|history| - 1];
      Beside(history[..|history| - 1], keys) + if last.key !in keys then [last.value] else []
  }

  /** What a series stands for: an ordinary one for exactly the values under its key, the overflow
      series for all that have no series of their own. */
  function Standing(l: Labels, table: set<Key>, history: seq<Entry>, key: Key): seq<real> {
    if l.named && key == l.overflow then Beside(history, table - {l.overflow}) else Under(history, key)
  }

  /** The table stays within its budget, and whoever came too late found the budget used up. */
  ghost predicate TableInv(l: Labels, table: set<Key>, history: seq<Entry>) {
    (l.named ==> |table - {l.overflow}| <= Budget(l)) &&
    (!l.named ==> table <= {l.overflow} && forall i :: 0 <= i < |history| ==> history[i].key == l.overflow) &&
    (forall i :: 0 <= i < |history| ==>
      history[i].key in table || (l.named && |table - {l.overflow}| >= Budget(l) && l.overflow in table))
  }

  /** There are never more series than the cap, one at least. */
  lemma SizeBound(l: Labels, table: set<Key>, history: seq<Entry>)
    requires TableInv(l, table, history)
    ensures |table| <= if l.maximumSeries > 1 then l.maximumSeries else 1
  {
    if l.named {
      assert table <= (table - {l.overflow}) + {l.overflow};
      SubsetSize(table, (table - {l.overflow}) + {l.overflow});
    } else { SubsetSize(table, {l.overflow}); }
  }

  /** Recording keeps the table in order. */
  lemma RouteKeeps(l: Labels, table: set<Key>, history: seq<Entry>, key: Key, value: real)
    requires TableInv(l, table, history) && (!l.named ==> key == l.overflow)
    ensures TableInv(l, table + {Route(l, table, key)}, history + [Entry(key, value)])
  {
    var used := Route(l, table, key);
    var more, later := table + {used}, history + [Entry(key, value)];
    RouteSize(l, table, key);
    forall i | 0 <= i < |later|
      ensures later[i].key in more || (l.named && |more - {l.overflow}| >= Budget(l) && l.overflow in more)
      ensures !l.named ==> later[i].key == l.overflow
    {
      if i < |history| { assert later[i] == history[i]; } else { assert later[i].key == key; }
    }
  }

  lemma RouteSize(l: Labels, table: set<Key>, key: Key)
    ensures
      var used := Route(l, table, key);
      var room := table - {l.overflow};
      (used == key || (used == l.overflow && l.named && |room| >= Budget(l))) &&
      |(table + {used}) - {l.overflow}| == |room| + if used == l.overflow || key in table then 0 else 1
    ensures |table - {l.overflow}| <= Budget(l) && l.named ==>
        |(table + {Route(l, table, key)}) - {l.overflow}| <= Budget(l)
  {
    var used := Route(l, table, key);
    var more := table + {used};
    if used == l.overflow {
      assert more - {l.overflow} == table - {l.overflow};
    } else if key !in table {
      assert more - {l.overflow} == (table - {l.overflow}) + {used};
    } else { assert more == table; }
  }

  lemma {:induction false} UnderNothing(history: seq<Entry>, key: Key)
    requires forall i :: 0 <= i < |history| ==> history[i].key != key
    ensures Under(history, key) == []
  {
    if history != [] { UnderNothing(history[..|history| - 1], key); }
  }

  lemma {:induction false} BesideSame(history: seq<Entry>, keys: set<Key>, more: set<Key>)
    requires forall i :: 0 <= i < |history| ==> (history[i].key in keys <==> history[i].key in more)
    ensures Beside(history, keys) == Beside(history, more)
  {
    if history != [] { BesideSame(history[..|history| - 1], keys, more); }
  }

  /** Recording adds the value to the series it is routed to and leaves the others as they are; a new
      series starts from nothing. */
  lemma RouteStands(l: Labels, table: set<Key>, history: seq<Entry>, key: Key, value: real, other: Key)
    requires TableInv(l, table, history) && (!l.named ==> key == l.overflow)
    ensures
      var used := Route(l, table, key);
      var now := Standing(l, table + {used}, history + [Entry(key, value)], other);
      (other == used ==> now == (if used in table then Standing(l, table, history, used) else []) + [value]) &&
      (other != used && other in table ==> now == Standing(l, table, history, other))
  {
    var used := Route(l, table, key);
    var more := table + {used};
    assert (history + [Entry(key, value)])[..|history|] == history;
    if used !in table && used != l.overflow { UnderNothing(history, used); }
    if used !in table && !l.named { UnderNothing(history, used); }
    BesideSame(history, table - {l.overflow}, more - {l.overflow});
    if l.named && used == l.overflow && used !in table {
      assert more - {l.overflow} == table - {l.overflow};
      BesideNothing(history, table - {l.overflow});
    }
  }

  lemma {:induction false} BesideNothing(history: seq<Entry>, keys: set<Key>)
    requires forall i :: 0 <= i < |history| ==> history[i].key in keys
    ensures Beside(history, keys) == []
  {
    if history != [] { BesideNothing(history[..|history| - 1], keys); }
  }

  lemma UnderOneMore(history: seq<Entry>, key: Key, value: real, other: Key)
    ensures Under(history + [Entry(key, value)], other) ==
            if other == key then Under(history, other) + [value] else Under(history, other)
  {
    assert (history + [Entry(key, value)])[..|history|] == history;
    assert Under(history, other) + [] == Under(history, other);
  }

  // ---------------------------------------------------------------- conservation

  function AllValues(history: seq<Entry>): seq<real> {
    seq(|history|, i requires 0 <= i < |history| => history[i].value)
  }

  /** The sum over all series. */
  ghost function Everything(values: map<Key, real>): real {
    if values == map[] then 0.0
    else
      var k :| k in values;
      values[k] + Everything(values - {k})
  }

  lemma {:induction false} TakeOut(values: map<Key, real>, k: Key)
    requires k in values
    ensures Everything(values) == values[k] + Everything(values - {k})
    decreases |values|
  {
    var first :| first in values && Everything(values) == values[first] + Everything(values - {first});
    if first != k {
      TakeOut(values - {first}, k);
      TakeOut(values - {k}, first);
      assert values - {first} - {k} == values - {k} - {first};
    }
  }

  lemma EverythingGrows(values: map<Key, real>, k: Key, v: real)
    ensures Everything(values[k := v]) == Everything(values) - (if k in values then values[k] else 0.0) + v
  {
    TakeOut(values[k := v], k);
    if k in values {
      TakeOut(values, k);
      assert values[k := v] - {k} == values - {k};
    } else { assert values[k := v] - {k} == values; }
  }

  /** Every series is the sum of what it stands for, and together they are the sum of everything that
      was recorded, the overflow included. */
  ghost predicate CounterInv(l: Labels, table: set<Key>, values: map<Key, real>, history: seq<Entry>) {
    TableInv(l, table, history) && values.Keys == table && Everything(values) == Sum(AllValues(history)) &&
    forall k :: k in values ==> values[k] == Sum(Standing(l, table, history, k))
  }

  lemma SumOfNothing()
    ensures Sum([]) == 0.0
  {
  }

  lemma CounterKeeps(l: Labels, table: set<Key>, values: map<Key, real>, history: seq<Entry>, key: Key, value: real)
    requires CounterInv(l, table, values, history) && (!l.named ==> key == l.overflow)
    ensures
      var used := Route(l, table, key);
      CounterInv(l, table + {used}, values[used := (if used in values then values[used] else 0.0) + value],
        history + [Entry(key, value)])
  {
    hide TableInv, Route, Standing, Everything, Sum;
    var used := Route(l, table, key);
    RouteKeeps(l, table, history, key, value);
    var after := values[used := (if used in values then values[used] else 0.0) + value];
    var more := history + [Entry(key, value)];
    EverythingGrows(values, used, after[used]);
    assert AllValues(more) == AllValues(history) + [value];
    Observed(AllValues(history), value, 0.0);
    forall k | k in after ensures after[k] == Sum(Standing(l, table + {used}, more, k)) {
      CounterShows(l, table, values, history, key, value, k);
    }
  }

  lemma CounterShows(l: Labels, table: set<Key>, values: map<Key, real>, history: seq<Entry>, key: Key, value: real,
      k: Key)
    requires TableInv(l, table, history) && values.Keys == table && (!l.named ==> key == l.overflow)
    requires k in table ==> values[k] == Sum(Standing(l, table, history, k))
    requires k in table || k == Route(l, table, key)
    ensures
      var used := Route(l, table, key);
      (if k == used then (if used in values then values[used] else 0.0) + value else values[k]) ==
      Sum(Standing(l, table + {used}, history + [Entry(key, value)], k))
  {
    hide TableInv, Route, Standing, Sum;
    var used := Route(l, table, key);
    SumOfNothing();
    RouteStands(l, table, history, key, value, k);
    Observed(if used in table then Standing(l, table, history, used) else [], value, 0.0);
  }

  /** The figures of a series, to be added up over all of them. */
  datatype Figure = Observations | SumOfValues | UpTo(bucket: nat)

  function Shown(s: Series, f: Figure): real {
    match f
    case Observations => s.count as real
    case SumOfValues => s.sum
    case UpTo(i) => if i < |s.buckets| then s.buckets[i] as real else 0.0
  }

  /** The same figure of a sequence of values. */
  function Due(bounds: seq<real>, values: seq<real>, f: Figure): real {
    match f
    case Observations => |values| as real
    case SumOfValues => Sum(values)
    case UpTo(i) => if i < |bounds| then AtMost(values, bounds[i]) as real else 0.0
  }

  function Column(values: map<Key, Series>, f: Figure): map<Key, real> {
    map k | k in values :: Shown(values[k], f)
  }

  lemma FiguresAreDue(bounds: seq<real>, s: Series, values: seq<real>, f: Figure)
    requires Cumulates(bounds, s, values)
    ensures Shown(s, f) == Due(bounds, values, f)
  {
  }

  /** All series together account for everything recorded: each value is in one of them, once. */
  ghost predicate Conserves(bounds: seq<real>, values: map<Key, Series>, history: seq<Entry>) {
    forall f :: Everything(Column(values, f)) == Due(bounds, AllValues(history), f)
  }

  lemma NothingConserved(bounds: seq<real>)
    ensures Conserves(bounds, map[], [])
  {
    forall f ensures Everything(Column(map[], f)) == Due(bounds, AllValues([]), f) { assert Column(map[], f) == map[]; }
  }

  lemma ConservesKeeps(
    bounds: seq<real>, values: map<Key, Series>, history: seq<Entry>, used: Key, key: Key, value: real,
      standing: seq<real>, next: Series)
    requires Conserves(bounds, values, history) && Cumulates(bounds, next, standing + [value])
    requires if used in values then Cumulates(bounds, values[used], standing) else standing == []
    ensures Conserves(bounds, values[used := next], history + [Entry(key, value)])
  {
    hide Cumulates, Everything;
    var more := history + [Entry(key, value)];
    assert AllValues(more) == AllValues(history) + [value];
    forall f ensures Everything(Column(values[used := next], f)) == Due(bounds, AllValues(more), f) {
      assert Column(values[used := next], f) == Column(values, f)[used := Shown(next, f)];
      EverythingGrows(Column(values, f), used, Shown(next, f));
      FiguresAreDue(bounds, next, standing + [value], f);
      if used in values { FiguresAreDue(bounds, values[used], standing, f); }
      DueGrows(bounds, standing, value, f);
      DueGrows(bounds, AllValues(history), value, f);
    }
  }

  /** One value more adds the same to a figure, whatever came before. */
  lemma DueGrows(bounds: seq<real>, values: seq<real>, value: real, f: Figure)
    ensures Due(bounds, values + [value], f) == Due(bounds, values, f) + Due(bounds, [value], f) &&
        Due(bounds, [], f) == 0.0
  {
    assert [] + [value] == [value];
    if f.UpTo? && f.bucket < |bounds| {
      Observed(values, value, bounds[f.bucket]);
      Observed([], value, bounds[f.bucket]);
    } else {
      Observed(values, value, 0.0);
      Observed([], value, 0.0);
    }
  }

  ghost predicate HistogramInv(l: Labels, bounds: seq<real>, table: set<Key>, values: map<Key, Series>,
      history: seq<Entry>)
  {
    TableInv(l, table, history) && values.Keys == table && Conserves(bounds, values, history) &&
    forall k :: k in values ==> Cumulates(bounds, values[k], Standing(l, table, history, k))
  }

  lemma HistogramKeeps(
    l: Labels, bounds: seq<real>, table: set<Key>, values: map<Key, Series>, history: seq<Entry>, key: Key,
      value: real, next: Series)
    requires HistogramInv(l, bounds, table, values, history) && (!l.named ==> key == l.overflow)
    requires
      var used := Route(l, table, key);
      Cumulates(bounds, next, (if used in table then Standing(l, table, history, used) else []) + [value])
    ensures
      var used := Route(l, table, key);
      HistogramInv(l, bounds, table + {used}, values[used := next], history + [Entry(key, value)])
  {
    hide TableInv, Route, Standing, Cumulates, Conserves;
    var used := Route(l, table, key);
    RouteKeeps(l, table, history, key, value);
    ConservesKeeps(bounds, values, history, used, key, value,
      if used in table then Standing(l, table, history, used) else [], next);
    forall k | k in values[used := next]
      ensures Cumulates(bounds, values[used := next][k], Standing(l, table + {used}, history + [Entry(key, value)], k))
    {
      RouteStands(l, table, history, key, value, k);
    }
  }

  lemma EmptyCumulates(bounds: seq<real>)
    ensures Cumulates(bounds, EmptySeries(bounds), [])
  {
  }

  /** The histogram that drops what finds no series and no room for one. */
  ghost predicate CappedInv(
    bounds: seq<real>, maximumSeries: nat, series: map<Key, Series>, history: seq<Entry>, refused: seq<Entry>)
  {
    |series| <= maximumSeries && (forall i :: 0 <= i < |history| ==> history[i].key in series) &&
    (refused != [] ==> |series| == maximumSeries) && Conserves(bounds, series, history) &&
    (forall i :: 0 <= i < |refused| ==> refused[i].key !in series) &&
    forall k :: k in series ==> Cumulates(bounds, series[k], Under(history, k))
  }

  lemma SizeOfUpdate(series: map<Key, Series>, key: Key, next: Series)
    ensures |series[key := next]| == |series| + if key in series then 0 else 1
    ensures series[key := next].Keys == series.Keys + {key}
  {
    assert series[key := next].Keys == series.Keys + {key};
    assert |series.Keys + {key}| == |series.Keys| + if key in series then 0 else 1;
  }

  lemma CappedKeeps(
    bounds: seq<real>, maximumSeries: nat, series: map<Key, Series>, history: seq<Entry>, refused: seq<Entry>,
      key: Key, value: real,
    next: Series)
    requires CappedInv(bounds, maximumSeries, series, history, refused) && (key in series || |series| < maximumSeries)
    requires Cumulates(bounds, next, Under(history, key) + [value])
    ensures CappedInv(bounds, maximumSeries, series[key := next], history + [Entry(key, value)], refused)
  {
    hide Cumulates, Under, Conserves;
    var more := series[key := next];
    if key !in series { UnderNothing(history, key); }
    ConservesKeeps(bounds, series, history, key, key, value, Under(history, key), next);
    SizeOfUpdate(series, key, next);
    var later := history + [Entry(key, value)];
    forall i | 0 <= i < |later| ensures later[i].key in more {
      if i < |history| { assert later[i] == history[i]; }
    }
    forall k | k in more ensures Cumulates(bounds, more[k], Under(later, k)) {
      UnderOneMore(history, key, value, k);
    }
  }

  lemma FreshKey(
    bounds: seq<real>, maximumSeries: nat, series: map<Key, Series>, history: seq<Entry>, refused: seq<Entry>, key: Key)
    requires CappedInv(bounds, maximumSeries, series, history, refused) && key !in series
    ensures Under(history, key) == []
  {
    UnderNothing(history, key);
  }
}
