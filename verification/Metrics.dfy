/** The metric objects of `src/prometheus.ts`: counters and histograms with a label budget, and the
    histogram that drops series beyond its cap. Each object is tied to everything recorded so far. */
module Metrics {
  import opened HistogramSpec

  /** The loop that counts a value into the cumulative buckets. */
  method CountInto(bounds: seq<real>, s: Series, v: real, ghost values: seq<real>) returns (next: Series)
    requires Cumulates(bounds, s, values)
    ensures Cumulates(bounds, next, values + [v])
  {
    var buckets := s.buckets;
    Observed(values, v, 0.0);
    for i := 0 to |bounds|
      invariant |buckets| == |bounds|
      invariant forall j :: 0 <= j < i ==> buckets[j] == AtMost(values + [v], bounds[j])
      invariant forall j :: i <= j < |bounds| ==> buckets[j] == s.buckets[j]
    {
      Observed(values, v, bounds[i]);
      if v <= bounds[i] { buckets := buckets[i := buckets[i] + 1]; }
    }
    return Series(buckets, s.count + 1, s.sum + v);
  }

  class Counter {
    const l: Labels
    var table: set<Key>
    var values: map<Key, real>
    ghost var history: seq<Entry>

    ghost predicate Valid()
      reads this
    {
      CounterInv(l, table, values, history)
    }

    constructor (l: Labels)
      ensures Valid() && this.l == l && history == []
    {
      this.l := l;
      table, values, history := {}, map[], [];
    }

    /** `inc`; negative increments are refused. */
    method Inc(key: Key, value: real) returns (ok: bool)
      requires Valid() && (!l.named ==> key == l.overflow)
      modifies this
      ensures Valid() && ok == (value >= 0.0)
      ensures history == if ok then old(history) + [Entry(key, value)] else old(history)
      ensures !ok ==> table == old(table) && values == old(values)
    {
      hide CounterInv, Route;
      if value < 0.0 { return false; }
      CounterKeeps(l, table, values, history, key, value);
      var used := Route(l, table, key);
      values := values[used := (if used in values then values[used] else 0.0) + value];
      table := table + {used};
      history := history + [Entry(key, value)];
      return true;
    }

    /** `get`: a key without a series of its own reads the overflow series. */
    method Get(key: Key) returns (value: real)
      requires Valid() && (!l.named ==> key == l.overflow)
      ensures
        var used := if key in table || !l.named || l.overflow !in table then key else l.overflow;
        value == if used in table then Sum(Standing(l, table, history, used)) else 0.0
    {
      var used := if key in table || !l.named || l.overflow !in table then key else l.overflow;
      return if used in values then values[used] else 0.0;
    }
  }

  class Histogram {
    const l: Labels
    const bounds: seq<real>
    var table: set<Key>
    var values: map<Key, Series>
    ghost var history: seq<Entry>

    ghost predicate Valid()
      reads this
    {
      HistogramInv(l, bounds, table, values, history)
    }

    constructor (l: Labels, bounds: seq<real>)
      ensures Valid() && this.l == l && this.bounds == bounds && history == []
    {
      this.l, this.bounds := l, bounds;
      table, values, history := {}, map[], [];
      NothingConserved(bounds);
    }

    method Observe(key: Key, value: real)
      requires Valid() && (!l.named ==> key == l.overflow)
      modifies this
      ensures Valid() && history == old(history) + [Entry(key, value)]
    {
      hide TableInv, Cumulates, Route, Standing, Conserves;
      var used := Route(l, table, key);
      ghost var before := if used in table then Standing(l, table, history, used) else [];
      EmptyCumulates(bounds);
      var series := CountInto(bounds, if used in values then values[used] else EmptySeries(bounds), value, before);
      HistogramKeeps(l, bounds, table, values, history, key, value, series);
      values := values[used := series];
      table := table + {used};
      history := history + [Entry(key, value)];
    }
  }

  /** A histogram that refuses new series beyond its cap and reports what it dropped. */
  class PrometheusHistogram {
    const maximumSeries: nat
    const bounds: seq<real>
    var series: map<Key, Series>
    var dropped: nat
    ghost var history: seq<Entry>
    ghost var refused: seq<Entry>

    ghost predicate Valid()
      reads this
    {
      dropped == |refused| && CappedInv(bounds, maximumSeries, series, history, refused)
    }

    constructor (maximumSeries: nat, bounds: seq<real>)
      ensures Valid() && this.maximumSeries == maximumSeries && this.bounds == bounds && history == [] && refused == []
    {
      this.maximumSeries, this.bounds := maximumSeries, bounds;
      series, dropped, history, refused := map[], 0, [], [];
      NothingConserved(bounds);
    }

    method Observe(key: Key, value: real)
      requires Valid()
      modifies this
      ensures Valid()
      ensures
        if key in old(series) || |old(series)| < maximumSeries then
          history == old(history) + [Entry(key, value)] && refused == old(refused)
        else history == old(history) && refused == old(refused) + [Entry(key, value)] && series == old(series)
    {
      hide Cumulates, Under, Conserves;
      if key !in series && |series| >= maximumSeries {
        dropped := dropped + 1;
        refused := refused + [Entry(key, value)];
        return;
      }
      if key !in series { FreshKey(bounds, maximumSeries, series, history, refused, key); }
      EmptyCumulates(bounds);
      var next := CountInto(bounds, if key in series then series[key] else EmptySeries(bounds), value,
        Under(history, key));
      CappedKeeps(bounds, maximumSeries, series, history, refused, key, value, next);
      series := series[key := next];
      history := history + [Entry(key, value)];
    }
  }
}
