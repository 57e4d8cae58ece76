/**
 * The update rules of the two stores that keep gauges and counters in
 * separate maps (`repo.MemStorage` and `db.MemStorage`), and how they
 * relate to the single-map stores.
 */
module TwoMaps {
  import opened Wrappers
  import opened Int64
  import opened Model
  import opened StoreSpec

  type Gauges = map<string, Float64>
  type Counters = map<string, int64>

  /** `Gauge[n] = v`. */
  function SetValue(g: Gauges, n: string, v: Float64): (r: Gauges)
    ensures r.Keys == g.Keys + {n} && r[n] == v
    ensures forall k :: k in g && k != n ==> r[k] == g[k]
  {
    g[n := v]
  }

  /** `Counter[n] = val + v` when present, else `v`, with Go's wrapping addition. */
  function AddValue(c: Counters, n: string, v: int64): (r: Counters)
    ensures r.Keys == c.Keys + {n}
    ensures r[n] == if n in c then Add(c[n], v) else v
    ensures forall k :: k in c && k != n ==> r[k] == c[k]
  {
    if n in c then c[n := Add(c[n], v)] else c[n := v]
  }

  /** The running totals a single-map store keeps, as a counter map. */
  function CounterView(s: Snapshot): (r: Counters)
    ensures forall k :: k in r <==> k in s && s[k].delta.Some?
  {
    map k | k in s && s[k].delta.Some? :: s[k].delta.value
  }

  /** The gauge values a single-map store keeps, as a gauge map. */
  function GaugeView(s: Snapshot): (r: Gauges)
    ensures forall k :: k in r <==> k in s && s[k].value.Some?
  {
    map k | k in s && s[k].value.Some? :: s[k].value.value
  }

  /** On counters the two kinds of store agree: adding to the record store adds to its counter view. */
  lemma AddCounterAgrees(s: Snapshot, n: string, d: int64)
    requires CanAdd(s, n)
    ensures CounterView(StoreSpec.AddCounter(s, n, d)) == AddValue(CounterView(s), n, d)
  {
    var a, b := CounterView(StoreSpec.AddCounter(s, n, d)), AddValue(CounterView(s), n, d);
    assert a.Keys == b.Keys;
    forall k | k in a ensures a[k] == b[k] {
    }
  }

  /** Adding to a counter removes any gauge reading under that name from the record store. */
  lemma AddCounterDropsGauge(s: Snapshot, n: string, d: int64)
    requires CanAdd(s, n)
    ensures GaugeView(StoreSpec.AddCounter(s, n, d)) == GaugeView(s) - {n}
  {
    var a, b := GaugeView(StoreSpec.AddCounter(s, n, d)), GaugeView(s) - {n};
    assert a.Keys == b.Keys;
    forall k | k in a ensures a[k] == b[k] {
    }
  }

  /** On gauges they agree too. */
  lemma SetGaugeAgrees(s: Snapshot, n: string, v: Float64)
    ensures GaugeView(StoreSpec.SetGauge(s, n, v)) == SetValue(GaugeView(s), n, v)
  {
    var a, b := GaugeView(StoreSpec.SetGauge(s, n, v)), SetValue(GaugeView(s), n, v);
    assert a.Keys == b.Keys;
    forall k | k in a ensures a[k] == b[k] {
    }
  }

  /**
   * Where they differ: a gauge write to a record store drops the counter
   * of that name, which a two-map store keeps.
   */
  lemma SetGaugeDropsCounter(s: Snapshot, n: string, v: Float64)
    ensures CounterView(StoreSpec.SetGauge(s, n, v)) == CounterView(s) - {n}
  {
    var a, b := CounterView(StoreSpec.SetGauge(s, n, v)), CounterView(s) - {n};
    assert a.Keys == b.Keys;
    forall k | k in a ensures a[k] == b[k] {
    }
  }
}
