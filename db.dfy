/**
 * `db.MemStorage`: the same two maps as the legacy store, but without a
 * constructor; a map that was never made is Go's nil map, `None` here.
 */
module Db {
  import opened Wrappers
  import opened Int64
  import opened Model
  import opened TwoMaps

  class MemStorage {
    var gauge: Option<Gauges>
    var counter: Option<Counters>

    constructor (gauge: Option<Gauges>, counter: Option<Counters>)
      ensures this.gauge == gauge && this.counter == counter
    {
      this.gauge := gauge;
      this.counter := counter;
    }

    /** `Gauge[n] = v`: writing to a nil map panics, so the gauge map must exist; `Counter` is not touched. */
    method SetGauge(n: string, v: Float64)
      requires gauge.Some?
      modifies this
      ensures gauge == Some(SetValue(old(gauge).value, n, v))
      ensures counter == old(counter)
    {
      gauge := Some(gauge.value[n := v]);
    }

    /** Adds `v` to `Counter[n]`, or stores `v`; the counter map must exist, `Gauge` is not touched. */
    method AddCounter(n: string, v: int64)
      requires counter.Some?
      modifies this
      ensures counter == Some(AddValue(old(counter).value, n, v))
      ensures gauge == old(gauge)
    {
      var c := counter.value;
      if n in c {
        counter := Some(c[n := Add(c[n], v)]);
      } else {
        counter := Some(c[n := v]);
      }
    }
  }
}
