/** `repo.MemStorage`: the legacy store with separate gauge and counter maps. */
module Repo {
  import opened Int64
  import opened Model
  import opened TwoMaps

  class MemStorage {
    var gauge: Gauges
    var counter: Counters

    /** `NewStorage`: both maps empty. */
    constructor NewStorage()
      ensures gauge == map[] && counter == map[]
    {
      gauge := map[];
      counter := map[];
    }

    /** `GetCounter`: the counter map itself. */
    method GetCounter() returns (r: Counters)
      ensures r == counter
    {
      r := counter;
    }

    /** `GetGauge`: the gauge map itself. */
    method GetGauge() returns (r: Gauges)
      ensures r == gauge
    {
      r := gauge;
    }

    /** Overwrites `Gauge[n]`; the counter map is untouched. */
    method SetGauge(n: string, v: Float64)
      modifies this
      ensures gauge == SetValue(old(gauge), n, v)
      ensures counter == old(counter)
    {
      gauge := gauge[n := v];
    }

    /** Adds `v` to `Counter[n]`, or stores `v` when absent; the gauge map is untouched. */
    method AddCounter(n: string, v: int64)
      modifies this
      ensures counter == AddValue(old(counter), n, v)
      ensures gauge == old(gauge)
    {
      if n in counter {
        counter := counter[n := Add(counter[n], v)];
      } else {
        counter := counter[n := v];
      }
    }
  }

  /** The IEEE-754 bit patterns of 5.0 and 6.7. */
  const Five: Float64 := Float64(0x4014_0000_0000_0000)
  const SixPointSeven: Float64 := Float64(0x401A_CCCC_CCCC_CCCD)

  /** Setting a gauge to 5.0 and then to 6.7 reads 6.7. */
  method GaugeLastWriteWins() returns (value: Float64)
    ensures value == SixPointSeven
  {
    var m := new MemStorage.NewStorage();
    m.SetGauge("name", Five);
    m.SetGauge("name", SixPointSeven);
    value := m.gauge["name"];
  }

  /** One name can be a gauge and a counter at the same time, each kept in its own map. */
  method SameNameBothKinds(n: string, v: Float64, d: int64) returns (g: Gauges, c: Counters)
    ensures n in g && g[n] == v
    ensures n in c && c[n] == d
  {
    var m := new MemStorage.NewStorage();
    m.SetGauge(n, v);
    m.AddCounter(n, d);
    g := m.GetGauge();
    c := m.GetCounter();
  }
}
