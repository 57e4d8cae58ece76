/**
 * `collector`: the agent's sampling step. The sampled values (the
 * `runtime.MemStats` fields, the random value, the memory and CPU figures)
 * are inputs; what is modelled is which store entries each call writes.
 */
module Collector {
  import opened Wrappers
  import opened Int64
  import opened Model
  import opened StoreSpec
  import opened Strconv
  import opened StorageMem

  /** The `runtime.MemStats` fields `UpdateMetrics` reports, in the order it writes them. */
  const RuntimeGauges: seq<string> := [
    "Alloc", "BuckHashSys", "Frees", "GCCPUFraction", "GCSys", "HeapAlloc",
    "HeapIdle", "HeapInuse", "HeapObjects", "HeapReleased", "HeapSys", "LastGC",
    "Lookups", "MCacheInuse", "MCacheSys", "MSpanInuse", "MSpanSys", "Mallocs",
    "NextGC", "NumForcedGC", "NumGC", "OtherSys", "PauseTotalNs", "StackInuse",
    "StackSys", "Sys", "TotalAlloc"]

  const PollCount: string := "PollCount"
  const RandomValue: string := "RandomValue"
  const TotalMemory: string := "TotalMemory"
  const FreeMemory: string := "FreeMemory"
  const CpuPrefix: string := "CPUutilization"

  ghost predicate Distinct(names: seq<string>) {
    forall i, j :: 0 <= i < j < |names| ==> names[i] != names[j]
  }

  /** A run of `SetGauge(names[i], vals[i])` calls, in order. */
  function SetGauges(s: Snapshot, names: seq<string>, vals: seq<Float64>): Snapshot
    requires |names| == |vals|
    decreases |names|
  {
    if names == [] then s
    else
      var k := |names| - 1;
      StoreSpec.SetGauge(SetGauges(s, names[..k], vals[..k]), names[k], vals[k])
  }

  /** A run of gauge writes adds exactly its names to the store and leaves every other entry alone. */
  lemma {:induction false} SetGaugesKeys(s: Snapshot, names: seq<string>, vals: seq<Float64>)
    requires |names| == |vals|
    ensures var r := SetGauges(s, names, vals);
      && r.Keys == s.Keys + (set x | x in names)
      && (forall k :: k in s && k !in names ==> r[k] == s[k])
    decreases |names|
  {
    if names != [] {
      var k := |names| - 1;
      SetGaugesKeys(s, names[..k], vals[..k]);
      assert names == names[..k] + [names[k]];
      assert (set x | x in names) == (set x | x in names[..k]) + {names[k]};
    }
  }

  /**
   * When every value written is a function `f` of its name (a field of
   * one sample read by name), every name ends up holding `f` of itself,
   * even if a name were written twice.
   */
  lemma {:induction false} SetGaugesBy(s: Snapshot, names: seq<string>, vals: seq<Float64>, f: string -> Float64)
    requires |names| == |vals| && forall i :: 0 <= i < |names| ==> vals[i] == f(names[i])
    ensures forall i :: 0 <= i < |names| ==>
      names[i] in SetGauges(s, names, vals) && SetGauges(s, names, vals)[names[i]] == GaugeEntry(names[i], f(names[i]))
    decreases |names|
  {
    if names != [] {
      var k := |names| - 1;
      SetGaugesBy(s, names[..k], vals[..k], f);
      var r := SetGauges(s, names, vals);
      forall i | 0 <= i < k ensures names[i] in r && r[names[i]] == GaugeEntry(names[i], f(names[i])) {
        assert names[..k][i] == names[i];
      }
    }
  }

  /** With distinct names, every name ends up holding its own value. */
  lemma {:induction false} SetGaugesDistinct(s: Snapshot, names: seq<string>, vals: seq<Float64>)
    requires |names| == |vals| && Distinct(names)
    ensures forall i :: 0 <= i < |names| ==>
      names[i] in SetGauges(s, names, vals) && SetGauges(s, names, vals)[names[i]] == GaugeEntry(names[i], vals[i])
    decreases |names|
  {
    if names != [] {
      var k := |names| - 1;
      SetGaugesDistinct(s, names[..k], vals[..k]);
      var r := SetGauges(s, names, vals);
      forall i | 0 <= i < k ensures names[i] in r && r[names[i]] == GaugeEntry(names[i], vals[i]) {
        assert names[..k][i] == names[i] && vals[..k][i] == vals[i];
      }
    }
  }

  /** The values one sample gives the gauges `names`, `stats` reading a field by name. */
  function Sampled(names: seq<string>, stats: string -> Float64): (r: seq<Float64>)
    ensures |r| == |names| && forall i :: 0 <= i < |r| ==> r[i] == stats(names[i])
  {
    seq(|names|, i requires 0 <= i < |names| => stats(names[i]))
  }

  /** The names of the two entries a poll writes besides the runtime gauges lie outside `names`. */
  ghost predicate Disjoint(names: seq<string>) {
    PollCount !in names && RandomValue !in names
  }

  lemma RuntimeGaugesDisjoint()
    ensures Disjoint(RuntimeGauges)
  {
    PollCountNotRuntime();
    RandomValueNotRuntime();
  }

  lemma PollCountNotRuntime()
    ensures PollCount !in RuntimeGauges
  {
  }

  lemma RandomValueNotRuntime()
    ensures RandomValue !in RuntimeGauges
  {
  }

  /** The store after one poll writing the gauges `names`, then PollCount plus one, then RandomValue. */
  function PollWith(s: Snapshot, names: seq<string>, stats: string -> Float64, random: Float64): Snapshot
    requires CanAdd(s, PollCount) && Disjoint(names)
  {
    var g := SetGauges(s, names, Sampled(names, stats));
    SetGaugesKeys(s, names, Sampled(names, stats));
    StoreSpec.SetGauge(StoreSpec.AddCounter(g, PollCount, 1), RandomValue, random)
  }

  /** The store after `UpdateMetrics`. */
  function Poll(s: Snapshot, stats: string -> Float64, random: Float64): Snapshot
    requires CanAdd(s, PollCount)
  {
    RuntimeGaugesDisjoint();
    PollWith(s, RuntimeGauges, stats, random)
  }

  /** One poll raises PollCount by exactly one (wrapping, as Go's int64 does), or starts it at 1. */
  lemma PollCountEffect(s: Snapshot, names: seq<string>, stats: string -> Float64, random: Float64)
    requires CanAdd(s, PollCount) && Disjoint(names)
    ensures var r := PollWith(s, names, stats, random);
      PollCount in r && r[PollCount] == CounterEntry(PollCount, if PollCount in s then Add(s[PollCount].delta.value, 1) else 1)
  {
    SetGaugesKeys(s, names, Sampled(names, stats));
  }

  /** One poll stores each runtime sample and the random value as gauges. */
  lemma PollGaugesEffect(s: Snapshot, names: seq<string>, stats: string -> Float64, random: Float64)
    requires CanAdd(s, PollCount) && Disjoint(names)
    ensures var r := PollWith(s, names, stats, random);
      && RandomValue in r && r[RandomValue] == GaugeEntry(RandomValue, random)
      && (forall i :: 0 <= i < |names| ==> names[i] in r && r[names[i]] == GaugeEntry(names[i], stats(names[i])))
  {
    SetGaugesKeys(s, names, Sampled(names, stats));
    SetGaugesBy(s, names, Sampled(names, stats), stats);
    var r := PollWith(s, names, stats, random);
    forall i | 0 <= i < |names| ensures names[i] in r && r[names[i]] == GaugeEntry(names[i], stats(names[i])) {
      assert names[i] in names;
    }
  }

  /** One poll writes exactly `names`, PollCount and RandomValue, and leaves every other entry as it was. */
  lemma PollKeysEffect(s: Snapshot, names: seq<string>, stats: string -> Float64, random: Float64)
    requires CanAdd(s, PollCount) && Disjoint(names)
    ensures var r := PollWith(s, names, stats, random);
      && r.Keys == s.Keys + (set x | x in names) + {PollCount, RandomValue}
      && (forall k :: k in s && k !in names && k != PollCount && k != RandomValue ==> r[k] == s[k])
  {
    SetGaugesKeys(s, names, Sampled(names, stats));
  }

  /** The three effects of `UpdateMetrics` itself, over the 27 runtime gauges. */
  lemma PollEffect(s: Snapshot, stats: string -> Float64, random: Float64)
    requires CanAdd(s, PollCount)
    ensures var r := Poll(s, stats, random);
      && PollCount in r
      && r[PollCount] == CounterEntry(PollCount, if PollCount in s then Add(s[PollCount].delta.value, 1) else 1)
      && (forall i :: 0 <= i < |RuntimeGauges| ==>
            RuntimeGauges[i] in r && r[RuntimeGauges[i]] == GaugeEntry(RuntimeGauges[i], stats(RuntimeGauges[i])))
      && r.Keys == s.Keys + (set x | x in RuntimeGauges) + {PollCount, RandomValue}
  {
    RuntimeGaugesDisjoint();
    PollCountEffect(s, RuntimeGauges, stats, random);
    PollGaugesEffect(s, RuntimeGauges, stats, random);
    PollKeysEffect(s, RuntimeGauges, stats, random);
  }

  /** `Poll` applied once per sample, in order. */
  function Polls(s: Snapshot, samples: seq<(string -> Float64, Float64)>): (r: Snapshot)
    requires CanAdd(s, PollCount)
    ensures CanAdd(r, PollCount)
    decreases |samples|
  {
    if samples == [] then s
    else
      var k := |samples| - 1;
      var prev := Polls(s, samples[..k]);
      RuntimeGaugesDisjoint();
      PollCountEffect(prev, RuntimeGauges, samples[k].0, samples[k].1);
      Poll(prev, samples[k].0, samples[k].1)
  }

  /** PollCount counts polls: after `k` polls of a store without it, it holds `k` modulo 2^64. */
  lemma {:induction false} PollCountCounts(s: Snapshot, samples: seq<(string -> Float64, Float64)>)
    requires PollCount !in s
    ensures var r := Polls(s, samples);
      samples != [] ==> PollCount in r && r[PollCount] == CounterEntry(PollCount, Wrap(|samples|))
    decreases |samples|
  {
    if samples != [] {
      var k := |samples| - 1;
      var prev := Polls(s, samples[..k]);
      PollCountCounts(s, samples[..k]);
      RuntimeGaugesDisjoint();
      PollCountEffect(prev, RuntimeGauges, samples[k].0, samples[k].1);
      if k > 0 {
        WrapAdd(k, 1);
      }
    }
  }

  /** The gauge writes of one poll: `SetGauge(names[i], stats(names[i]))` for each name in order. */
  method WriteSampled(store: MemStorage, names: seq<string>, stats: string -> Float64)
    modifies store
    ensures store.metrics == SetGauges(old(store.metrics), names, Sampled(names, stats))
  {
    var vals := Sampled(names, stats);
    var i := 0;
    while i < |names|
      invariant 0 <= i <= |names|
      invariant store.metrics == SetGauges(old(store.metrics), names[..i], vals[..i])
    {
      assert names[..i + 1][..i] == names[..i] && vals[..i + 1][..i] == vals[..i];
      store.SetGauge(names[i], stats(names[i]));
      i := i + 1;
    }
    assert names[..i] == names && vals[..i] == vals;
  }

  /**
   * `UpdateMetrics`. The source writes the 27 runtime gauges as 27
   * separate calls; here they are one loop over the same names in the
   * same order. PollCount must not hold a gauge (its Delta is dereferenced).
   */
  method UpdateMetrics(store: MemStorage, stats: string -> Float64, random: Float64)
    requires CanAdd(store.metrics, PollCount)
    modifies store
    ensures store.metrics == Poll(old(store.metrics), stats, random)
  {
    RuntimeGaugesDisjoint();
    WriteSampled(store, RuntimeGauges, stats);
    SetGaugesKeys(old(store.metrics), RuntimeGauges, Sampled(RuntimeGauges, stats));
    store.AddCounter(PollCount, 1);
    store.SetGauge(RandomValue, random);
  }

  /** The gauge name of the `i`-th CPU (0-based), numbered from 1. */
  function CpuName(i: nat): string {
    CpuPrefix + Itoa(i + 1)
  }

  /** The names `UpdateExtraMetrics` writes for `n` CPUs. */
  function CpuNames(n: nat): (r: seq<string>)
    ensures |r| == n && forall i :: 0 <= i < n ==> r[i] == CpuName(i)
  {
    seq(n, (i: nat) => CpuName(i))
  }

  /** CPU gauge names never collide with each other, nor with the memory gauges. */
  lemma CpuNamesDistinct(n: nat)
    ensures Distinct(CpuNames(n))
    ensures TotalMemory !in CpuNames(n) && FreeMemory !in CpuNames(n)
  {
    var names := CpuNames(n);
    forall i, j | 0 <= i < j < n ensures names[i] != names[j] {
      if names[i] == names[j] {
        assert Itoa(i + 1) == names[i][|CpuPrefix|..] == names[j][|CpuPrefix|..] == Itoa(j + 1);
        ItoaInjective(i + 1, j + 1);
      }
    }
    forall i | 0 <= i < n ensures names[i] != TotalMemory && names[i] != FreeMemory {
      assert names[i][0] == 'C';
    }
  }

  /** The store after `UpdateExtraMetrics`. */
  function ExtraPoll(s: Snapshot, total: Float64, free: Float64, cpus: seq<Float64>): Snapshot {
    var m := StoreSpec.SetGauge(StoreSpec.SetGauge(s, TotalMemory, total), FreeMemory, free);
    SetGauges(m, CpuNames(|cpus|), cpus)
  }

  /** TotalMemory, FreeMemory and one CPUutilization gauge per CPU sample, numbered from 1, hold the samples. */
  lemma ExtraPollValues(s: Snapshot, total: Float64, free: Float64, cpus: seq<Float64>)
    ensures var r := ExtraPoll(s, total, free, cpus);
      && TotalMemory in r && r[TotalMemory] == GaugeEntry(TotalMemory, total)
      && FreeMemory in r && r[FreeMemory] == GaugeEntry(FreeMemory, free)
      && (forall i :: 0 <= i < |cpus| ==> CpuName(i) in r && r[CpuName(i)] == GaugeEntry(CpuName(i), cpus[i]))
  {
    var names := CpuNames(|cpus|);
    CpuNamesDistinct(|cpus|);
    var m := StoreSpec.SetGauge(StoreSpec.SetGauge(s, TotalMemory, total), FreeMemory, free);
    SetGaugesKeys(m, names, cpus);
    SetGaugesDistinct(m, names, cpus);
  }

  /** Those names, and nothing else, are written. */
  lemma ExtraPollKeys(s: Snapshot, total: Float64, free: Float64, cpus: seq<Float64>)
    ensures var r := ExtraPoll(s, total, free, cpus);
      && r.Keys == s.Keys + {TotalMemory, FreeMemory} + (set x | x in CpuNames(|cpus|))
      && (forall k :: k in s && k != TotalMemory && k != FreeMemory && k !in CpuNames(|cpus|) ==> r[k] == s[k])
  {
    var m := StoreSpec.SetGauge(StoreSpec.SetGauge(s, TotalMemory, total), FreeMemory, free);
    SetGaugesKeys(m, CpuNames(|cpus|), cpus);
  }

  /** What `mem.VirtualMemory` reports: the total and the free memory. */
  datatype VirtualMemoryStat = VirtualMemoryStat(total: Float64, free: Float64)

  /**
   * `UpdateExtraMetrics`, with the two samplers' results as inputs. The
   * errors are discarded: a failed `VirtualMemory` call (None) returns a
   * nil stat, whose `Total` is dereferenced, so the call panics before any
   * write; a failed `cpu.Percent` call returns no percentages, so `cpus`
   * is empty and no CPU gauge is written.
   */
  method UpdateExtraMetrics(store: MemStorage, vm: Option<VirtualMemoryStat>, cpus: seq<Float64>)
    returns (panicked: bool)
    modifies store
    ensures panicked <==> vm.None?
    ensures vm.None? ==> store.metrics == old(store.metrics)
    ensures vm.Some? ==> store.metrics == ExtraPoll(old(store.metrics), vm.value.total, vm.value.free, cpus)
  {
    if vm.None? {
      return true;
    }
    panicked := false;
    store.SetGauge(TotalMemory, vm.value.total);
    store.SetGauge(FreeMemory, vm.value.free);
    ghost var start := store.metrics;
    var names := CpuNames(|cpus|);
    var i := 0;
    while i < |cpus|
      invariant 0 <= i <= |cpus|
      invariant store.metrics == SetGauges(start, names[..i], cpus[..i])
    {
      assert names[..i + 1][..i] == names[..i] && cpus[..i + 1][..i] == cpus[..i];
      assert names[i] == CpuName(i);
      store.SetGauge(CpuName(i), cpus[i]);
      i := i + 1;
    }
    assert names[..i] == names && cpus[..i] == cpus;
  }
}
