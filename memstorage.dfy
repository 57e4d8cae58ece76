/** `storage.MemStorage`: the in-memory store behind the agent and the server's default backend. */
module StorageMem {
  import opened Wrappers
  import opened Int64
  import opened Model
  import opened StoreSpec

  /** The error a backend without a database reports from `Ping`. */
  datatype StorageError = PingUnsupported

  /**
   * One map from name to record. The Go mutex makes every method atomic;
   * this sequential class is the linearised behaviour.
   */
  class MemStorage {
    var metrics: Snapshot

    /** `NewMemStorage`: a new store is empty. */
    constructor ()
      ensures metrics == map[]
    {
      metrics := map[];
    }

    /** The current contents (Go hands out the map itself, not a copy). */
    method GetMetrics() returns (r: Snapshot)
      ensures r == metrics
    {
      r := metrics;
    }

    /** Overwrites entry `n` with a gauge record; every other entry is unchanged. */
    method SetGauge(n: string, v: Float64)
      modifies this
      ensures metrics == StoreSpec.SetGauge(old(metrics), n, v)
      ensures metrics[n] == GaugeEntry(n, v)
      ensures forall k :: k in old(metrics) && k != n ==> metrics[k] == old(metrics)[k]
    {
      metrics := metrics[n := GaugeEntry(n, v)];
    }

    /**
     * Adds `v` to the counter `n`, creating it when absent. An existing entry
     * whose Delta is nil (a gauge) would be dereferenced: the caller must
     * avoid that.
     */
    method AddCounter(n: string, v: int64)
      requires CanAdd(metrics, n)
      modifies this
      ensures metrics == StoreSpec.AddCounter(old(metrics), n, v)
      ensures n !in old(metrics) ==> metrics[n] == CounterEntry(n, v)
      ensures n in old(metrics) ==> metrics[n] == CounterEntry(n, Add(old(metrics)[n].delta.value, v))
    {
      if n in metrics {
        var newDelta := Add(metrics[n].delta.value, v);
        metrics := metrics[n := CounterEntry(n, newDelta)];
      } else {
        metrics := metrics[n := CounterEntry(n, v)];
      }
    }

    /** An in-memory store has no database to reach: `Ping` always fails. */
    method Ping() returns (err: Option<StorageError>)
      ensures err == Some(PingUnsupported)
    {
      err := Some(PingUnsupported);
    }
  }
}
