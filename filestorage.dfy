/**
 * `storage.FileStorage`: the in-memory map of `MemStorage` plus a snapshot
 * file that is read once at start-up and rewritten on a timer.
 */
module StorageFile {
  import opened Wrappers
  import opened Int64
  import opened Model
  import opened StoreSpec
  import opened OsFile
  import opened Persist
  import opened StorageMem

  /** The error `NewFileStorage` returns when the snapshot file cannot be opened. */
  datatype OpenError = OpenFailed

  /** The positions the load loop is at: the installs made so far, and the decode target they left. */
  ghost predicate LoadProgress(initial: Snapshot, steps: seq<DecodeStep>, i: nat, target: Option<Snapshot>, current: Snapshot) {
    var ins := Installs(None, steps);
    && i <= |ins|
    && (i == 0 ==> target == None && current == initial)
    && (i > 0 ==> target == Some(ins[i - 1]) && current == ins[i - 1])
  }

  class FileStorage {
    var metrics: Snapshot

    /** The store `NewFileStorage` allocates before touching the file: empty. */
    constructor ()
      ensures metrics == map[]
    {
      metrics := map[];
    }

    /** The current contents. */
    method GetMetrics() returns (r: Snapshot)
      ensures r == metrics
    {
      r := metrics;
    }

    /** As for `MemStorage`: entry `n` becomes a gauge record, every other entry is unchanged. */
    method SetGauge(n: string, v: Float64)
      modifies this
      ensures metrics == StoreSpec.SetGauge(old(metrics), n, v)
      ensures metrics[n] == GaugeEntry(n, v)
      ensures forall k :: k in old(metrics) && k != n ==> metrics[k] == old(metrics)[k]
    {
      metrics := metrics[n := GaugeEntry(n, v)];
    }

    /** As for `MemStorage`, including the dereference of an existing entry's Delta. */
    method AddCounter(n: string, v: int64)
      requires CanAdd(metrics, n)
      modifies this
      ensures metrics == StoreSpec.AddCounter(old(metrics), n, v)
      ensures n !in old(metrics) ==> metrics[n] == CounterEntry(n, v)
      ensures n in old(metrics) ==> metrics[n] == CounterEntry(n, Add(old(metrics)[n].delta.value, v))
    {
      if n in metrics {
        var newDelta := Add(metrics[n].delta.value, v);
        metrics := metrics[n := CounterEntry(n, newDelta)];
      } else {
        metrics := metrics[n := CounterEntry(n, v)];
      }
    }

    /** A file store has no database either: `Ping` always fails. */
    method Ping() returns (err: Option<StorageError>)
      ensures err == Some(PingUnsupported)
    {
      err := Some(PingUnsupported);
    }

    /**
     * `save`: truncate the file, seek to its start, encode the store into
     * it; the first failing step ends the save.
     */
    method Save(file: File, truncateFails: bool, seekFails: bool, codec: Codec) returns (outcome: SaveOutcome)
      modifies file
      ensures (file.State(), outcome) == SaveEffect(old(file.State()), truncateFails, seekFails, codec.encode(metrics))
    {
      var ok := file.Truncate(truncateFails);
      if !ok {
        return TruncateFailed;
      }
      ok := file.SeekStart(seekFails);
      if !ok {
        return SeekFailed;
      }
      var snapshot := GetMetrics();
      var encoded := codec.encode(snapshot);
      if encoded.None? {
        return EncodeFailed;
      }
      file.Write(encoded.value);
      outcome := Saved;
    }

    /**
     * `load`: seek to the start, then decode objects until EOF or an
     * error, installing the decode target as the store after each object.
     * The target is one map reused across calls, so each object merges
     * into what the previous ones left, and after the first object the
     * store shares that map: an error's partly decoded entries reach it.
     */
    method Load(file: File, seekFails: bool, codec: Codec)
      modifies this, file
      ensures file.data == old(file.data)
      ensures metrics == if seekFails then old(metrics) else Loaded(old(metrics), codec.decode(file.data))
    {
      var ok := file.SeekStart(seekFails);
      if !ok {
        return;
      }
      var steps := codec.decode(file.data);
      var target: Option<Snapshot> := None;
      var i := 0;
      while true
        invariant file.data == old(file.data)
        invariant LoadProgress(old(metrics), steps, i, target, metrics)
        decreases |steps| - i
      {
        var step := StepAt(steps, i);
        if !step.Obj? {
          assert i == |Installs(None, steps)|;
          if step.Eof? {
            assert metrics + Partial(step) == metrics;
            break;
          } else {
            // Once a map has been installed, `fs.metrics` and the decode
            // target are one map, so what the failing call stored into the
            // target is in the store too.
            if target.Some? {
              target := Some(target.value + step.partial);
              metrics := target.value;
            }
            return;
          }
        }
        InstallsAt(None, steps, i);
        target := Some(DecodeInto(target, step.m));
        metrics := target.value;
        i := i + 1;
      }
    }
  }

  /**
   * `NewFileStorage`: a nil file (the open failed) gives an error and no
   * store; otherwise a fresh store, filled from the file only when
   * `restore` is set. The save timer is not modelled.
   */
  method NewFileStorage(restore: bool, file: File?, seekFails: bool, codec: Codec)
    returns (fs: FileStorage?, err: Option<OpenError>)
    modifies file
    ensures file == null <==> fs == null
    ensures file == null ==> err == Some(OpenFailed)
    ensures file != null ==> fresh(fs) && err == None && file.data == old(file.data)
    ensures file != null ==>
      fs.metrics == (if restore && !seekFails then Loaded(map[], codec.decode(file.data)) else map[])
  {
    fs := new FileStorage();
    if file == null {
      return null, Some(OpenFailed);
    }
    if restore {
      fs.Load(file, seekFails, codec);
    }
    err := None;
  }

  /** A restart after a successful save restores exactly the saved store. */
  method RestartAfterSave(fs: FileStorage, file: File, codec: Codec) returns (restored: FileStorage?)
    requires Inverse(codec) && codec.encode(fs.metrics).Some?
    modifies file
    ensures restored != null && restored.metrics == fs.metrics
  {
    var outcome := fs.Save(file, false, false, codec);
    SaveThenLoad(codec, old(file.State()), fs.metrics, map[]);
    var err;
    restored, err := NewFileStorage(true, file, false, codec);
  }
}
