/**
 * `filestore.FileStore`: the older snapshot writer that works through the
 * storage interface. It reads the store with `GetMetrics` and restores it
 * with `SetMetrics`, so here the store's contents are an input to `Save`
 * and `Load` returns the sequence of `SetMetrics` calls it makes.
 */
module FileStore {
  import opened Wrappers
  import opened StoreSpec
  import opened OsFile
  import opened Persist

  /** The loop's progress: the calls made so far are the first `i` installs, and the target is the last of them. */
  ghost predicate CallsSoFar(steps: seq<DecodeStep>, i: nat, target: Option<Snapshot>, calls: seq<Snapshot>) {
    var ins := Installs(None, steps);
    && i <= |ins|
    && calls == ins[..i]
    && (i == 0 ==> target == None)
    && (i > 0 ==> target == Some(ins[i - 1]))
  }

  /** `save`: the same truncate, seek, encode chain as the file storage, over `GetMetrics()`. */
  method Save(file: File, truncateFails: bool, seekFails: bool, codec: Codec, current: Snapshot)
    returns (outcome: SaveOutcome)
    modifies file
    ensures (file.State(), outcome) == SaveEffect(old(file.State()), truncateFails, seekFails, codec.encode(current))
  {
    var ok := file.Truncate(truncateFails);
    if !ok {
      return TruncateFailed;
    }
    ok := file.SeekStart(seekFails);
    if !ok {
      return SeekFailed;
    }
    var encoded := codec.encode(current);
    if encoded.None? {
      return EncodeFailed;
    }
    file.Write(encoded.value);
    outcome := Saved;
  }

  /**
   * `load`: one `SetMetrics` call per object decoded before EOF or the
   * first error, each passing the reused decode target.
   */
  method Load(file: File, seekFails: bool, codec: Codec) returns (calls: seq<Snapshot>)
    modifies file
    ensures file.data == old(file.data)
    ensures calls == if seekFails then [] else Installs(None, codec.decode(file.data))
  {
    calls := [];
    var ok := file.SeekStart(seekFails);
    if !ok {
      return;
    }
    var steps := codec.decode(file.data);
    var target: Option<Snapshot> := None;
    var i := 0;
    while true
      invariant file.data == old(file.data)
      invariant CallsSoFar(steps, i, target, calls)
      decreases |steps| - i
    {
      var step := StepAt(steps, i);
      if !step.Obj? {
        assert i == |Installs(None, steps)|;
        if step.Eof? {
          break;
        } else {
          return;
        }
      }
      InstallsAt(None, steps, i);
      target := Some(DecodeInto(target, step.m));
      calls := calls + [target.value];
      i := i + 1;
    }
  }

  /**
   * `Enable`: an empty path, or a file that did not open (`openedFile` is
   * null), ends it with nothing restored and no saves scheduled; otherwise
   * the file is loaded when `restore` is set and the save timer starts.
   */
  method Enable(filePath: string, restore: bool, openedFile: File?, seekFails: bool, codec: Codec)
    returns (calls: seq<Snapshot>, savesScheduled: bool)
    modifies openedFile
    ensures savesScheduled <==> filePath != "" && openedFile != null
    ensures !savesScheduled ==> calls == []
    ensures savesScheduled && !restore ==> calls == []
    ensures savesScheduled && restore ==> calls == if seekFails then [] else Installs(None, codec.decode(openedFile.data))
  {
    if filePath == "" {
      return [], false;
    }
    if openedFile == null {
      return [], false;
    }
    calls := [];
    if restore {
      calls := Load(openedFile, seekFails, codec);
    }
    savesScheduled := true;
  }

  /** The store after a run of `SetMetrics` calls, each replacing the whole contents. */
  function Replay(s: Snapshot, calls: seq<Snapshot>): Snapshot
    decreases |calls|
  {
    if calls == [] then s else Replay(calls[0], calls[1..])
  }

  /** The last `SetMetrics` call wins. */
  lemma {:induction false} ReplayLast(s: Snapshot, calls: seq<Snapshot>)
    ensures Replay(s, calls) == if calls == [] then s else calls[|calls| - 1]
    decreases |calls|
  {
    if calls != [] {
      ReplayLast(calls[0], calls[1..]);
    }
  }

  /**
   * Replaying the calls `load` makes, with `SetMetrics` taking a copy,
   * leaves the store the file storage's own load would, except that the
   * file storage also holds what a failing call stored into the shared
   * decode target. When the loop ends at EOF the two loaders agree.
   */
  lemma ReplayAgreesWithLoaded(s: Snapshot, steps: seq<DecodeStep>)
    ensures var ins := Installs(None, steps);
      && (ins == [] ==> Replay(s, ins) == s && Loaded(s, steps) == s)
      && (ins != [] ==> Loaded(s, steps) == Replay(s, ins) + Partial(StepAt(steps, |ins|)))
    ensures !StepAt(steps, |Installs(None, steps)|).Err? ==> Replay(s, Installs(None, steps)) == Loaded(s, steps)
  {
    var ins := Installs(None, steps);
    ReplayLast(s, ins);
    if ins != [] {
      assert ins[|ins| - 1] + map[] == ins[|ins| - 1];
    }
  }
}
