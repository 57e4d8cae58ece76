/**
 * What the two snapshot writers (`storage.FileStorage` and
 * `filestore.FileStore`) share: the JSON codec for a whole store, the
 * stream of outcomes a `json.Decoder` yields while reading a file, and the
 * effect of the truncate, seek, encode sequence that saves a snapshot.
 */
module Persist {
  import opened Wrappers
  import opened Bytes
  import opened Model
  import opened StoreSpec
  import opened OsFile

  /**
   * One call of `decoder.Decode(&metrics)`: an object, end of input, or any
   * other error. An error still leaves in the target map the entries the
   * decoder stored before returning it: a field of the wrong JSON type is
   * skipped and the rest of the object decoded, so `partial` holds those
   * entries; a syntax error or a truncated file is found before anything is
   * stored, so `partial` is empty.
   */
  datatype DecodeStep = Obj(m: Snapshot) | Eof | Err(partial: Snapshot)

  /** The entries a step stores into the target without completing an object. */
  function Partial(step: DecodeStep): (r: Snapshot)
    ensures !step.Err? ==> r == map[]
  {
    if step.Err? then step.partial else map[]
  }

  /**
   * `json.Encoder.Encode` of a store (None when encoding fails, for a NaN
   * gauge for instance) and the outcomes of decoding a byte string with
   * `json.Decoder`, one per call until the first end or error.
   */
  datatype Codec = Codec(encode: Snapshot -> Option<Bytes>, decode: Bytes -> seq<DecodeStep>)

  /** The outcome of the `n`-th `Decode` call; once the input is exhausted, `io.EOF`. */
  function StepAt(steps: seq<DecodeStep>, n: nat): DecodeStep {
    if n < |steps| then steps[n] else Eof
  }

  /**
   * The codec laws the model relies on: decoding what was encoded yields
   * that store and then EOF, and an empty file yields EOF at once.
   */
  ghost predicate Inverse(c: Codec) {
    && (forall m :: c.encode(m).Some? ==> c.decode(c.encode(m).value) == [Obj(m), Eof])
    && StepAt(c.decode([]), 0) == Eof
  }

  /**
   * Decoding into `var metrics map[...]`: a nil map receives a fresh map,
   * a map left by an earlier call keeps its entries and takes the newly
   * decoded ones over them.
   */
  function DecodeInto(target: Option<Snapshot>, m: Snapshot): (r: Snapshot)
    ensures r.Keys == m.Keys + (if target.Some? then target.value.Keys else {})
    ensures forall k :: k in m ==> r[k] == m[k]
  {
    if target.Some? then target.value + m else m
  }

  /**
   * The maps the load loop installs, one per object decoded before the
   * first end or error; `target` is the decode target on entry.
   */
  function Installs(target: Option<Snapshot>, steps: seq<DecodeStep>): (r: seq<Snapshot>)
    ensures |r| <= |steps|
    ensures forall i :: 0 <= i < |r| ==> steps[i].Obj?
    ensures |r| < |steps| ==> !steps[|r|].Obj?
    decreases |steps|
  {
    if steps == [] || !steps[0].Obj? then []
    else
      var t := DecodeInto(target, steps[0].m);
      [t] + Installs(Some(t), steps[1..])
  }

  /**
   * The store after the load loop: `current` when no map was installed;
   * otherwise the last map installed, which is also the decode target, so
   * the entries a failing call stored into it are in the store as well.
   */
  function Loaded(current: Snapshot, steps: seq<DecodeStep>): Snapshot {
    var ins := Installs(None, steps);
    if ins == [] then current else ins[|ins| - 1] + Partial(StepAt(steps, |ins|))
  }

  /** The steps that decode each map of `ms` in turn. */
  function Objs(ms: seq<Snapshot>): (r: seq<DecodeStep>)
    ensures |r| == |ms| && forall i :: 0 <= i < |ms| ==> r[i] == Obj(ms[i])
  {
    seq(|ms|, i requires 0 <= i < |ms| => Obj(ms[i]))
  }

  /** The maps of `ms` merged so that a later one wins on a shared key. */
  function MergeAll(ms: seq<Snapshot>): Snapshot {
    if ms == [] then map[] else ms[0] + MergeAll(ms[1..])
  }

  lemma MapUnionAssoc(a: Snapshot, b: Snapshot, c: Snapshot)
    ensures (a + b) + c == a + (b + c)
  {
  }

  /** Decoding an object installs the merged target and carries it into the next call. */
  lemma InstallsCons(t: Option<Snapshot>, m: Snapshot, steps: seq<DecodeStep>)
    ensures Installs(t, [Obj(m)] + steps) == [DecodeInto(t, m)] + Installs(Some(DecodeInto(t, m)), steps)
  {
    assert ([Obj(m)] + steps)[1..] == steps;
  }

  lemma ObjsCons(ms: seq<Snapshot>, rest: seq<DecodeStep>)
    requires ms != []
    ensures Objs(ms) + rest == [Obj(ms[0])] + (Objs(ms[1..]) + rest)
  {
    assert Objs(ms) == [Obj(ms[0])] + Objs(ms[1..]);
  }

  /** Merging into a target first and then the rest is merging the whole into the target. */
  lemma DecodeIntoTwice(t: Option<Snapshot>, m: Snapshot, r: Snapshot)
    ensures DecodeInto(Some(DecodeInto(t, m)), r) == DecodeInto(t, m + r)
  {
    if t.Some? {
      MapUnionAssoc(t.value, m, r);
    }
  }

  /** With a decode target `t` on entry, the last install of a run of objects is `t` merged with all of them. */
  lemma {:induction false} InstallsLast(t: Option<Snapshot>, ms: seq<Snapshot>, rest: seq<DecodeStep>)
    requires ms != []
    ensures var ins := Installs(t, Objs(ms) + rest);
      |ins| >= |ms| && ins[|ms| - 1] == DecodeInto(t, MergeAll(ms))
    decreases |ms|
  {
    var t1 := DecodeInto(t, ms[0]);
    ObjsCons(ms, rest);
    InstallsCons(t, ms[0], Objs(ms[1..]) + rest);
    if |ms| == 1 {
      assert MergeAll(ms) == ms[0] + map[];
      assert ms[0] + map[] == ms[0];
    } else {
      InstallsLast(Some(t1), ms[1..], rest);
      DecodeIntoTwice(t, ms[0], MergeAll(ms[1..]));
    }
  }

  /** Installs stop at the first step that is not an object: what follows it is never read. */
  lemma {:induction false} InstallsStop(t: Option<Snapshot>, ms: seq<Snapshot>, stop: DecodeStep, rest: seq<DecodeStep>)
    requires !stop.Obj?
    ensures |Installs(t, Objs(ms) + [stop] + rest)| == |ms|
    decreases |ms|
  {
    var steps := Objs(ms) + [stop] + rest;
    if ms == [] {
      assert steps[0] == stop;
    } else {
      assert steps[0] == Obj(ms[0]);
      assert steps[1..] == Objs(ms[1..]) + [stop] + rest;
      InstallsStop(Some(DecodeInto(t, ms[0])), ms[1..], stop, rest);
    }
  }

  /**
   * The load loop over objects `ms` followed by EOF or an error: with no
   * object the store is as it was; otherwise it holds every object merged,
   * the later winning, with the entries a failing call stored on top, and
   * nothing after the stop is read.
   */
  lemma LoadedStop(current: Snapshot, ms: seq<Snapshot>, stop: DecodeStep, rest: seq<DecodeStep>)
    requires !stop.Obj?
    ensures Loaded(current, Objs(ms) + [stop] + rest) == if ms == [] then current else MergeAll(ms) + Partial(stop)
  {
    InstallsStop(None, ms, stop, rest);
    assert (Objs(ms) + [stop] + rest)[|ms|] == stop;
    if ms != [] {
      InstallsLast(None, ms, [stop] + rest);
      assert Objs(ms) + [stop] + rest == Objs(ms) + ([stop] + rest);
    }
  }

  /** A first object replaces the store wholesale: what it held before has no effect. */
  lemma LoadedDiscardsPrior(a: Snapshot, b: Snapshot, steps: seq<DecodeStep>)
    requires steps != [] && steps[0].Obj?
    ensures Loaded(a, steps) == Loaded(b, steps)
    ensures steps[0].m.Keys <= Loaded(a, steps).Keys
  {
    var ins := Installs(None, steps);
    assert ins[0] == steps[0].m;
    InstallsGrow(None, steps);
    assert KeysGrow(ins);
    assert ins[0].Keys <= ins[|ins| - 1].Keys;
  }

  /**
   * A file whose second object has a gauge `value` that is not a number:
   * the decoder allocates the Value pointer (so "b" holds 0.0) before
   * reporting the error, and since the target is the store's own map by
   * then, the store keeps it.
   * Had the first object failed, the store would be left as it was.
   */
  lemma LoadTypeErrorExample(current: Snapshot)
    ensures var a := map["a" := CounterEntry("a", 1)];
      var b := Metrics("b", GaugeType, None, Some(Float64(0)));
      && Loaded(current, [Obj(a), Err(map["b" := b])]) == map["a" := CounterEntry("a", 1), "b" := b]
      && Loaded(current, [Err(map["b" := b])]) == current
  {
    var a := map["a" := CounterEntry("a", 1)];
    var b := Metrics("b", GaugeType, None, Some(Float64(0)));
    LoadedStop(current, [a], Err(map["b" := b]), []);
    assert Objs([a]) + [Err(map["b" := b])] + [] == [Obj(a), Err(map["b" := b])];
    assert MergeAll([a]) == a + map[];
    LoadedStop(current, [], Err(map["b" := b]), []);
    assert Objs([]) + [Err(map["b" := b])] + [] == [Err(map["b" := b])];
  }

  /** Each map in `ins` holds every key of the maps before it. */
  ghost predicate KeysGrow(ins: seq<Snapshot>) {
    forall i, j :: 0 <= i <= j < |ins| ==> ins[i].Keys <= ins[j].Keys
  }

  /** Because the decode target is reused, no later install drops a key an earlier one held. */
  lemma {:induction false} InstallsGrow(t: Option<Snapshot>, steps: seq<DecodeStep>)
    ensures KeysGrow(Installs(t, steps))
    decreases |steps|
  {
    if steps != [] && steps[0].Obj? {
      var t1 := DecodeInto(t, steps[0].m);
      var tail := Installs(Some(t1), steps[1..]);
      InstallsGrow(Some(t1), steps[1..]);
      assert KeysGrow(tail);
      InstallsAbove(t1, steps[1..]);
      var ins := Installs(t, steps);
      assert ins == [t1] + tail;
      forall i, j | 0 <= i <= j < |ins| ensures ins[i].Keys <= ins[j].Keys {
        if 0 < i {
          assert ins[i] == tail[i - 1] && ins[j] == tail[j - 1];
          assert tail[i - 1].Keys <= tail[j - 1].Keys;
        } else if 0 < j {
          assert ins[j] == tail[j - 1];
          assert t1.Keys <= tail[j - 1].Keys;
        }
      }
    }
  }

  /** Every install made with target `t` on entry holds all of `t`'s keys. */
  lemma {:induction false} InstallsAbove(t: Snapshot, steps: seq<DecodeStep>)
    ensures forall i :: 0 <= i < |Installs(Some(t), steps)| ==> t.Keys <= Installs(Some(t), steps)[i].Keys
    decreases |steps|
  {
    if steps != [] && steps[0].Obj? {
      var t1 := DecodeInto(Some(t), steps[0].m);
      InstallsAbove(t1, steps[1..]);
      assert Installs(Some(t), steps) == [t1] + Installs(Some(t1), steps[1..]);
    }
  }

  /** The next install is the decoded object merged into the previous one. */
  lemma {:induction false} InstallsAt(t: Option<Snapshot>, steps: seq<DecodeStep>, i: nat)
    requires i < |Installs(t, steps)|
    ensures Installs(t, steps)[i] == DecodeInto(if i == 0 then t else Some(Installs(t, steps)[i - 1]), steps[i].m)
    decreases i
  {
    var t1 := DecodeInto(t, steps[0].m);
    assert Installs(t, steps) == [t1] + Installs(Some(t1), steps[1..]);
    if i > 0 {
      InstallsAt(Some(t1), steps[1..], i - 1);
    }
  }

  /** Which step of a save failed, if any. */
  datatype SaveOutcome = Saved | TruncateFailed | SeekFailed | EncodeFailed

  /**
   * The file after `save`: truncate, seek and encode in that order, each
   * failure returning at once, so a later step and the final flush never
   * happen. `encoded` is the encoder's result for the current store.
   */
  function SaveEffect(f: FileState, truncateFails: bool, seekFails: bool, encoded: Option<Bytes>): (r: (FileState, SaveOutcome))
    ensures truncateFails ==> r == (f, TruncateFailed)
    ensures !truncateFails && seekFails ==> r == (FileState([], f.pos), SeekFailed)
    ensures !truncateFails && !seekFails && encoded.None? ==> r == (FileState([], 0), EncodeFailed)
    ensures r.1 == Saved <==> !truncateFails && !seekFails && encoded.Some?
    ensures r.1 == Saved ==> r.0 == FileState(encoded.value, |encoded.value|)
  {
    if truncateFails then (f, TruncateFailed)
    else if seekFails then (FileState([], f.pos), SeekFailed)
    else if encoded.None? then (FileState([], 0), EncodeFailed)
    else (FileState(WriteAt([], 0, encoded.value), |encoded.value|), Saved)
  }

  /**
   * Round trip: a successful save of `m` followed by a load into any store
   * (even one with other entries) yields exactly `m`, given the codec laws.
   */
  lemma SaveThenLoad(c: Codec, f: FileState, m: Snapshot, current: Snapshot)
    requires Inverse(c) && c.encode(m).Some?
    ensures var (g, outcome) := SaveEffect(f, false, false, c.encode(m));
      outcome == Saved && Loaded(current, c.decode(g.data)) == m
  {
    var g := SaveEffect(f, false, false, c.encode(m)).0;
    assert c.decode(g.data) == Objs([m]) + [Eof] + [];
    LoadedStop(current, [m], Eof, []);
    assert MergeAll([m]) == m + map[];
    assert m + map[] == m;
  }

  /** A save whose truncate succeeded but whose seek or encode failed leaves an empty file, which loads as nothing. */
  lemma FailedSaveLoadsNothing(c: Codec, f: FileState, seekFails: bool, current: Snapshot)
    requires Inverse(c)
    ensures var (g, outcome) := SaveEffect(f, false, seekFails, None);
      outcome != Saved && Loaded(current, c.decode(g.data)) == current
  {
    var steps := c.decode([]);
    assert StepAt(steps, 0) == Eof;
    assert Installs(None, steps) == [];
  }
}
