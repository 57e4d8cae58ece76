/**
 * How the server files incoming records: the type switch every update
 * handler runs, for JSON records (nil payloads possible) and for protobuf
 * messages (payloads always present), one record at a time and over a
 * whole batch. A nil dereference, or `AddCounter` on an entry without a
 * Delta, panics; the effects of earlier records stay in the store.
 */
module Ingest {
  import opened Wrappers
  import opened Int64
  import opened Model
  import opened StoreSpec
  import opened Proto

  /** What one record does: changes the store, is skipped as an unknown type, or panics. */
  datatype Step = Applied(store: Snapshot) | Skipped | Panicked

  /** The switch of `UpdateBatchHandler` and `UpdateJSONHandler` for one decoded record. */
  function ApplyRecord(s: Snapshot, m: Metrics): (r: Step)
    ensures r.Skipped? <==> m.mType != GaugeType && m.mType != CounterType
    ensures r.Panicked? <==>
      (m.mType == GaugeType && m.value.None?) || (m.mType == CounterType && (m.delta.None? || !CanAdd(s, m.id)))
  {
    if m.mType == GaugeType then
      if m.value.None? then Panicked else Applied(SetGauge(s, m.id, m.value.value))
    else if m.mType == CounterType then
      if m.delta.None? || !CanAdd(s, m.id) then Panicked else Applied(AddCounter(s, m.id, m.delta.value))
    else Skipped
  }

  /**
   * An applied record files a gauge record with its Value, or a counter
   * record with the old total plus its Delta, under its id; no other entry
   * changes, and a well-formed store stays well-formed.
   */
  lemma ApplyRecordEffect(s: Snapshot, m: Metrics)
    requires ApplyRecord(s, m).Applied?
    ensures var t := ApplyRecord(s, m).store;
      && t.Keys == s.Keys + {m.id}
      && (m.mType == GaugeType ==> t[m.id] == GaugeEntry(m.id, m.value.value))
      && (m.mType == CounterType ==>
            t[m.id] == CounterEntry(m.id, if m.id in s then Add(s[m.id].delta.value, m.delta.value) else m.delta.value))
      && (forall k :: k in s && k != m.id ==> t[k] == s[k])
      && (WellFormed(s) ==> WellFormed(t))
  {
    if m.mType == GaugeType {
      SetGaugeEffect(s, m.id, m.value.value);
    } else {
      AddCounterEffect(s, m.id, m.delta.value);
    }
  }

  /** The state of the batch loop: the store, whether an unknown type was seen (a 400 was written), whether it panicked. */
  datatype BatchState = BatchState(store: Snapshot, unknownSeen: bool, panicked: bool)

  function Start(s: Snapshot): BatchState {
    BatchState(s, false, false)
  }

  /** One iteration of the loop. */
  function Next(b: BatchState, m: Metrics): BatchState {
    match ApplyRecord(b.store, m)
    case Applied(t) => b.(store := t)
    case Skipped => b.(unknownSeen := true)
    case Panicked => b.(panicked := true)
  }

  /** The records applied in order; a panic ends the loop. */
  function ApplyBatch(b: BatchState, ms: seq<Metrics>): BatchState
    decreases |ms|
  {
    if ms == [] || b.panicked then b else ApplyBatch(Next(b, ms[0]), ms[1..])
  }

  /** Applying `x` and then `y` is applying `x + y`. */
  lemma {:induction false} ApplyBatchAppend(b: BatchState, x: seq<Metrics>, y: seq<Metrics>)
    ensures ApplyBatch(b, x + y) == ApplyBatch(ApplyBatch(b, x), y)
    decreases |x|
  {
    if x == [] {
      assert x + y == y;
    } else if !b.panicked {
      assert (x + y)[0] == x[0] && (x + y)[1..] == x[1..] + y;
      ApplyBatchAppend(Next(b, x[0]), x[1..], y);
    }
  }

  /** What the loop does to the store does not depend on whether a 400 was already written. */
  lemma {:induction false} ApplyBatchIgnoresFlag(b: BatchState, ms: seq<Metrics>, u: bool)
    ensures ApplyBatch(b.(unknownSeen := u), ms).store == ApplyBatch(b, ms).store
    ensures ApplyBatch(b.(unknownSeen := u), ms).panicked == ApplyBatch(b, ms).panicked
    decreases |ms|
  {
    if ms != [] && !b.panicked {
      var n := Next(b, ms[0]);
      assert Next(b.(unknownSeen := u), ms[0]) == n.(unknownSeen := Next(b.(unknownSeen := u), ms[0]).unknownSeen);
      ApplyBatchIgnoresFlag(n, ms[1..], Next(b.(unknownSeen := u), ms[0]).unknownSeen);
    }
  }

  /** A record of unknown type does not stop the loop and changes nothing: the rest of the batch is applied as if it were absent. */
  lemma ApplyBatchSkipsUnknown(b: BatchState, x: seq<Metrics>, m: Metrics, y: seq<Metrics>)
    requires m.mType != GaugeType && m.mType != CounterType
    ensures ApplyBatch(b, x + [m] + y).store == ApplyBatch(b, x + y).store
    ensures ApplyBatch(b, x + [m] + y).panicked == ApplyBatch(b, x + y).panicked
    ensures !ApplyBatch(b, x).panicked ==> ApplyBatch(b, x + [m] + y).unknownSeen
  {
    var c := ApplyBatch(b, x);
    ApplyBatchAppend(b, x + [m], y);
    ApplyBatchAppend(b, x, [m]);
    ApplyBatchAppend(b, x, y);
    assert [m][1..] == [];
    if !c.panicked {
      assert ApplyBatch(c, [m]) == c.(unknownSeen := true);
      ApplyBatchIgnoresFlag(c, y, true);
      UnknownSeenStays(c.(unknownSeen := true), y);
    }
  }

  lemma {:induction false} UnknownSeenStays(b: BatchState, ms: seq<Metrics>)
    requires b.unknownSeen
    ensures ApplyBatch(b, ms).unknownSeen
    decreases |ms|
  {
    if ms != [] && !b.panicked {
      UnknownSeenStays(Next(b, ms[0]), ms[1..]);
    }
  }

  /** A panicking record keeps every earlier record applied and applies no later one. */
  lemma PanicKeepsEarlier(b: BatchState, x: seq<Metrics>, m: Metrics, y: seq<Metrics>)
    requires !ApplyBatch(b, x).panicked
    requires ApplyRecord(ApplyBatch(b, x).store, m).Panicked?
    ensures ApplyBatch(b, x + [m] + y).panicked
    ensures ApplyBatch(b, x + [m] + y).store == ApplyBatch(b, x).store
  {
    ApplyBatchAppend(b, x + [m], y);
    ApplyBatchAppend(b, x, [m]);
    assert [m][1..] == [];
  }

  /** A batch keeps a well-formed store well-formed. */
  lemma {:induction false} ApplyBatchWellFormed(b: BatchState, ms: seq<Metrics>)
    requires WellFormed(b.store)
    ensures WellFormed(ApplyBatch(b, ms).store)
    decreases |ms|
  {
    if ms != [] && !b.panicked {
      if ApplyRecord(b.store, ms[0]).Applied? {
        ApplyRecordEffect(b.store, ms[0]);
      }
      ApplyBatchWellFormed(Next(b, ms[0]), ms[1..]);
    }
  }

  // ---- protobuf messages -------------------------------------------------

  /** The switch of `UpdateMetric` and `UpdateMetricsBatch` for one message. */
  function ApplyMessage(s: Snapshot, p: PbMetric): (r: Step)
    ensures r.Skipped? <==> p.mType != GaugeType && p.mType != CounterType
    ensures r.Panicked? <==> p.mType == CounterType && !CanAdd(s, p.id)
  {
    if p.mType == GaugeType then Applied(SetGauge(s, p.id, p.value))
    else if p.mType == CounterType then
      if CanAdd(s, p.id) then Applied(AddCounter(s, p.id, p.delta)) else Panicked
    else Skipped
  }

  /** The messages applied in order, unknown types skipped; None if one panics. */
  function ApplyMessages(s: Snapshot, ps: seq<PbMetric>): Option<Snapshot>
    decreases |ps|
  {
    if ps == [] then Some(s)
    else
      match ApplyMessage(s, ps[0])
      case Applied(t) => ApplyMessages(t, ps[1..])
      case Skipped => ApplyMessages(s, ps[1..])
      case Panicked => None
  }

  /** Batch composition: applying `a` and then `b` is applying `a + b`. */
  lemma {:induction false} ApplyMessagesAppend(s: Snapshot, a: seq<PbMetric>, b: seq<PbMetric>)
    ensures ApplyMessages(s, a + b) == match ApplyMessages(s, a) case None => None case Some(t) => ApplyMessages(t, b)
    decreases |a|
  {
    if a == [] {
      assert a + b == b;
    } else {
      assert (a + b)[0] == a[0] && (a + b)[1..] == a[1..] + b;
      match ApplyMessage(s, a[0])
      case Applied(t) => ApplyMessagesAppend(t, a[1..], b);
      case Skipped => ApplyMessagesAppend(s, a[1..], b);
      case Panicked =>
    }
  }

  /** For a well-shaped record, the message the agent makes of it is filed exactly as the record itself would be. */
  lemma ApplyWrapped(s: Snapshot, m: Metrics)
    requires PayloadMatchesTag(m)
    ensures ApplyMessage(s, WrapMetric(m)) == ApplyRecord(s, m)
  {
  }

  /**
   * The gRPC path and the HTTP path agree: a batch of well-shaped records,
   * sent as messages, leaves the store the HTTP batch loop leaves, and
   * panics exactly when the loop does.
   */
  lemma {:induction false} GrpcAgreesWithHttp(s: Snapshot, ms: seq<Metrics>, ps: seq<PbMetric>)
    requires |ps| == |ms|
    requires forall i :: 0 <= i < |ms| ==> PayloadMatchesTag(ms[i]) && ps[i] == WrapMetric(ms[i])
    ensures var r := ApplyBatch(Start(s), ms);
      ApplyMessages(s, ps) == if r.panicked then None else Some(r.store)
    decreases |ms|
  {
    if ms != [] {
      ApplyWrapped(s, ms[0]);
      assert PayloadMatchesTag(ms[0]);
      match ApplyRecord(s, ms[0])
      case Applied(t) => GrpcAgreesWithHttp(t, ms[1..], ps[1..]);
      case Panicked =>
    }
  }
}
