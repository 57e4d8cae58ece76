/**
 * The gRPC server (`grpcserver.Server`): lookups, single and batch
 * updates over the store, and the ping, with replies converted by
 * `wrapMetric`.
 */
module GrpcServer {
  import opened Wrappers
  import opened Int64
  import opened Model
  import opened StoreSpec
  import opened Proto
  import opened Ingest
  import opened StorageMem

  datatype GrpcError = ErrNotFound | ErrBadType

  /** A unary call's result: a metric, an error, or a panic in the handler. */
  datatype Reply = Ok(metric: PbMetric) | Failed(err: GrpcError) | Panic

  /** `GetMetric` (by the request's name) and `GetMetricByJSON` (by its id): the wrapped record, or `ErrNotFound` exactly when absent. */
  function GetMetric(s: Snapshot, name: string): (r: Reply)
    ensures r == Failed(ErrNotFound) <==> name !in s
    ensures name in s ==> r == Ok(WrapMetric(s[name]))
  {
    if name in s then Ok(WrapMetric(s[name])) else Failed(ErrNotFound)
  }

  /** `UpdateMetric`: file the message by type, then reply with the stored record; an unknown type is `ErrBadType`. */
  function UpdateMetric(s: Snapshot, req: PbMetric): (Reply, Snapshot) {
    match ApplyMessage(s, req)
    case Applied(t) => (if req.id in t then Ok(WrapMetric(t[req.id])) else Failed(ErrNotFound), t)
    case Skipped => (Failed(ErrBadType), s)
    case Panicked => (Panic, s)
  }

  /**
   * An unknown type fails with `ErrBadType` and leaves the store as it
   * was; any other message is filed and the reply is the record now stored
   * under its id, which a following `GetMetric` returns too. For a counter
   * that is the accumulated total.
   */
  lemma UpdateMetricEffect(s: Snapshot, req: PbMetric)
    ensures var (r, t) := UpdateMetric(s, req);
      && (r == Failed(ErrBadType) <==> req.mType != GaugeType && req.mType != CounterType)
      && (r == Failed(ErrBadType) ==> t == s)
      && (r.Ok? ==> req.id in t && r == GetMetric(t, req.id))
      && (req.mType == GaugeType ==> t == SetGauge(s, req.id, req.value) && r == Ok(WrapMetric(GaugeEntry(req.id, req.value))))
      && (req.mType == CounterType && CanAdd(s, req.id) ==>
            r.Ok? && r.metric.delta == (if req.id in s then Add(s[req.id].delta.value, req.delta) else req.delta))
  {
    if ApplyMessage(s, req).Applied? {
      if req.mType == GaugeType {
        SetGaugeEffect(s, req.id, req.value);
      } else {
        AddCounterEffect(s, req.id, req.delta);
      }
    }
  }

  /** `UpdateMetricsBatch` never reports an error: it either finishes, having applied every known message in order, or panics. */
  function UpdateMetricsBatch(s: Snapshot, ps: seq<PbMetric>): Option<Snapshot> {
    ApplyMessages(s, ps)
  }

  /** Messages of unknown type are skipped: dropping them changes nothing. */
  lemma {:induction false} UpdateMetricsBatchSkipsUnknown(s: Snapshot, ps: seq<PbMetric>)
    ensures UpdateMetricsBatch(s, ps) == UpdateMetricsBatch(s, Known(ps))
    decreases |ps|
  {
    if ps != [] {
      match ApplyMessage(s, ps[0])
      case Applied(t) => UpdateMetricsBatchSkipsUnknown(t, ps[1..]);
      case Skipped => UpdateMetricsBatchSkipsUnknown(s, ps[1..]);
      case Panicked =>
    }
  }

  /** The messages of known type, in order. */
  function Known(ps: seq<PbMetric>): (r: seq<PbMetric>)
    ensures |r| <= |ps|
    ensures forall i :: 0 <= i < |r| ==> r[i].mType == GaugeType || r[i].mType == CounterType
  {
    if ps == [] then []
    else if ps[0].mType == GaugeType || ps[0].mType == CounterType then [ps[0]] + Known(ps[1..])
    else Known(ps[1..])
  }

  class Server {
    const storage: MemStorage

    constructor NewServer(s: MemStorage)
      ensures storage == s
    {
      storage := s;
    }

    /** `Ping` passes the store's error on unchanged; the in-memory store always has one. */
    method Ping() returns (err: Option<StorageError>)
      ensures err == Some(PingUnsupported)
    {
      err := storage.Ping();
    }

    /** Files one message through the store's methods, as the type switch does. */
    method File(p: PbMetric) returns (step: Step)
      modifies storage
      ensures step.Applied? ==> step == Applied(storage.metrics)
      ensures !step.Applied? ==> storage.metrics == old(storage.metrics)
      ensures step == ApplyMessage(old(storage.metrics), p)
    {
      if p.mType == GaugeType {
        storage.SetGauge(p.id, p.value);
      } else if p.mType == CounterType {
        var current := storage.GetMetrics();
        if !CanAdd(current, p.id) {
          return Panicked;
        }
        storage.AddCounter(p.id, p.delta);
      } else {
        return Skipped;
      }
      step := Applied(storage.metrics);
    }

    method Update(req: PbMetric) returns (r: Reply)
      modifies storage
      ensures (r, storage.metrics) == UpdateMetric(old(storage.metrics), req)
    {
      var step := File(req);
      if step.Skipped? {
        return Failed(ErrBadType);
      }
      if step.Panicked? {
        return Panic;
      }
      var current := storage.GetMetrics();
      if req.id !in current {
        return Failed(ErrNotFound);
      }
      r := Ok(WrapMetric(current[req.id]));
    }

    /** The batch loop; `finished` is false when a message panicked. */
    method UpdateBatch(ps: seq<PbMetric>) returns (finished: bool)
      modifies storage
      ensures finished <==> UpdateMetricsBatch(old(storage.metrics), ps).Some?
      ensures finished ==> storage.metrics == UpdateMetricsBatch(old(storage.metrics), ps).value
    {
      var i := 0;
      while i < |ps|
        invariant i <= |ps|
        invariant UpdateMetricsBatch(old(storage.metrics), ps) == UpdateMetricsBatch(storage.metrics, ps[i..])
      {
        assert ps[i..][0] == ps[i] && ps[i..][1..] == ps[i + 1..];
        var step := File(ps[i]);
        if step.Panicked? {
          return false;
        }
        i := i + 1;
      }
      finished := true;
    }
  }
}
