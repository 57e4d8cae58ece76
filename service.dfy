/**
 * The HTTP handlers of `service.MetricsService`, each as its status, its
 * reply and its effect on the store. Float parsing and printing are
 * abstract functions; request binding is an input that is either a
 * decoded value or a binding error. When a handler writes a 400 and then
 * a 200, Gin keeps the first status, which is what is modelled.
 */
module Service {
  import opened Wrappers
  import opened Int64
  import opened Strconv
  import opened Model
  import opened StoreSpec
  import opened Ingest
  import opened StorageMem

  const StatusOK: int := 200
  const StatusBadRequest: int := 400
  const StatusNotFound: int := 404
  const StatusInternalServerError: int := 500

  /** A response body: plain text, a record as JSON, a JSON string, or the binder's error object. */
  datatype Reply = Text(s: string) | Record(m: Metrics) | Message(s: string) | BindError

  /** A response, or a panic inside the handler. */
  datatype Outcome = Responded(status: int, reply: Reply) | Panic

  /** A handler's outcome and the store it leaves. */
  datatype Handled = Handled(outcome: Outcome, store: Snapshot)

  const UnknownName: string := "Unknown metric name"
  const Processed: string := "Запрос успешно обработан"

  /** `PingHandler`: "pong" with 200 exactly when the store's `Ping` succeeds, else 500. */
  function PingHandler<E>(err: Option<E>): (r: Outcome)
    ensures r.Responded? && (r.status == StatusOK <==> err.None?)
    ensures err.None? ==> r.reply == Text("pong")
    ensures err.Some? ==> r.status == StatusInternalServerError
  {
    if err.Some? then Responded(StatusInternalServerError, Text("Internal Server Error"))
    else Responded(StatusOK, Text("pong"))
  }

  /**
   * `ValueHandler` on GET `/value/:type/:name/`: 404 for an unknown name;
   * otherwise the Value printed with `%g` when the URL says gauge and the
   * Delta printed with `%d` for any other URL type, whatever the stored
   * record's own tag. A missing payload is a nil dereference.
   */
  function ValueHandler(s: Snapshot, metricType: string, metricName: string, formatFloat: Float64 -> string): Outcome {
    if metricName !in s then Responded(StatusNotFound, Text(UnknownName))
    else
      var m := s[metricName];
      if metricType == GaugeType then
        if m.value.None? then Panic else Responded(StatusOK, Text(formatFloat(m.value.value)))
      else if m.delta.None? then Panic else Responded(StatusOK, Text(Itoa(m.delta.value)))
  }

  /** 404 exactly when the name is absent, whatever the type in the URL. */
  lemma ValueHandlerNotFound(s: Snapshot, metricType: string, metricName: string, formatFloat: Float64 -> string)
    ensures ValueHandler(s, metricType, metricName, formatFloat) == Responded(StatusNotFound, Text(UnknownName))
      <==> metricName !in s
  {
  }

  /**
   * On a well-formed store the payload is chosen by the URL's type: a
   * counter is read through any URL type other than gauge, and reading a
   * gauge through such a URL panics.
   */
  lemma ValueHandlerByUrlType(s: Snapshot, metricType: string, metricName: string, formatFloat: Float64 -> string)
    requires WellFormed(s) && metricName in s
    ensures var m := s[metricName];
      && (metricType == GaugeType && m.mType == GaugeType ==>
            ValueHandler(s, metricType, metricName, formatFloat) == Responded(StatusOK, Text(formatFloat(m.value.value))))
      && (metricType != GaugeType && m.mType == CounterType ==>
            ValueHandler(s, metricType, metricName, formatFloat) == Responded(StatusOK, Text(Itoa(m.delta.value))))
      && (metricType == GaugeType && m.mType == CounterType ==> ValueHandler(s, metricType, metricName, formatFloat) == Panic)
      && (metricType != GaugeType && m.mType == GaugeType ==> ValueHandler(s, metricType, metricName, formatFloat) == Panic)
  {
    assert PayloadMatchesTag(s[metricName]);
  }

  /** `ValueJSONHandler`: 400 on a binding error, else the stored record with 200, or 404 for an unknown id. */
  function ValueJSONHandler(s: Snapshot, body: Option<Metrics>): (r: Outcome)
    ensures r.Responded?
    ensures body.None? <==> r.status == StatusBadRequest
    ensures body.Some? ==> (r.status == StatusOK <==> body.value.id in s)
    ensures body.Some? && body.value.id in s ==> r.reply == Record(s[body.value.id])
  {
    match body
    case None => Responded(StatusBadRequest, BindError)
    case Some(m) => if m.id in s then Responded(StatusOK, Record(s[m.id])) else Responded(StatusNotFound, Message(UnknownName))
  }

  /**
   * `UpdateHandler` on POST `/update/:type/:name/:value`. The value is
   * parsed as a float for a gauge and as an integer (`ParseInt(v, 0, 64)`)
   * for a counter; the parsers are abstract.
   */
  function UpdateHandler(s: Snapshot, metricType: string, metricName: string, metricValue: string,
                         parseFloat: string -> Option<Float64>, parseInt: string -> Option<int64>): Handled {
    if metricType == GaugeType then
      match parseFloat(metricValue)
      case None => Handled(Responded(StatusBadRequest, Text("Value must be float64")), s)
      case Some(v) => Handled(Responded(StatusOK, Text(Processed)), SetGauge(s, metricName, v))
    else if metricType == CounterType then
      match parseInt(metricValue)
      case None => Handled(Responded(StatusBadRequest, Text("Value must be int64")), s)
      case Some(d) =>
        if CanAdd(s, metricName) then Handled(Responded(StatusOK, Text(Processed)), AddCounter(s, metricName, d))
        else Handled(Panic, s)
    else Handled(Responded(StatusBadRequest, Text(UnknownName)), s)
  }

  /**
   * A parse failure or an unknown type answers 400 and leaves the store
   * unchanged; a successful parse answers 200 after `SetGauge` or
   * `AddCounter` with the parsed value.
   */
  lemma UpdateHandlerEffect(s: Snapshot, metricType: string, metricName: string, metricValue: string,
                            parseFloat: string -> Option<Float64>, parseInt: string -> Option<int64>)
    ensures var h := UpdateHandler(s, metricType, metricName, metricValue, parseFloat, parseInt);
      var parsed := (metricType == GaugeType && parseFloat(metricValue).Some?)
                 || (metricType == CounterType && parseInt(metricValue).Some?);
      && (h.outcome.Responded? && h.outcome.status == StatusBadRequest <==> !parsed)
      && (!parsed ==> h.store == s)
      && (parsed && metricType == GaugeType ==>
            h.outcome.status == StatusOK && h.store == SetGauge(s, metricName, parseFloat(metricValue).value))
      && (parsed && metricType == CounterType && CanAdd(s, metricName) ==>
            h.outcome.status == StatusOK && h.store == AddCounter(s, metricName, parseInt(metricValue).value))
  {
  }

  /** The Go zero value of a record, which indexing a map with a missing key yields. */
  const ZeroMetrics: Metrics := Metrics("", "", None, None)

  /**
   * `UpdateJSONHandler`: 400 on a binding error; otherwise the record is
   * filed by type (400 for an unknown type, panic on a nil payload) and the
   * reply is the record as stored afterwards.
   */
  function UpdateJSONHandler(s: Snapshot, body: Option<Metrics>): Handled {
    match body
    case None => Handled(Responded(StatusBadRequest, BindError), s)
    case Some(m) =>
      match ApplyRecord(s, m)
      case Applied(t) => Handled(Responded(StatusOK, Record(if m.id in t then t[m.id] else ZeroMetrics)), t)
      case Skipped => Handled(Responded(StatusBadRequest, Message(UnknownName)), s)
      case Panicked => Handled(Panic, s)
  }

  /**
   * A successful JSON update replies with the stored record, so a counter
   * reply carries the accumulated total; a later `ValueJSONHandler` for the
   * same id returns the same record.
   */
  lemma UpdateJSONReturnsStored(s: Snapshot, m: Metrics)
    requires UpdateJSONHandler(s, Some(m)).outcome.Responded?
    requires UpdateJSONHandler(s, Some(m)).outcome.status == StatusOK
    ensures var h := UpdateJSONHandler(s, Some(m));
      && m.id in h.store
      && h.outcome.reply == Record(h.store[m.id])
      && ValueJSONHandler(h.store, Some(Metrics(m.id, "", None, None))) == h.outcome
      && (m.mType == CounterType ==>
            h.store[m.id] == CounterEntry(m.id, if m.id in s then Add(s[m.id].delta.value, m.delta.value) else m.delta.value))
  {
    ApplyRecordEffect(s, m);
  }

  /**
   * `UpdateBatchHandler`: 400 with the store unchanged on a binding error;
   * otherwise the records are applied in order, an unknown type turning the
   * status into 400 without stopping the loop.
   */
  function UpdateBatchHandler(s: Snapshot, body: Option<seq<Metrics>>): Handled {
    match body
    case None => Handled(Responded(StatusBadRequest, BindError), s)
    case Some(ms) =>
      var r := ApplyBatch(Start(s), ms);
      if r.panicked then Handled(Panic, r.store)
      else if r.unknownSeen then Handled(Responded(StatusBadRequest, Message(UnknownName)), r.store)
      else Handled(Responded(StatusOK, Message("OK")), r.store)
  }

  /** The accepted batch of the handler's test: a gauge and a counter, filed as such, answered 200 "OK". */
  lemma UpdateBatchExample(v: Float64)
    ensures UpdateBatchHandler(map[], Some([Metrics("metric1", GaugeType, None, Some(v)), Metrics("metric2", CounterType, Some(5), None)]))
      == Handled(Responded(StatusOK, Message("OK")), map["metric1" := GaugeEntry("metric1", v), "metric2" := CounterEntry("metric2", 5)])
  {
    var ms := [Metrics("metric1", GaugeType, None, Some(v)), Metrics("metric2", CounterType, Some(5), None)];
    var b1 := Next(Start(map[]), ms[0]);
    assert b1.store == map["metric1" := GaugeEntry("metric1", v)];
    assert ApplyBatch(Start(map[]), ms) == ApplyBatch(b1, ms[1..]);
    assert ApplyBatch(b1, ms[1..]) == ApplyBatch(Next(b1, ms[1]), []);
  }

  /** Two deltas for one counter in one batch accumulate: 5 and then 10 store 15. */
  lemma UpdateBatchAccumulates()
    ensures UpdateBatchHandler(map[], Some([Metrics("PollCount", CounterType, Some(5), None), Metrics("PollCount", CounterType, Some(10), None)])).store
      == map["PollCount" := CounterEntry("PollCount", 15)]
  {
    var ms := [Metrics("PollCount", CounterType, Some(5), None), Metrics("PollCount", CounterType, Some(10), None)];
    var b1 := Next(Start(map[]), ms[0]);
    assert b1.store == map["PollCount" := CounterEntry("PollCount", 5)];
    assert ApplyBatch(Start(map[]), ms) == ApplyBatch(b1, ms[1..]);
    assert ApplyBatch(b1, ms[1..]) == ApplyBatch(Next(b1, ms[1]), []);
    assert Add(5, 10) == 15;
  }

  /** A batch as the agent sends it: PollCount += 5 and Alloc := `alloc`. */
  function ScenarioBatch(alloc: Float64): seq<Metrics> {
    [Metrics("PollCount", CounterType, Some(5), None), Metrics("Alloc", GaugeType, None, Some(alloc))]
  }

  /** Posting the scenario batch to a store whose PollCount counter holds `d` (0 when absent) answers 200 and files both records. */
  lemma ScenarioBatchStore(s: Snapshot, d: int64, alloc: Float64)
    requires ("PollCount" in s && s["PollCount"] == CounterEntry("PollCount", d)) || ("PollCount" !in s && d == 0)
    ensures var h := UpdateBatchHandler(s, Some(ScenarioBatch(alloc)));
      && h.outcome == Responded(StatusOK, Message("OK"))
      && h.store == s["PollCount" := CounterEntry("PollCount", Add(d, 5))]["Alloc" := GaugeEntry("Alloc", alloc)]
  {
    var ms := ScenarioBatch(alloc);
    var b1 := Next(Start(s), ms[0]);
    assert b1.store == s["PollCount" := CounterEntry("PollCount", Add(d, 5))];
    assert ApplyBatch(Start(s), ms) == ApplyBatch(b1, ms[1..]);
    assert ApplyBatch(b1, ms[1..]) == ApplyBatch(Next(b1, ms[1]), []);
  }

  /**
   * Posting the batch and reading PollCount gives "5"; posting it again
   * gives "10", and Alloc reads as its printed value.
   */
  lemma EndToEndScenario(alloc: Float64, formatFloat: Float64 -> string)
    ensures var h1 := UpdateBatchHandler(map[], Some(ScenarioBatch(alloc)));
      var h2 := UpdateBatchHandler(h1.store, Some(ScenarioBatch(alloc)));
      && h1.outcome == Responded(StatusOK, Message("OK"))
      && h2.outcome == Responded(StatusOK, Message("OK"))
      && ValueHandler(h1.store, CounterType, "PollCount", formatFloat) == Responded(StatusOK, Text("5"))
      && ValueHandler(h2.store, CounterType, "PollCount", formatFloat) == Responded(StatusOK, Text("10"))
      && ValueHandler(h2.store, GaugeType, "Alloc", formatFloat) == Responded(StatusOK, Text(formatFloat(alloc)))
  {
    ScenarioBatchStore(map[], 0, alloc);
    var s1 := UpdateBatchHandler(map[], Some(ScenarioBatch(alloc))).store;
    assert s1["PollCount"] == CounterEntry("PollCount", 5);
    ScenarioBatchStore(s1, 5, alloc);
    var s2 := UpdateBatchHandler(s1, Some(ScenarioBatch(alloc))).store;
    assert s2["PollCount"] == CounterEntry("PollCount", 10);
    assert Itoa(5) == "5" by { assert NatDigits(5) == "5"; }
    assert Itoa(10) == "10" by { assert NatDigits(1) == "1"; assert NatDigits(10) == "10"; }
  }

  /** The service over a store; the handlers that write go through the store's own methods. */
  class MetricsService {
    const storage: MemStorage

    constructor (s: MemStorage)
      ensures storage == s
    {
      storage := s;
    }

    method Ping() returns (outcome: Outcome)
      ensures outcome == PingHandler(Some(PingUnsupported))
    {
      var err := storage.Ping();
      outcome := PingHandler(err);
    }

    method Update(metricType: string, metricName: string, metricValue: string,
                  parseFloat: string -> Option<Float64>, parseInt: string -> Option<int64>)
      returns (outcome: Outcome)
      modifies storage
      ensures Handled(outcome, storage.metrics) == UpdateHandler(old(storage.metrics), metricType, metricName, metricValue, parseFloat, parseInt)
    {
      if metricType == GaugeType {
        var v := parseFloat(metricValue);
        if v.None? {
          return Responded(StatusBadRequest, Text("Value must be float64"));
        }
        storage.SetGauge(metricName, v.value);
      } else if metricType == CounterType {
        var d := parseInt(metricValue);
        if d.None? {
          return Responded(StatusBadRequest, Text("Value must be int64"));
        }
        var current := storage.GetMetrics();
        if !CanAdd(current, metricName) {
          return Panic;
        }
        storage.AddCounter(metricName, d.value);
      } else {
        return Responded(StatusBadRequest, Text(UnknownName));
      }
      outcome := Responded(StatusOK, Text(Processed));
    }

    /** Files one decoded record through the store's methods, as the type switch does. */
    method File(m: Metrics) returns (step: Step)
      modifies storage
      ensures step.Applied? ==> step == Applied(storage.metrics)
      ensures !step.Applied? ==> storage.metrics == old(storage.metrics)
      ensures step == ApplyRecord(old(storage.metrics), m)
    {
      if m.mType == GaugeType {
        if m.value.None? {
          return Panicked;
        }
        storage.SetGauge(m.id, m.value.value);
      } else if m.mType == CounterType {
        if m.delta.None? {
          return Panicked;
        }
        var current := storage.GetMetrics();
        if !CanAdd(current, m.id) {
          return Panicked;
        }
        storage.AddCounter(m.id, m.delta.value);
      } else {
        return Skipped;
      }
      step := Applied(storage.metrics);
    }

    method UpdateJSON(body: Option<Metrics>) returns (outcome: Outcome)
      modifies storage
      ensures Handled(outcome, storage.metrics) == UpdateJSONHandler(old(storage.metrics), body)
    {
      if body.None? {
        return Responded(StatusBadRequest, BindError);
      }
      var m := body.value;
      var step := File(m);
      if step.Panicked? {
        return Panic;
      }
      if step.Skipped? {
        return Responded(StatusBadRequest, Message(UnknownName));
      }
      var current := storage.GetMetrics();
      var updated := if m.id in current then current[m.id] else ZeroMetrics;
      outcome := Responded(StatusOK, Record(updated));
    }

    method UpdateBatch(body: Option<seq<Metrics>>) returns (outcome: Outcome)
      modifies storage
      ensures Handled(outcome, storage.metrics) == UpdateBatchHandler(old(storage.metrics), body)
    {
      if body.None? {
        return Responded(StatusBadRequest, BindError);
      }
      var ms := body.value;
      var unknown := false;
      var i := 0;
      while i < |ms|
        invariant i <= |ms|
        invariant ApplyBatch(Start(old(storage.metrics)), ms) == ApplyBatch(BatchState(storage.metrics, unknown, false), ms[i..])
      {
        assert ms[i..][0] == ms[i] && ms[i..][1..] == ms[i + 1..];
        var step := File(ms[i]);
        if step.Panicked? {
          return Panic;
        }
        if step.Skipped? {
          unknown := true;
        }
        i := i + 1;
      }
      if unknown {
        outcome := Responded(StatusBadRequest, Message(UnknownName));
      } else {
        outcome := Responded(StatusOK, Message("OK"));
      }
    }
  }
}
