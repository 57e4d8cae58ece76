/**
 * The legacy handlers of `internal/metrics`, over a store with separate
 * gauge and counter maps (`repo.MemStorage`). Float parsing and printing
 * are abstract functions.
 */
module MetricsHandlers {
  import opened Wrappers
  import opened Int64
  import opened Strconv
  import opened Model
  import opened TwoMaps
  import opened Service
  import Repo

  /**
   * `ValueHandler`: a gauge is looked up only in the gauge map and a
   * counter only in the counter map, 404 when absent; any other type is 404
   * whatever the name.
   */
  function ValueHandler(g: Gauges, c: Counters, metricType: string, metricName: string,
                        formatFloat: Float64 -> string): (r: Outcome)
    ensures r.Responded? && (r.status == StatusOK || r.status == StatusNotFound)
    ensures r.status == StatusOK <==>
      (metricType == GaugeType && metricName in g) || (metricType == CounterType && metricName in c)
    ensures metricType == GaugeType && metricName in g ==> r.reply == Text(formatFloat(g[metricName]))
    ensures metricType == CounterType && metricName in c ==> r.reply == Text(Itoa(c[metricName]))
  {
    if metricType == GaugeType then
      if metricName in g then Responded(StatusOK, Text(formatFloat(g[metricName])))
      else Responded(StatusNotFound, Text(UnknownName))
    else if metricType == CounterType then
      if metricName in c then Responded(StatusOK, Text(Itoa(c[metricName])))
      else Responded(StatusNotFound, Text(UnknownName))
    else Responded(StatusNotFound, Text("Unknown metric type"))
  }

  /** A gauge lookup never consults the counter map, nor a counter lookup the gauge map. */
  lemma ValueHandlerOwnMap(g1: Gauges, c1: Counters, g2: Gauges, c2: Counters, metricName: string,
                           formatFloat: Float64 -> string)
    ensures g1 == g2 ==> ValueHandler(g1, c1, GaugeType, metricName, formatFloat) == ValueHandler(g2, c2, GaugeType, metricName, formatFloat)
    ensures c1 == c2 ==> ValueHandler(g1, c1, CounterType, metricName, formatFloat) == ValueHandler(g2, c2, CounterType, metricName, formatFloat)
  {
  }

  /** A handler's outcome and the two maps it leaves. */
  datatype Legacy = Legacy(outcome: Outcome, gauge: Gauges, counter: Counters)

  /** `UpdateHandler`: parse by type and call `SetGauge` or `AddCounter`; 400 on a parse failure or an unknown type. */
  function UpdateHandler(g: Gauges, c: Counters, metricType: string, metricName: string, metricValue: string,
                         parseFloat: string -> Option<Float64>, parseInt: string -> Option<int64>): Legacy {
    if metricType == GaugeType then
      match parseFloat(metricValue)
      case None => Legacy(Responded(StatusBadRequest, Text("Value must be float64")), g, c)
      case Some(v) => Legacy(Responded(StatusOK, Text(Processed)), SetValue(g, metricName, v), c)
    else if metricType == CounterType then
      match parseInt(metricValue)
      case None => Legacy(Responded(StatusBadRequest, Text("Value must be int64")), g, c)
      case Some(d) => Legacy(Responded(StatusOK, Text(Processed)), g, AddValue(c, metricName, d))
    else Legacy(Responded(StatusBadRequest, Text(UnknownName)), g, c)
  }

  /**
   * A parse failure or an unknown type answers 400 and changes neither
   * map; otherwise the parsed value goes to `SetGauge` or `AddCounter`, the
   * other map untouched, and a following `ValueHandler` finds it.
   */
  lemma UpdateHandlerEffect(g: Gauges, c: Counters, metricType: string, metricName: string, metricValue: string,
                            parseFloat: string -> Option<Float64>, parseInt: string -> Option<int64>,
                            formatFloat: Float64 -> string)
    ensures var h := UpdateHandler(g, c, metricType, metricName, metricValue, parseFloat, parseInt);
      var parsed := (metricType == GaugeType && parseFloat(metricValue).Some?)
                 || (metricType == CounterType && parseInt(metricValue).Some?);
      && h.outcome.Responded?
      && (h.outcome.status == StatusBadRequest <==> !parsed)
      && (!parsed ==> h.gauge == g && h.counter == c)
      && (parsed ==> h.outcome.status == StatusOK)
      && (parsed && metricType == GaugeType ==> h.gauge == SetValue(g, metricName, parseFloat(metricValue).value) && h.counter == c)
      && (parsed && metricType == CounterType ==> h.counter == AddValue(c, metricName, parseInt(metricValue).value) && h.gauge == g)
      && (parsed ==> ValueHandler(h.gauge, h.counter, metricType, metricName, formatFloat).status == StatusOK)
  {
  }

  /** The handler over the store object, through its own methods. */
  method Update(store: Repo.MemStorage, metricType: string, metricName: string, metricValue: string,
                parseFloat: string -> Option<Float64>, parseInt: string -> Option<int64>)
    returns (outcome: Outcome)
    modifies store
    ensures Legacy(outcome, store.gauge, store.counter)
      == UpdateHandler(old(store.gauge), old(store.counter), metricType, metricName, metricValue, parseFloat, parseInt)
  {
    if metricType == GaugeType {
      var v := parseFloat(metricValue);
      if v.None? {
        return Responded(StatusBadRequest, Text("Value must be float64"));
      }
      store.SetGauge(metricName, v.value);
    } else if metricType == CounterType {
      var d := parseInt(metricValue);
      if d.None? {
        return Responded(StatusBadRequest, Text("Value must be int64"));
      }
      store.AddCounter(metricName, d.value);
    } else {
      return Responded(StatusBadRequest, Text(UnknownName));
    }
    outcome := Responded(StatusOK, Text(Processed));
  }
}
