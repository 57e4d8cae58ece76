/**
 * The protobuf metric message (`pb.Metric`) and the conversion from a
 * record to it. Protobuf scalars have no absent state, so a missing
 * payload becomes zero.
 */
module Proto {
  import opened Wrappers
  import opened Int64
  import opened Model
  import opened StoreSpec

  datatype PbMetric = PbMetric(id: string, mType: string, delta: int64, value: Float64)

  /** The float64 zero, +0.0. */
  const ZeroFloat: Float64 := Float64(0)

  /**
   * `wrapMetric`: id and type are copied; Value is copied only for a gauge
   * that has one and Delta only for a counter that has one, the other
   * field staying zero.
   */
  function WrapMetric(m: Metrics): (r: PbMetric)
    ensures r.id == m.id && r.mType == m.mType
    ensures r.value == if m.mType == GaugeType && m.value.Some? then m.value.value else ZeroFloat
    ensures r.delta == if m.mType == CounterType && m.delta.Some? then m.delta.value else 0
  {
    PbMetric(m.id, m.mType,
      if m.mType == CounterType && m.delta.Some? then m.delta.value else 0,
      if m.mType == GaugeType && m.value.Some? then m.value.value else ZeroFloat)
  }

  /** The record a message stands for when the server files it under a fresh name; None for an unknown type. */
  function Record(p: PbMetric): (r: Option<Metrics>)
    ensures r.Some? <==> p.mType == GaugeType || p.mType == CounterType
    ensures r.Some? ==> r.value.id == p.id && r.value.mType == p.mType && PayloadMatchesTag(r.value)
  {
    if p.mType == GaugeType then Some(GaugeEntry(p.id, p.value))
    else if p.mType == CounterType then Some(CounterEntry(p.id, p.delta))
    else None
  }

  /** A well-shaped record survives the trip through a message unchanged. */
  lemma WrapMetricRoundTrip(m: Metrics)
    requires PayloadMatchesTag(m)
    ensures Record(WrapMetric(m)) == Some(m)
  {
  }

  /** A gauge record without a value arrives as the gauge 0.0: the conversion does not preserve absence. */
  lemma WrapMetricZeroesMissingValue(id: string)
    ensures Record(WrapMetric(Metrics(id, GaugeType, None, None))) == Some(GaugeEntry(id, ZeroFloat))
  {
  }
}
