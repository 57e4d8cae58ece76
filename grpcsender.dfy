/** The map-to-message conversion loop of the agent's gRPC sender (`SendGRPC`). */
module GrpcSender {
  import opened Model
  import opened MapRange
  import opened Proto

  /**
   * One message per entry, in the order the keys were visited, each
   * filled field by field as the loop does; the result is exactly the
   * server's own `wrapMetric` of each entry.
   */
  method ConvertBatch(metrics: map<string, Metrics>) returns (order: seq<string>, msgs: seq<PbMetric>)
    ensures ListsKeys(metrics, order) && |msgs| == |order|
    ensures forall i :: 0 <= i < |order| ==> msgs[i] == WrapMetric(metrics[order[i]])
  {
    order, msgs := [], [];
    var rest := metrics.Keys;
    VisitingStart(metrics);
    while rest != {}
      invariant Visiting(metrics, order, rest)
      invariant |msgs| == |order|
      invariant forall i :: 0 <= i < |order| ==> msgs[i] == WrapMetric(metrics[order[i]])
      decreases |rest|
    {
      var k :| k in rest;
      var m := metrics[k];
      var msg := PbMetric(m.id, m.mType, 0, ZeroFloat);
      if m.mType == GaugeType && m.value.Some? {
        msg := msg.(value := m.value.value);
      }
      if m.mType == CounterType && m.delta.Some? {
        msg := msg.(delta := m.delta.value);
      }
      VisitingStep(metrics, order, rest, k);
      order, msgs := order + [k], msgs + [msg];
      rest := rest - {k};
    }
    VisitingDone(metrics, order);
  }
}
