/**
 * Go's `for k, v := range m` over a map: every key is visited exactly
 * once, in an order the runtime chooses. An order is modelled as a
 * sequence of keys; the loops that range over a map pick their next key
 * with `:|`, so every order is allowed.
 */
module MapRange {

  ghost predicate Distinct(ks: seq<string>) {
    forall i, j :: 0 <= i < j < |ks| ==> ks[i] != ks[j]
  }

  /** `order` lists each key of `m` exactly once. */
  ghost predicate ListsKeys<T>(m: map<string, T>, order: seq<string>) {
    && |order| == |m|
    && Distinct(order)
    && (forall k :: k in m <==> k in order)
  }

  /** The keys not yet visited, with `order` the keys visited so far: the invariant of every ranging loop. */
  ghost predicate Visiting<T>(m: map<string, T>, order: seq<string>, rest: set<string>) {
    && rest <= m.Keys
    && |order| + |rest| == |m|
    && Distinct(order)
    && (forall k :: k in order ==> k in m && k !in rest)
    && (forall k :: k in m ==> k in rest || k in order)
  }

  /** Before the first iteration every key is still to be visited. */
  lemma VisitingStart<T>(m: map<string, T>)
    ensures Visiting(m, [], m.Keys)
  {
    assert |m.Keys| == |m|;
  }

  /** Visiting one more key keeps the invariant. */
  lemma VisitingStep<T>(m: map<string, T>, order: seq<string>, rest: set<string>, k: string)
    requires Visiting(m, order, rest) && k in rest
    ensures Visiting(m, order + [k], rest - {k})
  {
    forall i, j | 0 <= i < j < |order + [k]|
      ensures (order + [k])[i] != (order + [k])[j]
    {
      if j == |order| {
        assert (order + [k])[i] == order[i];
      }
    }
  }

  /** When no key is left, the keys visited are exactly the keys of the map. */
  lemma VisitingDone<T>(m: map<string, T>, order: seq<string>)
    requires Visiting(m, order, {})
    ensures ListsKeys(m, order)
  {
  }
}
