/**
 * The contents of a map-backed metric store, `map[string]model.Metrics`,
 * and the two update rules every such store implements: a gauge write
 * overwrites the entry, a counter write adds to it.
 */
module StoreSpec {
  import opened Wrappers
  import opened Int64
  import opened Model

  type Snapshot = map<string, Metrics>

  /** The record `SetGauge(n, v)` stores. */
  function GaugeEntry(n: string, v: Float64): Metrics {
    Metrics(n, GaugeType, None, Some(v))
  }

  /** The record `AddCounter` stores for a running total `d`. */
  function CounterEntry(n: string, d: int64): Metrics {
    Metrics(n, CounterType, Some(d), None)
  }

  /** Every entry is filed under its own id and carries the one payload its tag names. */
  ghost predicate WellFormed(s: Snapshot) {
    forall k :: k in s ==> s[k].id == k && PayloadMatchesTag(s[k])
  }

  /**
   * `AddCounter` dereferences the Delta of an existing entry, so it is
   * defined only when no entry under `n` lacks one (a gauge, for instance).
   */
  predicate CanAdd(s: Snapshot, n: string) {
    n in s ==> s[n].delta.Some?
  }

  /** The store after `SetGauge(n, v)`. */
  function SetGauge(s: Snapshot, n: string, v: Float64): Snapshot {
    s[n := GaugeEntry(n, v)]
  }

  /** `SetGauge(n, v)` files a gauge record under `n` and changes no other entry. */
  lemma SetGaugeEffect(s: Snapshot, n: string, v: Float64)
    ensures var r := SetGauge(s, n, v);
      && r.Keys == s.Keys + {n}
      && r[n] == GaugeEntry(n, v)
      && (forall k :: k in s && k != n ==> r[k] == s[k])
      && (WellFormed(s) ==> WellFormed(r))
  {
  }

  /** The store after `AddCounter(n, d)`: a new entry holds `d`, an existing one its Delta plus `d`, wrapping. */
  function AddCounter(s: Snapshot, n: string, d: int64): Snapshot
    requires CanAdd(s, n)
  {
    if n in s then s[n := CounterEntry(n, Add(s[n].delta.value, d))]
    else s[n := CounterEntry(n, d)]
  }

  /**
   * `AddCounter(n, d)` files a counter record under `n` holding `d` or the
   * old total plus `d`, keeps `n` addable, and changes no other entry.
   */
  lemma AddCounterEffect(s: Snapshot, n: string, d: int64)
    requires CanAdd(s, n)
    ensures var r := AddCounter(s, n, d);
      && r.Keys == s.Keys + {n}
      && r[n] == CounterEntry(n, if n in s then Add(s[n].delta.value, d) else d)
      && (forall k :: k in s && k != n ==> r[k] == s[k])
      && CanAdd(r, n)
      && (WellFormed(s) ==> WellFormed(r))
  {
  }

  /** Gauge writes are last-write-wins. */
  lemma SetGaugeLastWriteWins(s: Snapshot, n: string, a: Float64, b: Float64)
    ensures SetGauge(SetGauge(s, n, a), n, b) == SetGauge(s, n, b)
  {
  }

  /** `AddCounter(n, d)` applied for each `d` in order. */
  function AddCounters(s: Snapshot, n: string, ds: seq<int64>): (r: Snapshot)
    requires CanAdd(s, n)
    decreases |ds|
  {
    if ds == [] then s else AddCounters(AddCounter(s, n, ds[0]), n, ds[1..])
  }

  /** The exact sum of a sequence of deltas. */
  function Sum(ds: seq<int64>): int {
    if ds == [] then 0 else ds[0] + Sum(ds[1..])
  }

  /** The running total `AddCounter` keeps: `d` with each delta added in turn, wrapping at every step. */
  function Total(d: int64, ds: seq<int64>): int64
    decreases |ds|
  {
    if ds == [] then d else Total(Add(d, ds[0]), ds[1..])
  }

  /** Wrapping at every step gives the exact sum wrapped once. */
  lemma {:induction false} TotalIsWrappedSum(d: int64, ds: seq<int64>)
    ensures Total(d, ds) == Wrap(d + Sum(ds))
    decreases |ds|
  {
    if ds != [] {
      TotalIsWrappedSum(Add(d, ds[0]), ds[1..]);
      SumStep(d, ds);
    }
  }

  /** Folding one more delta into a wrapped running total. */
  lemma SumStep(d: int64, ds: seq<int64>)
    requires ds != []
    ensures Wrap(Add(d, ds[0]) + Sum(ds[1..])) == Wrap(d + Sum(ds))
  {
    var t, x, total := Sum(ds[1..]), ds[0], Sum(ds);
    assert total == x + t;
    AddThenWrap(d, x, t);
  }

  /** Accumulating into a counter holding `d` stores the running total; nothing else changes. */
  lemma {:induction false} AddCountersTotal(s: Snapshot, n: string, d: int64, ds: seq<int64>)
    requires n in s && s[n] == CounterEntry(n, d)
    ensures AddCounters(s, n, ds) == s[n := CounterEntry(n, Total(d, ds))]
    decreases |ds|
  {
    if ds == [] {
      assert s[n := CounterEntry(n, d)] == s;
    } else {
      var d1 := Add(d, ds[0]);
      var s1 := s[n := CounterEntry(n, d1)];
      AddCountersHead(s, n, ds);
      AddCountersTotal(s1, n, d1, ds[1..]);
      UpdateTwice(s, n, CounterEntry(n, d1), CounterEntry(n, Total(d1, ds[1..])));
    }
  }

  /** The first delta is added first. */
  lemma AddCountersHead(s: Snapshot, n: string, ds: seq<int64>)
    requires n in s && s[n].delta.Some? && ds != []
    ensures AddCounters(s, n, ds) == AddCounters(s[n := CounterEntry(n, Add(s[n].delta.value, ds[0]))], n, ds[1..])
  {
  }

  lemma UpdateTwice(s: Snapshot, n: string, a: Metrics, b: Metrics)
    ensures s[n := a][n := b] == s[n := b]
  {
  }

  /** Accumulating into a counter holding `d` stores `d` plus the sum of the deltas, modulo 2^64; nothing else changes. */
  lemma AddCountersExisting(s: Snapshot, n: string, d: int64, ds: seq<int64>)
    requires n in s && s[n] == CounterEntry(n, d)
    ensures AddCounters(s, n, ds) == s[n := CounterEntry(n, Wrap(d + Sum(ds)))]
  {
    AddCountersTotal(s, n, d, ds);
    TotalIsWrappedSum(d, ds);
  }

  /** Any non-empty sequence of `AddCounter` calls on a fresh key stores the sum of the deltas, modulo 2^64. */
  lemma AddCountersFresh(s: Snapshot, n: string, ds: seq<int64>)
    requires n !in s && ds != []
    ensures AddCounters(s, n, ds) == s[n := CounterEntry(n, Wrap(Sum(ds)))]
  {
    var s1 := s[n := CounterEntry(n, ds[0])];
    AddCountersFreshHead(s, n, ds);
    AddCountersTotal(s1, n, ds[0], ds[1..]);
    var tot := Total(ds[0], ds[1..]);
    UpdateTwice(s, n, CounterEntry(n, ds[0]), CounterEntry(n, tot));
    TotalFromZero(ds);
  }

  /** On a fresh key the first delta is stored as it is. */
  lemma AddCountersFreshHead(s: Snapshot, n: string, ds: seq<int64>)
    requires n !in s && ds != []
    ensures AddCounters(s, n, ds) == AddCounters(s[n := CounterEntry(n, ds[0])], n, ds[1..])
  {
  }

  lemma TotalFromZero(ds: seq<int64>)
    requires ds != []
    ensures Total(ds[0], ds[1..]) == Wrap(Sum(ds))
  {
    TotalIsWrappedSum(ds[0], ds[1..]);
    var x, t := ds[0], Sum(ds[1..]);
    assert Sum(ds) == x + t;
  }

  /** Reordering the deltas does not change their sum. */
  lemma {:induction false} SumPermutation(a: seq<int64>, b: seq<int64>)
    requires multiset(a) == multiset(b)
    ensures Sum(a) == Sum(b)
    decreases |a|
  {
    if a != [] {
      assert a[0] in multiset(b);
      var i :| 0 <= i < |b| && b[i] == a[0];
      var rest := b[..i] + b[i + 1..];
      MultisetTail(a, b, i);
      SumPermutation(a[1..], rest);
      SumRemove(b, i);
    }
  }

  /** Removing matching elements from two permutations of each other leaves permutations. */
  lemma MultisetTail(a: seq<int64>, b: seq<int64>, i: nat)
    requires multiset(a) == multiset(b) && a != [] && i < |b| && b[i] == a[0]
    ensures multiset(a[1..]) == multiset(b[..i] + b[i + 1..])
  {
    assert a == [a[0]] + a[1..];
    assert b == b[..i] + [b[i]] + b[i + 1..];
    calc {
      multiset(a[1..]);
      multiset(a) - multiset{a[0]};
      multiset(b[..i] + [b[i]] + b[i + 1..]) - multiset{b[i]};
      multiset(b[..i] + b[i + 1..]);
    }
  }

  /** Taking one delta out of the sequence takes it out of the sum. */
  lemma {:induction false} SumRemove(b: seq<int64>, i: nat)
    requires i < |b|
    ensures Sum(b) == b[i] + Sum(b[..i] + b[i + 1..])
    decreases |b|
  {
    if i > 0 {
      SumRemove(b[1..], i - 1);
      assert b[1..][..i - 1] + b[1..][i..] == (b[..i] + b[i + 1..])[1..];
    } else {
      assert b[..i] + b[i + 1..] == b[1..];
    }
  }

  /** The store after a run of counter updates to one key does not depend on their order. */
  lemma AddCountersOrderIndependent(s: Snapshot, n: string, a: seq<int64>, b: seq<int64>)
    requires n !in s
    requires multiset(a) == multiset(b)
    ensures AddCounters(s, n, a) == AddCounters(s, n, b)
  {
    if a == [] {
      assert |b| == |multiset(b)| == 0;
    } else {
      assert b != [] by { assert |b| == |multiset(b)| == |a|; }
      AddCountersFresh(s, n, a);
      AddCountersFresh(s, n, b);
      SumPermutation(a, b);
    }
  }

  /** Deltas 3, 4 and 5 on a fresh counter total 12, in any order. */
  lemma AddCountersExample(s: Snapshot, n: string)
    requires n !in s
    ensures AddCounters(s, n, [3, 4, 5])[n] == CounterEntry(n, 12)
    ensures AddCounters(s, n, [5, 3, 4]) == AddCounters(s, n, [3, 4, 5])
  {
    AddCountersFresh(s, n, [3, 4, 5]);
    AddCountersOrderIndependent(s, n, [5, 3, 4], [3, 4, 5]);
  }
}
