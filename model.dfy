/**
 * The metric record shared by agent and server (`model.Metrics`) and its
 * JSON shape, as fixed by the struct tags.
 */
module Model {
  import opened Wrappers
  import opened Int64

  /** A float64 kept as its IEEE-754 bit pattern; no floating-point arithmetic is modelled. */
  datatype Float64 = Float64(bits: bv64)

  const GaugeType: string := "gauge"
  const CounterType: string := "counter"

  /**
   * One metric: its name, a free-form type tag, a counter payload and a
   * gauge payload. Go's nil pointers are `None`.
   */
  datatype Metrics = Metrics(id: string, mType: string, delta: Option<int64>, value: Option<Float64>)

  /** The shape the stores establish: exactly the one payload that the tag names. */
  predicate PayloadMatchesTag(m: Metrics) {
    || (m.mType == GaugeType && m.value.Some? && m.delta.None?)
    || (m.mType == CounterType && m.delta.Some? && m.value.None?)
  }

  /** The record type by itself admits any tag and both payloads at once. */
  lemma RecordDoesNotEnforceShape()
    ensures exists m: Metrics :: m.mType != GaugeType && m.mType != CounterType
    ensures exists m: Metrics :: m.delta.Some? && m.value.Some? && !PayloadMatchesTag(m)
  {
    var odd := Metrics("Alloc", "histogram", None, None);
    assert odd.mType != GaugeType;
    var both := Metrics("Alloc", GaugeType, Some(1), Some(Float64(0)));
    assert !PayloadMatchesTag(both);
  }

  /** A float64 whose exponent bits are not all ones: neither NaN nor an infinity. */
  predicate IsFinite(f: Float64) {
    (f.bits >> 52) & 0x7FF != 0x7FF
  }

  /**
   * A JSON value of the kinds a record's fields take. `JInt` is a number
   * literal that is an integer within int64 range; `JFloat` is any other
   * number, by the float64 it denotes. The encoder's output for a gauge is
   * written `JFloat` whatever digits it prints, since the `value` field
   * reads either kind as the float64 the literal denotes.
   */
  datatype JsonValue = JString(s: string) | JInt(i: int64) | JFloat(f: Float64)

  /** A JSON object as its members in order. */
  type JsonObject = seq<(string, JsonValue)>

  /** Field names from the struct tags. */
  const IdField: string := "id"
  const TypeField: string := "type"
  const DeltaField: string := "delta"
  const ValueField: string := "value"

  /** The members written for a record: `delta` and `value` are omitted when nil. */
  function Members(m: Metrics): (r: JsonObject)
    ensures |r| >= 2 && r[0] == (IdField, JString(m.id)) && r[1] == (TypeField, JString(m.mType))
  {
    [(IdField, JString(m.id)), (TypeField, JString(m.mType))]
    + (if m.delta.Some? then [(DeltaField, JInt(m.delta.value))] else [])
    + (if m.value.Some? then [(ValueField, JFloat(m.value.value))] else [])
  }

  /**
   * `json.Marshal` of a record: the object of its members, or an
   * `UnsupportedValueError` (None) when the gauge is NaN or infinite.
   */
  function ToJson(m: Metrics): (r: Option<JsonObject>)
    ensures r.None? <==> m.value.Some? && !IsFinite(m.value.value)
    ensures r.Some? ==> |r.value| >= 2 && r.value[0] == (IdField, JString(m.id)) && r.value[1] == (TypeField, JString(m.mType))
  {
    if m.value.Some? && !IsFinite(m.value.value) then None else Some(Members(m))
  }

  /** A NaN or an infinite gauge cannot be encoded; a counter always can. */
  lemma NonFiniteNotEncoded(id: string, d: int64)
    ensures ToJson(Metrics(id, GaugeType, None, Some(Float64(0x7FF8_0000_0000_0000)))).None?
    ensures ToJson(Metrics(id, GaugeType, None, Some(Float64(0x7FF0_0000_0000_0000)))).None?
    ensures ToJson(Metrics(id, GaugeType, None, Some(Float64(0xFFF0_0000_0000_0000)))).None?
    ensures ToJson(Metrics(id, CounterType, Some(d), None)).Some?
  {
  }

  function Names(o: JsonObject): (r: set<string>)
    ensures forall i :: 0 <= i < |o| ==> o[i].0 in r
    ensures forall n :: n in r ==> exists i :: 0 <= i < |o| && o[i].0 == n
  {
    set i | 0 <= i < |o| :: o[i].0
  }

  /** The members present for a record: `id` and `type` always, each payload iff it is set. */
  lemma ToJsonNames(m: Metrics)
    ensures Names(Members(m)) == {IdField, TypeField}
      + (if m.delta.Some? then {DeltaField} else {})
      + (if m.value.Some? then {ValueField} else {})
  {
    var o := Members(m);
    var expected := {IdField, TypeField}
      + (if m.delta.Some? then {DeltaField} else {})
      + (if m.value.Some? then {ValueField} else {});
    forall n | n in expected ensures n in Names(o) {
      if n == DeltaField && m.delta.Some? { assert o[2].0 == n; }
      else if n == ValueField && m.value.Some? { assert o[|o| - 1].0 == n; }
      else if n == TypeField { assert o[1].0 == n; }
      else { assert o[0].0 == n; }
    }
  }

  /** ASCII lower case. */
  function Lower(c: char): char {
    if 'A' <= c <= 'Z' then (c as int + 32) as char else c
  }

  /**
   * Member names equal up to case, as the decoder matches them to fields.
   * Go folds Unicode case, but among the letters only `k` and `s` have
   * partners outside ASCII, and no field name here holds either.
   */
  predicate FoldEq(a: string, b: string) {
    |a| == |b| && forall i :: 0 <= i < |a| ==> Lower(a[i]) == Lower(b[i])
  }

  /** The last member whose name matches `name` up to case, as a later duplicate wins. */
  function Lookup(o: JsonObject, name: string): (r: Option<JsonValue>)
    ensures r.Some? <==> exists i :: 0 <= i < |o| && FoldEq(o[i].0, name)
    ensures r.Some? ==> exists i :: 0 <= i < |o| && FoldEq(o[i].0, name) && o[i].1 == r.value
  {
    if o == [] then None
    else if FoldEq(o[|o| - 1].0, name) then Some(o[|o| - 1].1)
    else Lookup(o[..|o| - 1], name)
  }

  /**
   * Decoding a JSON object into a record (`json.Unmarshal`): members match
   * fields up to case; a missing member leaves the zero value (`""` or nil);
   * `delta` takes only an integer literal, `value` any number, an integer
   * one read through `intAsFloat` (strconv's reading of it as a float64);
   * any other kind is a decode error.
   */
  function FromJson(o: JsonObject, intAsFloat: int64 -> Float64): (r: Option<Metrics>)
    ensures r.Some? <==>
      && (Lookup(o, IdField).Some? ==> Lookup(o, IdField).value.JString?)
      && (Lookup(o, TypeField).Some? ==> Lookup(o, TypeField).value.JString?)
      && (Lookup(o, DeltaField).Some? ==> Lookup(o, DeltaField).value.JInt?)
      && (Lookup(o, ValueField).Some? ==> !Lookup(o, ValueField).value.JString?)
    ensures r.Some? ==> (r.value.delta.Some? <==> Lookup(o, DeltaField).Some?)
    ensures r.Some? ==> (r.value.value.Some? <==> Lookup(o, ValueField).Some?)
  {
    var id := Lookup(o, IdField);
    var t := Lookup(o, TypeField);
    var d := Lookup(o, DeltaField);
    var v := Lookup(o, ValueField);
    if (id.Some? && !id.value.JString?) || (t.Some? && !t.value.JString?)
       || (d.Some? && !d.value.JInt?) || (v.Some? && v.value.JString?)
    then None
    else Some(Metrics(
      if id.Some? then id.value.s else "",
      if t.Some? then t.value.s else "",
      if d.Some? then Some(d.value.i) else None,
      if v.Some? then Some(if v.value.JInt? then intAsFloat(v.value.i) else v.value.f) else None))
  }

  /**
   * Member names match fields whatever their case, and an integer literal
   * is accepted for `value`: `{"ID": "x", "Type": "gauge", "value": 5}`.
   */
  lemma FromJsonExample(intAsFloat: int64 -> Float64)
    ensures FromJson([("ID", JString("x")), ("Type", JString(GaugeType)), (ValueField, JInt(5))], intAsFloat)
      == Some(Metrics("x", GaugeType, None, Some(intAsFloat(5))))
    ensures FromJson([(IdField, JString("x")), (DeltaField, JFloat(Float64(0x4014_0000_0000_0000)))], intAsFloat).None?
  {
    var o := [("ID", JString("x")), ("Type", JString(GaugeType)), (ValueField, JInt(5))];
    assert FoldEq(o[0].0, IdField);
    assert FoldEq(o[1].0, TypeField);
    assert !FoldEq(o[2].0, IdField) && !FoldEq(o[1].0, IdField);
    assert !FoldEq(o[2].0, TypeField);
    assert Lower(o[2].0[0]) != Lower(DeltaField[0]);
    assert Lower(o[0].0[0]) != Lower(ValueField[0]) && Lower(o[1].0[0]) != Lower(DeltaField[0]);
    var p := [(IdField, JString("x")), (DeltaField, JFloat(Float64(0x4014_0000_0000_0000)))];
    assert FoldEq(p[1].0, DeltaField);
  }

  /** Every record the encoder accepts survives a JSON round trip, with absent payloads staying absent. */
  lemma JsonRoundTrip(m: Metrics, intAsFloat: int64 -> Float64)
    ensures ToJson(m).Some? ==> FromJson(ToJson(m).value, intAsFloat) == Some(m)
  {
    ToJsonLookup(m);
  }

  /** What the decoder finds for each field of an encoded record. */
  lemma ToJsonLookup(m: Metrics)
    ensures Lookup(Members(m), IdField) == Some(JString(m.id))
    ensures Lookup(Members(m), TypeField) == Some(JString(m.mType))
    ensures Lookup(Members(m), DeltaField) == if m.delta.Some? then Some(JInt(m.delta.value)) else None
    ensures Lookup(Members(m), ValueField) == if m.value.Some? then Some(JFloat(m.value.value)) else None
  {
    var o := Members(m);
    ToJsonDistinct(m);
    LookupDistinct(o, 0);
    LookupDistinct(o, 1);
    if m.delta.Some? {
      LookupDistinct(o, 2);
    } else {
      LookupAbsent(m, DeltaField);
    }
    if m.value.Some? {
      LookupDistinct(o, |o| - 1);
    } else {
      LookupAbsent(m, ValueField);
    }
  }

  /** A payload field whose payload is nil finds no member. */
  lemma LookupAbsent(m: Metrics, name: string)
    requires (name == DeltaField && m.delta.None?) || (name == ValueField && m.value.None?)
    ensures Lookup(Members(m), name) == None
  {
    var o := Members(m);
    FieldsDistinct();
    forall i | 0 <= i < |o| ensures !FoldEq(o[i].0, name) {
      assert o[i].0 in {IdField, TypeField, DeltaField, ValueField} - {name};
    }
  }

  /** No two field names match each other up to case. */
  lemma FieldsDistinct()
    ensures !FoldEq(IdField, TypeField) && !FoldEq(IdField, DeltaField) && !FoldEq(IdField, ValueField)
    ensures !FoldEq(TypeField, DeltaField) && !FoldEq(TypeField, ValueField) && !FoldEq(DeltaField, ValueField)
    ensures !FoldEq(TypeField, IdField) && !FoldEq(DeltaField, IdField) && !FoldEq(ValueField, IdField)
    ensures !FoldEq(DeltaField, TypeField) && !FoldEq(ValueField, TypeField) && !FoldEq(ValueField, DeltaField)
  {
    assert Lower(DeltaField[0]) != Lower(ValueField[0]);
  }

  /** The members of an encoded record have names distinct up to case, in the struct's field order. */
  lemma ToJsonDistinct(m: Metrics)
    ensures forall i, j :: 0 <= i < j < |Members(m)| ==> !FoldEq(Members(m)[i].0, Members(m)[j].0)
    ensures |Members(m)| == 2 + (if m.delta.Some? then 1 else 0) + (if m.value.Some? then 1 else 0)
    ensures m.delta.Some? ==> Members(m)[2] == (DeltaField, JInt(m.delta.value))
    ensures m.value.Some? ==> Members(m)[|Members(m)| - 1] == (ValueField, JFloat(m.value.value))
  {
    FieldsDistinct();
    var o := Members(m);
    forall i, j | 0 <= i < j < |o| ensures !FoldEq(o[i].0, o[j].0) {
      assert o[i].0 in {IdField, TypeField, DeltaField, ValueField};
      assert o[j].0 in {IdField, TypeField, DeltaField, ValueField};
    }
  }

  /** In an object whose member names are distinct up to case, lookup finds the one member. */
  lemma {:induction false} LookupDistinct(o: JsonObject, k: nat)
    requires k < |o|
    requires forall i, j :: 0 <= i < j < |o| ==> !FoldEq(o[i].0, o[j].0)
    ensures Lookup(o, o[k].0) == Some(o[k].1)
  {
    assert FoldEq(o[k].0, o[k].0);
    if k < |o| - 1 {
      FoldEqSymmetric(o[|o| - 1].0, o[k].0);
      LookupDistinct(o[..|o| - 1], k);
    }
  }

  lemma FoldEqSymmetric(a: string, b: string)
    ensures FoldEq(a, b) == FoldEq(b, a)
  {
  }
}
