/**
 The part of encoding/json that notification params go through. A Go value of
 type any is marshalled to a JSON document and read back as the generic Go types,
 which turns every number into a float64.
 */
module Json {
  import opened Wrappers
  import opened Float64

  /** A Go value held in an interface; Opaque is one json.Marshal refuses (a channel, a function, NaN). */
  datatype GoValue =
    | GoNil
    | GoBool(b: bool)
    | GoInt(i: int)
    | GoFloat(r: real)
    | GoString(s: string)
    | GoSlice(items: seq<GoValue>)
    | GoMap(fields: map<string, GoValue>)
    | GoOpaque

  datatype Json =
    | JNull
    | JBool(b: bool)
    | JNumber(r: real)
    | JString(s: string)
    | JArray(items: seq<Json>)
    | JObject(fields: map<string, Json>)

  type Params = Option<map<string, GoValue>>

  /** The float64 a number is read as. Fractions are taken to be float64 values, which are written to be read back. */
  function Nearest(r: real): real {
    if r == r.Floor as real then RoundInt(r.Floor) as real else r
  }

  lemma IntNearest(i: int)
    ensures Nearest(i as real) == RoundInt(i) as real && Nearest(RoundInt(i) as real) == RoundInt(i) as real
  {
    hide Round;
    assert (i as real).Floor == i;
    NearestIdempotent(i as real);
  }

  lemma NearestIdempotent(r: real)
    ensures Nearest(Nearest(r)) == Nearest(r)
  {
    hide Round;
    if r == r.Floor as real {
      RoundIntIdempotent(r.Floor);
      assert (RoundInt(r.Floor) as real).Floor == RoundInt(r.Floor);
    }
  }

  predicate Marshalable(v: GoValue) {
    match v
    case GoOpaque => false
    case GoSlice(xs) => forall i | 0 <= i < |xs| :: Marshalable(xs[i])
    case GoMap(m) => forall k | k in m :: Marshalable(m[k])
    case _ => true
  }

  function MarshalValue(v: GoValue): Json
    requires Marshalable(v)
    decreases v
  {
    match v
    case GoNil => JNull
    case GoBool(b) => JBool(b)
    case GoInt(i) => JNumber(i as real)
    case GoFloat(r) => JNumber(r)
    case GoString(s) => JString(s)
    case GoSlice(xs) => JArray(seq(|xs|, i requires 0 <= i < |xs| => MarshalValue(xs[i])))
    case GoMap(m) => JObject(map k | k in m :: MarshalValue(m[k]))
  }

  function UnmarshalValue(j: Json): GoValue
    decreases j
  {
    match j
    case JNull => GoNil
    case JBool(b) => GoBool(b)
    case JNumber(r) => GoFloat(Nearest(r))
    case JString(s) => GoString(s)
    case JArray(xs) => GoSlice(seq(|xs|, i requires 0 <= i < |xs| => UnmarshalValue(xs[i])))
    case JObject(m) => GoMap(map k | k in m :: UnmarshalValue(m[k]))
  }

  predicate MarshalableParams(p: Params) {
    p.Some? ==> forall k | k in p.value :: Marshalable(p.value[k])
  }

  /** json.Marshal of a map[string]any: a nil map is written as null. */
  function MarshalParams(p: Params): Option<Json> {
    if !MarshalableParams(p) then None
    else if p.None? then Some(JNull)
    else Some(JObject(map k | k in p.value :: MarshalValue(p.value[k])))
  }

  /** json.Unmarshal into a map[string]any that starts nil; None is an error. */
  function UnmarshalParams(j: Json): Option<Params> {
    match j
    case JNull => Some(None)
    case JObject(m) => Some(Some(map k | k in m :: UnmarshalValue(m[k])))
    case _ => None
  }

  /** What is read back of params that were written: numbers come back as the nearest floats, nothing else changes. */
  function NormValue(v: GoValue): GoValue {
    match v
    case GoInt(i) => GoFloat(RoundInt(i) as real)
    case GoFloat(r) => GoFloat(Nearest(r))
    case GoSlice(xs) => GoSlice(seq(|xs|, i requires 0 <= i < |xs| => NormValue(xs[i])))
    case GoMap(m) => GoMap(map k | k in m :: NormValue(m[k]))
    case _ => v
  }

  function NormParams(p: Params): Params {
    if p.None? then None else Some(map k | k in p.value :: NormValue(p.value[k]))
  }

  lemma {:induction false} RoundTripValue(v: GoValue)
    requires Marshalable(v)
    ensures UnmarshalValue(MarshalValue(v)) == NormValue(v)
    decreases v
  {
    match v
    case GoSlice(xs) =>
      forall i | 0 <= i < |xs| ensures UnmarshalValue(MarshalValue(xs[i])) == NormValue(xs[i]) {
        RoundTripValue(xs[i]);
      }
    case GoMap(m) =>
      forall k | k in m ensures UnmarshalValue(MarshalValue(m[k])) == NormValue(m[k]) {
        RoundTripValue(m[k]);
      }
    case GoInt(i) => IntNearest(i);
    case _ =>
  }

  // ---- what survives ---------------------------------------------------

  /** The float r is no further from x than one part in 2^53. */
  predicate CloseTo(r: real, x: real) {
    && (r - x) * EXACT as real <= (if x >= 0.0 then x else 0.0 - x)
    && (x - r) * EXACT as real <= (if x >= 0.0 then x else 0.0 - x)
  }

  /** w is what a reader gets of v: numbers as the closest floats, all else as it was, at every depth. */
  predicate Survives(v: GoValue, w: GoValue) {
    match v
    case GoNil => w == GoNil
    case GoBool(b) => w == GoBool(b)
    case GoString(s) => w == GoString(s)
    case GoInt(i) => w.GoFloat? && CloseTo(w.r, i as real) && (-EXACT < i < EXACT ==> w.r == i as real)
    case GoFloat(x) => w.GoFloat? && CloseTo(w.r, x)
    case GoSlice(xs) => w.GoSlice? && |w.items| == |xs| && forall i :: 0 <= i < |xs| ==> Survives(xs[i], w.items[i])
    case GoMap(m) => w.GoMap? && w.fields.Keys == m.Keys && forall k | k in m :: Survives(m[k], w.fields[k])
    case GoOpaque => false
  }

  lemma RoundIntClose(i: int)
    ensures CloseTo(RoundInt(i) as real, i as real)
    ensures -EXACT < i < EXACT ==> RoundInt(i) == i
  {
    hide Round;
    var n := if i >= 0 then i else -i;
    RoundError(n);
    RoundLarge(n);
    var r := Round(n);
    assert ((r - n) * EXACT) as real == (r as real - n as real) * EXACT as real;
    assert ((n - r) * EXACT) as real == (n as real - r as real) * EXACT as real;
  }

  lemma NearestClose(x: real)
    ensures CloseTo(Nearest(x), x)
  {
    RoundIntClose(x.Floor);
    hide RoundInt;
  }

  /** A value that is written and read back survives. */
  lemma {:induction false} ReadBack(v: GoValue)
    requires Marshalable(v)
    ensures Survives(v, UnmarshalValue(MarshalValue(v)))
    decreases v
  {
    hide RoundInt, CloseTo;
    match v
    case GoSlice(xs) =>
      forall i | 0 <= i < |xs| ensures Survives(xs[i], UnmarshalValue(MarshalValue(xs[i]))) {
        ReadBack(xs[i]);
      }
    case GoMap(m) =>
      forall k | k in m ensures Survives(m[k], UnmarshalValue(MarshalValue(m[k]))) {
        ReadBack(m[k]);
      }
    case GoInt(i) =>
      RoundIntClose(i);
      assert (i as real).Floor == i;
    case GoFloat(r) => NearestClose(r);
    case _ =>
  }

  /** Only what can survive is written: anything with an opaque value in it is refused, and nothing else. */
  lemma {:induction false} MarshalableExactly(v: GoValue)
    ensures Marshalable(v) <==> exists w :: Survives(v, w)
  {
    hide Survives, Marshalable;
    if Marshalable(v) {
      ReadBack(v);
    }
    forall w | Survives(v, w) ensures Marshalable(v) {
      SurvivorMarshals(v, w);
    }
  }

  lemma {:induction false} SurvivorMarshals(v: GoValue, w: GoValue)
    requires Survives(v, w)
    ensures Marshalable(v)
    decreases v
  {
    hide CloseTo;
    match v
    case GoSlice(xs) =>
      forall i | 0 <= i < |xs| ensures Marshalable(xs[i]) {
        SurvivorMarshals(xs[i], w.items[i]);
      }
    case GoMap(m) =>
      forall k | k in m ensures Marshalable(m[k]) {
        SurvivorMarshals(m[k], w.fields[k]);
      }
    case _ =>
  }

  /** Params are read back with the same keys, and under each a value that survived; nil stays nil. */
  predicate ParamsSurvive(p: Params, q: Params) {
    && (p.None? <==> q.None?)
    && (p.Some? ==> q.value.Keys == p.value.Keys && forall k | k in p.value :: Survives(p.value[k], q.value[k]))
  }

  /** So do params that are normalised, as they are on every path to SendNotification. */
  lemma ParamsReadBack(p: Params)
    requires MarshalableParams(p)
    ensures MarshalParams(p).Some? && UnmarshalParams(MarshalParams(p).value).Some?
    ensures ParamsSurvive(p, UnmarshalParams(MarshalParams(p).value).value) && ParamsSurvive(p, NormParams(p))
  {
    hide Survives;
    RoundTripParams(p);
    if p.Some? {
      forall k | k in p.value ensures Survives(p.value[k], NormParams(p).value[k]) {
        ReadBack(p.value[k]);
        RoundTripValue(p.value[k]);
      }
    }
  }

  lemma {:induction false} NormIdempotent(v: GoValue)
    requires Marshalable(v)
    ensures Marshalable(NormValue(v)) && NormValue(NormValue(v)) == NormValue(v)
    decreases v
  {
    match v
    case GoSlice(xs) =>
      forall i | 0 <= i < |xs| ensures Marshalable(NormValue(xs[i])) && NormValue(NormValue(xs[i])) == NormValue(xs[i]) {
        NormIdempotent(xs[i]);
      }
    case GoMap(m) =>
      forall k | k in m ensures Marshalable(NormValue(m[k])) && NormValue(NormValue(m[k])) == NormValue(m[k]) {
        NormIdempotent(m[k]);
      }
    case GoInt(i) => IntNearest(i);
    case GoFloat(r) => NearestIdempotent(r);
    case _ =>
  }

  /** Writing params and reading them back normalises them, and a second trip changes nothing more. */
  lemma RoundTripParams(p: Params)
    requires MarshalableParams(p)
    ensures MarshalParams(p).Some? && UnmarshalParams(MarshalParams(p).value) == Some(NormParams(p))
    ensures MarshalableParams(NormParams(p)) && NormParams(NormParams(p)) == NormParams(p)
  {
    if p.Some? {
      forall k | k in p.value
        ensures UnmarshalValue(MarshalValue(p.value[k])) == NormValue(p.value[k])
        ensures Marshalable(NormValue(p.value[k])) && NormValue(NormValue(p.value[k])) == NormValue(p.value[k])
      {
        RoundTripValue(p.value[k]);
        NormIdempotent(p.value[k]);
      }
      assert UnmarshalParams(MarshalParams(p).value).value.value == NormParams(p).value;
      assert NormParams(NormParams(p)).value == NormParams(p).value;
    }
  }
}
