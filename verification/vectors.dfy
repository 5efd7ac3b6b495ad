/**
  The `Vector` family (src/math/Vector.js, Vector2.js, Vector3.js).

  A `Vector` is a `Float64Array`: a sequence of numbers whose length is fixed
  when it is created. `Vector2` and `Vector3` are vectors whose length is fixed
  to 2 and 3. The in-place operations of the source (which mutate the receiver
  and return it) are modelled as functions returning the updated vector.
 */
module Vectors {
  import opened Js

  type Vector = seq<real>
  type Vector2 = v: Vector | |v| == 2 witness [0.0, 0.0]
  type Vector3 = v: Vector | |v| == 3 witness [0.0, 0.0, 0.0]

  function Zeros(n: nat): (r: seq<real>)
    ensures |r| == n && forall i :: 0 <= i < n ==> r[i] == 0.0
  {
    seq(n, _ => 0.0)
  }

  /** Component `i` of a vector of length `n` built from `values`: the value when present, 0 otherwise. */
  function Padded(values: seq<real>, i: nat): real {
    if i < |values| then values[i] else 0.0
  }

  // ---------------------------------------------------------------- Vector

  /**
    `new Vector(values, length)`: allocate `length ?? values.length` zeros,
    then copy `values` over the front with `TypedArray.prototype.set`, which
    throws a `RangeError` when the values do not fit.
   */
  function NewVector(values: seq<real>, length: Option<int>): (r: Result<Vector>)
    ensures r.Ok? <==> length.GetOr(|values|) >= |values|
    ensures r.Ok? ==> |r.value| == length.GetOr(|values|)
    ensures r.Ok? ==> forall i :: 0 <= i < |r.value| ==> r.value[i] == Padded(values, i)
    ensures r.Throw? ==> r.exception.RangeError?
  {
    var n := length.GetOr(|values|);
    if n < 0 then Throw(RangeError("Invalid typed array length"))
    else if |values| > n then Throw(RangeError("offset is out of bounds"))
    else Ok(values + Zeros(n - |values|))
  }

  /** `multiplyScalar`: multiplies every component in place; the length is kept. */
  function MultiplyScalar(v: Vector, scalar: real): (r: Vector)
    ensures |r| == |v|
    ensures forall i :: 0 <= i < |v| ==> r[i] == v[i] * scalar
  {
    if v == [] then [] else [v[0] * scalar] + MultiplyScalar(v[1..], scalar)
  }

  /** `divideScalar`: throws on a zero divisor before touching any component. */
  function DivideScalar(v: Vector, scalar: real): (r: Result<Vector>)
    ensures r.Throw? <==> scalar == 0.0
    ensures r.Throw? ==> r.exception == Error("Vector: division by zero")
    ensures r.Ok? ==> |r.value| == |v|
    ensures r.Ok? ==> forall i :: 0 <= i < |v| ==> r.value[i] == v[i] / scalar
  {
    if scalar == 0.0 then Throw(Error("Vector: division by zero"))
    else Ok(Divided(v, scalar))
  }

  function Divided(v: Vector, scalar: real): (r: Vector)
    requires scalar != 0.0
    ensures |r| == |v|
    ensures forall i :: 0 <= i < |v| ==> r[i] == v[i] / scalar
  {
    if v == [] then [] else [v[0] / scalar] + Divided(v[1..], scalar)
  }

  /** Dividing by a non-zero scalar undoes multiplying by it. */
  lemma {:induction false} DivideUndoesMultiply(v: Vector, scalar: real)
    requires scalar != 0.0
    ensures DivideScalar(MultiplyScalar(v, scalar), scalar) == Ok(v)
  {
    var m := MultiplyScalar(v, scalar);
    var d := DivideScalar(m, scalar).value;
    forall i | 0 <= i < |v|
      ensures d[i] == v[i]
    {
      assert m[i] == v[i] * scalar;
      assert d[i] == m[i] / scalar;
    }
    assert d == v;
  }

  // ---------------------------------------------------------------- Vector2

  /** `new Vector2(x = 0, y = 0)`: omitted coordinates default to 0. */
  function NewVector2(x: Option<real>, y: Option<real>): (r: Vector2)
    ensures X2(r) == x.GetOr(0.0) && Y2(r) == y.GetOr(0.0)
  {
    NewVector([x.GetOr(0.0), y.GetOr(0.0)], Some(2)).value
  }

  function X2(v: Vector2): real { v[0] }
  function Y2(v: Vector2): real { v[1] }

  function SetX2(v: Vector2, x: real): (r: Vector2)
    ensures X2(r) == x && Y2(r) == Y2(v)
  {
    v[0 := x]
  }

  function SetY2(v: Vector2, y: real): (r: Vector2)
    ensures Y2(r) == y && X2(r) == X2(v)
  {
    v[1 := y]
  }

  // ---------------------------------------------------------------- Vector3

  /** One argument of `new Vector3(...args)`, as the constructor's dispatch sees it. */
  datatype Arg =
    | NumberArg(n: real)
    | ArrayArg(values: seq<real>)
    /** Any `Vector` instance; its components are read in order. */
    | VectorArg(components: Vector)
    | OtherArg

  /** The documented call shapes: several arguments are always numbers. */
  predicate WellFormed(args: seq<Arg>) {
    |args| != 1 ==> forall i :: 0 <= i < |args| ==> args[i].NumberArg?
  }

  function Numbers(args: seq<Arg>): (r: seq<real>)
    requires forall i :: 0 <= i < |args| ==> args[i].NumberArg?
    ensures |r| == |args| && forall i :: 0 <= i < |args| ==> r[i] == args[i].n
  {
    seq(|args|, i requires 0 <= i < |args| => args[i].n)
  }

  /** `r` is the outcome of filling a length-3 vector from `values`. */
  predicate FilledFrom(r: Result<Vector3>, values: seq<real>) {
    && (r.Ok? <==> |values| <= 3)
    && (r.Ok? ==> forall i :: 0 <= i < 3 ==> r.value[i] == Padded(values, i))
    && (r.Throw? ==> r.exception.RangeError?)
  }

  /**
    `new Vector3(...args)`: a lone array or `Vector` supplies the values, a
    lone anything-else gives no values, several arguments are the values
    themselves; the result always has three components.
   */
  function NewVector3(args: seq<Arg>): (r: Result<Vector3>)
    requires WellFormed(args)
    ensures |args| == 1 && args[0].ArrayArg? ==> FilledFrom(r, args[0].values)
    ensures |args| == 1 && args[0].VectorArg? ==> FilledFrom(r, args[0].components)
    ensures |args| == 1 && (args[0].NumberArg? || args[0].OtherArg?) ==> r == Ok([0.0, 0.0, 0.0])
    ensures |args| != 1 ==> FilledFrom(r, Numbers(args))
  {
    var values :=
      if |args| == 1 then
        match args[0]
        case ArrayArg(vs) => vs
        case VectorArg(cs) => cs
        case _ => []
      else Numbers(args);
    var v :- NewVector(values, Some(3));
    assert values == [] ==> v == [0.0, 0.0, 0.0] by {
      if values == [] {
        assert v[0] == 0.0 && v[1] == 0.0 && v[2] == 0.0;
      }
    }
    Ok(v)
  }

  function X(v: Vector3): real { v[0] }
  function Y(v: Vector3): real { v[1] }
  function Z(v: Vector3): real { v[2] }

  function SetX(v: Vector3, x: real): (r: Vector3)
    ensures X(r) == x && Y(r) == Y(v) && Z(r) == Z(v)
  {
    v[0 := x]
  }

  function SetY(v: Vector3, y: real): (r: Vector3)
    ensures Y(r) == y && X(r) == X(v) && Z(r) == Z(v)
  {
    v[1 := y]
  }

  function SetZ(v: Vector3, z: real): (r: Vector3)
    ensures Z(r) == z && X(r) == X(v) && Y(r) == Y(v)
  {
    v[2 := z]
  }

  /** The object `toJSON` produces, `{ x, y, z }`. */
  datatype Json = Json(x: real, y: real, z: real)

  function ToJson(v: Vector3): Json {
    Json(v[0], v[1], v[2])
  }

  /** `fromJSON({ x, y, z })` is `new Vector3(x, y, z)`. */
  function FromJson(j: Json): (r: Vector3)
    ensures ToJson(r) == j
  {
    NewVector3([NumberArg(j.x), NumberArg(j.y), NumberArg(j.z)]).value
  }

  /** Serialising and reading back gives the same vector. */
  lemma JsonRoundTrip(v: Vector3)
    ensures FromJson(ToJson(v)) == v
  {
    var r := FromJson(ToJson(v));
    assert ToJson(r) == ToJson(v);
    assert r[0] == v[0] && r[1] == v[1] && r[2] == v[2];
  }
}
