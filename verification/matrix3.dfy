/**
  3×3 matrices (src/math/Matrix3.js): nine components in row-major order.
 */
module Mat3 {
  import opened Js
  import opened Vectors

  type Matrix3 = s: seq<real> | |s| == 9 witness [0.0, 0.0, 0.0, 0.0, 0.0, 0.0, 0.0, 0.0, 0.0]

  /** One element of the array given to `new Matrix3(components)`. */
  datatype Item = NumberItem(n: real) | VectorItem(v: Vector3) | OtherItem

  /** The argument of `new Matrix3(components)`: omitted, an array, or any other value. */
  datatype Arg = Omitted | ArrayArg(items: seq<Item>) | NonArrayArg

  predicate AllNumbers(items: seq<Item>) {
    forall i :: 0 <= i < |items| ==> items[i].NumberItem?
  }

  predicate AllVectors(items: seq<Item>) {
    forall i :: 0 <= i < |items| ==> items[i].VectorItem?
  }

  /** `Matrix3.zero()`. */
  function Zero(): (r: Matrix3)
    ensures forall i :: 0 <= i < 9 ==> r[i] == 0.0
  {
    [0.0, 0.0, 0.0,
     0.0, 0.0, 0.0,
     0.0, 0.0, 0.0]
  }

  /** The rows' components, one row after the other. */
  function Flatten(rows: seq<Item>): (r: seq<real>)
    requires AllVectors(rows)
    ensures |r| == 3 * |rows|
    ensures forall i, j :: 0 <= i < |rows| && 0 <= j < 3 ==> r[3 * i + j] == rows[i].v[j]
  {
    if rows == [] then []
    else
      var rest := Flatten(rows[1..]);
      assert forall i, j :: 1 <= i < |rows| && 0 <= j < 3 ==> rest[3 * (i - 1) + j] == rows[i].v[j];
      rows[0].v + rest
  }

  /**
    `new Matrix3(components)`: nine numbers are the components in order, three
    `Vector3` rows are flattened row-major, no argument gives the zero matrix,
    and anything else throws.
   */
  function New(arg: Arg): (r: Result<Matrix3>)
    ensures r.Ok? <==>
      || arg.Omitted?
      || (arg.ArrayArg? && |arg.items| == 9 && AllNumbers(arg.items))
      || (arg.ArrayArg? && |arg.items| == 3 && AllVectors(arg.items))
    ensures arg.Omitted? ==> r.Ok? && forall i :: 0 <= i < 9 ==> r.value[i] == 0.0
    ensures arg.ArrayArg? && |arg.items| == 9 && AllNumbers(arg.items) ==>
      r.Ok? && forall i :: 0 <= i < 9 ==> r.value[i] == arg.items[i].n
    ensures arg.ArrayArg? && |arg.items| == 3 && AllVectors(arg.items) ==>
      r.Ok? && forall i, j :: 0 <= i < 3 && 0 <= j < 3 ==> r.value[3 * i + j] == arg.items[i].v[j]
    ensures r.Throw? ==> r.exception == TypeError("Invalid 'components' format")
  {
    match arg
    case ArrayArg(items) =>
      if |items| == 9 && AllNumbers(items) then
        Ok(seq(9, i requires 0 <= i < 9 => items[i].n))
      else if |items| == 3 && AllVectors(items) then
        Ok(Flatten(items))
      else
        Throw(TypeError("Invalid 'components' format"))
    case Omitted => Ok(Zero())
    case NonArrayArg => Throw(TypeError("Invalid 'components' format"))
  }

  /** `get(index)`: only indices 0 to 8 are accepted. */
  function Get(m: Matrix3, index: int): (r: Result<real>)
    ensures r.Ok? <==> 0 <= index <= 8
    ensures r.Ok? ==> r.value == m[index]
  {
    if 0 <= index <= 8 then Ok(m[index]) else Throw(AssertionFailure("index"))
  }

  /** `set(index, value)`: the index is checked first, then the value. */
  function Set(m: Matrix3, index: int, value: Scalar): (r: Result<Matrix3>)
    ensures r.Ok? <==> 0 <= index <= 8 && value.Number?
    ensures !(0 <= index <= 8) ==> r == Throw(AssertionFailure("index"))
    ensures r.Ok? ==> r.value[index] == value.n
    ensures r.Ok? ==> forall i :: 0 <= i < 9 && i != index ==> r.value[i] == m[i]
  {
    if !(0 <= index <= 8) then Throw(AssertionFailure("index"))
    else if !value.Number? then Throw(AssertionFailure("value"))
    else Ok(m[index := value.n])
  }

  /** `toJSON()`: component `i` is stored under the key `i + 1`. */
  function ToJson(m: Matrix3): (r: map<int, real>)
    ensures forall k :: k in r <==> 1 <= k <= 9
    ensures forall k :: 1 <= k <= 9 ==> r[k] == m[k - 1]
  {
    map[1 := m[0], 2 := m[1], 3 := m[2],
        4 := m[3], 5 := m[4], 6 := m[5],
        7 := m[6], 8 := m[7], 9 := m[8]]
  }

  /** The JSON form loses nothing: two matrices with the same JSON are equal. */
  lemma ToJsonInjective(a: Matrix3, b: Matrix3)
    requires ToJson(a) == ToJson(b)
    ensures a == b
  {
    forall i | 0 <= i < 9
      ensures a[i] == b[i]
    {
      assert ToJson(a)[i + 1] == ToJson(b)[i + 1];
    }
  }
}
