/**
  4×4 matrices (src/math/Matrix4.js): sixteen components in row-major order,
  entry (row, col) at flat index `row * 4 + col`.
 */
module Mat4 {
  import opened Js
  import opened Vectors
  import Mat3

  type Matrix4 = s: seq<real> | |s| == 16 witness seq(16, _ => 0.0)

  /** Entry (row, col). */
  function At(m: Matrix4, row: int, col: int): real
    requires 0 <= row < 4 && 0 <= col < 4
  {
    m[4 * row + col]
  }

  /** The entries of the 4×4 identity. */
  function Delta(row: int, col: int): real {
    if row == col then 1.0 else 0.0
  }

  /** Two matrices with the same entries are the same matrix. */
  lemma Extensionality(a: Matrix4, b: Matrix4)
    requires forall i, j :: 0 <= i < 4 && 0 <= j < 4 ==> At(a, i, j) == At(b, i, j)
    ensures a == b
  {
    forall n | 0 <= n < 16
      ensures a[n] == b[n]
    {
      assert At(a, n / 4, n % 4) == At(b, n / 4, n % 4);
    }
  }

  // ---------------------------------------------------------------- construction

  /** The argument of `new Matrix4(components)`: omitted, an array, or any other value. */
  datatype Arg = Omitted | ArrayArg(items: seq<Scalar>) | NonArrayArg

  predicate AllNumbers(items: seq<Scalar>) {
    forall i :: 0 <= i < |items| ==> items[i].Number?
  }

  /** `new Matrix4(components)`: exactly sixteen numbers, or nothing for the zero matrix. */
  function New(arg: Arg): (r: Result<Matrix4>)
    ensures r.Ok? <==> arg.Omitted? || (arg.ArrayArg? && |arg.items| == 16 && AllNumbers(arg.items))
    ensures arg.Omitted? ==> r == Ok(Zero())
    ensures r.Ok? && arg.ArrayArg? ==> forall i :: 0 <= i < 16 ==> r.value[i] == arg.items[i].n
    ensures r.Throw? ==> r.exception.TypeError?
  {
    match arg
    case ArrayArg(items) =>
      if |items| == 16 && AllNumbers(items) then Ok(seq(16, i requires 0 <= i < 16 => items[i].n))
      else Throw(TypeError("Bad '...components' parameter"))
    case Omitted => Ok(Zero())
    case NonArrayArg => Throw(TypeError("Bad '...components' parameter"))
  }

  /** `Matrix4.zero()`. */
  function Zero(): (r: Matrix4)
    ensures forall i :: 0 <= i < 16 ==> r[i] == 0.0
  {
    [0.0, 0.0, 0.0, 0.0,
     0.0, 0.0, 0.0, 0.0,
     0.0, 0.0, 0.0, 0.0,
     0.0, 0.0, 0.0, 0.0]
  }

  /** `Matrix4.identity()`. */
  function Identity(): (r: Matrix4)
    ensures forall i, j :: 0 <= i < 4 && 0 <= j < 4 ==> At(r, i, j) == Delta(i, j)
    ensures forall n :: 0 <= n < 16 ==> r[n] == (if n == 0 || n == 5 || n == 10 || n == 15 then 1.0 else 0.0)
  {
    [1.0, 0.0, 0.0, 0.0,
     0.0, 1.0, 0.0, 0.0,
     0.0, 0.0, 1.0, 0.0,
     0.0, 0.0, 0.0, 1.0]
  }

  /** `Matrix4.fromMatrix3(m3)`: the 3×3 block in the top left, (0, 0, 0, 1) as last row and column. */
  function FromMatrix3(m3: Mat3.Matrix3): (r: Matrix4)
    ensures forall i, j :: 0 <= i < 3 && 0 <= j < 3 ==> At(r, i, j) == m3[3 * i + j]
    ensures forall k :: 0 <= k < 4 ==> At(r, 3, k) == Delta(3, k) && At(r, k, 3) == Delta(k, 3)
  {
    [m3[0], m3[1], m3[2], 0.0,
     m3[3], m3[4], m3[5], 0.0,
     m3[6], m3[7], m3[8], 0.0,
     0.0, 0.0, 0.0, 1.0]
  }

  /** `Matrix4.fromVector3(v3)`: the identity with the translation in the last column. */
  function FromVector3(v: Vector3): (r: Matrix4)
    ensures forall i :: 0 <= i < 3 ==> At(r, i, 3) == v[i]
    ensures forall i, j :: 0 <= i < 4 && 0 <= j < 4 && (j != 3 || i == 3) ==> At(r, i, j) == Delta(i, j)
  {
    [1.0, 0.0, 0.0, v[0],
     0.0, 1.0, 0.0, v[1],
     0.0, 0.0, 1.0, v[2],
     0.0, 0.0, 0.0, 1.0]
  }

  // ---------------------------------------------------------------- get / set

  /** The flat index the one-argument and the (row, col) forms address. */
  function FlatIndex(args: seq<int>): int
    requires |args| == 1 || |args| == 2
  {
    if |args| == 1 then args[0] else args[0] * 4 + args[1]
  }

  /** The start of the message `get` and `set` throw for a wrong argument count, before the arguments' text. */
  const BadArgs := "Bad '..args' parameter "

  /** That message for integer arguments: the start, then `${args}`. */
  function BadArgsText(args: seq<int>): string {
    BadArgs + IntsText(args)
  }

  /**
    `get(...args)`: one argument is a flat index, two are (row, col); any other
    count throws. An index outside the array reads `undefined` (`None`).
   */
  function Get(m: Matrix4, args: seq<int>): (r: Result<Option<real>>)
    ensures r.Ok? <==> |args| == 1 || |args| == 2
    ensures r.Throw? ==> r.exception.Error? && r.exception.message == BadArgsText(args)
    ensures |args| == 1 && 0 <= args[0] < 16 ==> r == Ok(Some(m[args[0]]))
    ensures |args| == 2 && 0 <= args[0] < 4 && 0 <= args[1] < 4 ==> r == Ok(Some(At(m, args[0], args[1])))
    ensures r.Ok? ==> (r.value.Some? <==> 0 <= FlatIndex(args) < 16)
  {
    if |args| == 1 || |args| == 2 then
      var index := FlatIndex(args);
      Ok(if 0 <= index < 16 then Some(m[index]) else None)
    else Throw(Error(BadArgsText(args)))
  }

  /**
    `set(...args, value)`: `args` are the arguments before the value; one is a
    flat index, two are (row, col); any other count throws. An index outside
    the sixteen components leaves them all as they were.
   */
  function Set(m: Matrix4, args: seq<int>, value: real): (r: Result<Matrix4>)
    ensures r.Ok? <==> |args| == 1 || |args| == 2
    ensures r.Throw? ==> r.exception.Error? && BadArgsText(args) <= r.exception.message
    ensures r.Ok? && 0 <= FlatIndex(args) < 16 ==> r.value[FlatIndex(args)] == value
    ensures r.Ok? ==> forall i :: 0 <= i < 16 && i != FlatIndex(args) ==> r.value[i] == m[i]
  {
    if |args| == 1 || |args| == 2 then
      var index := FlatIndex(args);
      Ok(if 0 <= index < 16 then m[index := value] else m)
    else Throw(Error(BadArgsText(args)))
  }

  /** The arguments are written after the message's space, so `get()` ends in that space. */
  lemma GetMessageExamples(m: Matrix4)
    ensures Get(m, []) == Throw(Error("Bad '..args' parameter "))
    ensures Get(m, [1, 2, -30]) == Throw(Error("Bad '..args' parameter 1,2,-30"))
  {
    assert IntsText([2, -30]) == "2,-30";
  }

  /** The (row, col) form of `get` reads the same entry as the flat form. */
  lemma GetForms(m: Matrix4, row: int, col: int)
    ensures Get(m, [row, col]) == Get(m, [row * 4 + col])
  {
  }

  /** Reading back what `set` stored. */
  lemma GetAfterSet(m: Matrix4, args: seq<int>, value: real)
    requires |args| == 1 || |args| == 2
    requires 0 <= FlatIndex(args) < 16
    ensures Get(Set(m, args, value).value, args) == Ok(Some(value))
  {
  }

  // ---------------------------------------------------------------- product and transpose

  /** Entry (i, j) of the product a·b. */
  function Dot(a: Matrix4, b: Matrix4, i: int, j: int): real
    requires 0 <= i < 4 && 0 <= j < 4
  {
    At(a, i, 0) * At(b, 0, j) + At(a, i, 1) * At(b, 1, j) + At(a, i, 2) * At(b, 2, j) + At(a, i, 3) * At(b, 3, j)
  }

  /** `Matrix4.multiplyMatrix4(a, b)`: the sixteen sums written out. */
  function Multiply(a: Matrix4, b: Matrix4): Matrix4
  {
    [a[0] * b[0] + a[1] * b[4] + a[2] * b[8] + a[3] * b[12],
     a[0] * b[1] + a[1] * b[5] + a[2] * b[9] + a[3] * b[13],
     a[0] * b[2] + a[1] * b[6] + a[2] * b[10] + a[3] * b[14],
     a[0] * b[3] + a[1] * b[7] + a[2] * b[11] + a[3] * b[15],

     a[4] * b[0] + a[5] * b[4] + a[6] * b[8] + a[7] * b[12],
     a[4] * b[1] + a[5] * b[5] + a[6] * b[9] + a[7] * b[13],
     a[4] * b[2] + a[5] * b[6] + a[6] * b[10] + a[7] * b[14],
     a[4] * b[3] + a[5] * b[7] + a[6] * b[11] + a[7] * b[15],

     a[8] * b[0] + a[9] * b[4] + a[10] * b[8] + a[11] * b[12],
     a[8] * b[1] + a[9] * b[5] + a[10] * b[9] + a[11] * b[13],
     a[8] * b[2] + a[9] * b[6] + a[10] * b[10] + a[11] * b[14],
     a[8] * b[3] + a[9] * b[7] + a[10] * b[11] + a[11] * b[15],

     a[12] * b[0] + a[13] * b[4] + a[14] * b[8] + a[15] * b[12],
     a[12] * b[1] + a[13] * b[5] + a[14] * b[9] + a[15] * b[13],
     a[12] * b[2] + a[13] * b[6] + a[14] * b[10] + a[15] * b[14],
     a[12] * b[3] + a[13] * b[7] + a[14] * b[11] + a[15] * b[15]]
  }

  lemma MultiplyRow0(a: Matrix4, b: Matrix4)
    ensures At(Multiply(a, b), 0, 0) == Dot(a, b, 0, 0) &&
      At(Multiply(a, b), 0, 1) == Dot(a, b, 0, 1) &&
      At(Multiply(a, b), 0, 2) == Dot(a, b, 0, 2) &&
      At(Multiply(a, b), 0, 3) == Dot(a, b, 0, 3)
  {
  }

  lemma MultiplyRow1(a: Matrix4, b: Matrix4)
    ensures At(Multiply(a, b), 1, 0) == Dot(a, b, 1, 0) &&
      At(Multiply(a, b), 1, 1) == Dot(a, b, 1, 1) &&
      At(Multiply(a, b), 1, 2) == Dot(a, b, 1, 2) &&
      At(Multiply(a, b), 1, 3) == Dot(a, b, 1, 3)
  {
  }

  lemma MultiplyRow2(a: Matrix4, b: Matrix4)
    ensures At(Multiply(a, b), 2, 0) == Dot(a, b, 2, 0) &&
      At(Multiply(a, b), 2, 1) == Dot(a, b, 2, 1) &&
      At(Multiply(a, b), 2, 2) == Dot(a, b, 2, 2) &&
      At(Multiply(a, b), 2, 3) == Dot(a, b, 2, 3)
  {
  }

  lemma MultiplyRow3(a: Matrix4, b: Matrix4)
    ensures At(Multiply(a, b), 3, 0) == Dot(a, b, 3, 0) &&
      At(Multiply(a, b), 3, 1) == Dot(a, b, 3, 1) &&
      At(Multiply(a, b), 3, 2) == Dot(a, b, 3, 2) &&
      At(Multiply(a, b), 3, 3) == Dot(a, b, 3, 3)
  {
  }

  /** Entry (i, j) of the written-out product is the sum over k of a[4i+k]·b[4k+j]. */
  lemma MultiplyEntry(a: Matrix4, b: Matrix4, i: int, j: int)
    requires 0 <= i < 4 && 0 <= j < 4
    ensures At(Multiply(a, b), i, j) == Dot(a, b, i, j)
  {
    if i == 0 {
      MultiplyRow0(a, b);
    } else if i == 1 {
      MultiplyRow1(a, b);
    } else if i == 2 {
      MultiplyRow2(a, b);
    } else {
      MultiplyRow3(a, b);
    }
    assert j == 0 || j == 1 || j == 2 || j == 3;
  }

  /** `transpose()`: the components reordered column by column. */
  function Transpose(m: Matrix4): (r: Matrix4)
    ensures forall i, j :: 0 <= i < 4 && 0 <= j < 4 ==> At(r, i, j) == At(m, j, i)
  {
    [m[0], m[4], m[8], m[12],
     m[1], m[5], m[9], m[13],
     m[2], m[6], m[10], m[14],
     m[3], m[7], m[11], m[15]]
  }

  /** Transposing twice restores the matrix. */
  lemma TransposeInvolutive(m: Matrix4)
    ensures Transpose(Transpose(m)) == m
  {
    var t := Transpose(Transpose(m));
    forall i, j | 0 <= i < 4 && 0 <= j < 4
      ensures At(t, i, j) == At(m, i, j)
    {
      assert At(t, i, j) == At(Transpose(m), j, i);
    }
    Extensionality(t, m);
  }

  /** The identity is a left neutral element of the product. */
  lemma IdentityLeftNeutral(m: Matrix4)
    ensures Multiply(Identity(), m) == m
  {
    var r := Multiply(Identity(), m);
    forall i, j | 0 <= i < 4 && 0 <= j < 4
      ensures At(r, i, j) == At(m, i, j)
    {
      MultiplyEntry(Identity(), m, i, j);
    }
    Extensionality(r, m);
  }

  /** The identity is a right neutral element of the product. */
  lemma IdentityRightNeutral(m: Matrix4)
    ensures Multiply(m, Identity()) == m
  {
    var r := Multiply(m, Identity());
    forall i, j | 0 <= i < 4 && 0 <= j < 4
      ensures At(r, i, j) == At(m, i, j)
    {
      MultiplyEntry(m, Identity(), i, j);
    }
    Extensionality(r, m);
  }
}
