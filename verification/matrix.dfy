/**
  The generic matrix (src/math/Matrix.js): a `Float64Array` of `rows * cols`
  numbers together with its two dimensions, fixed at construction.
 */
module Matrices {
  import opened Js

  datatype Matrix = Matrix(values: seq<real>, rows: int, cols: int)

  /** Every constructed matrix stores exactly `rows * cols` numbers. */
  predicate Valid(m: Matrix) {
    |m.values| == m.rows * m.cols
  }

  /** One argument of `new Matrix(...args)`, as the constructor's dispatch sees it. */
  datatype Arg =
    | ArrayArg(values: seq<real>)
    | MatrixArg(source: Matrix)
    | NumberArg(n: int)
    | OtherArg

  // ---------------------------------------------------------------- perfect squares

  function Square(k: nat): nat { k * k }

  lemma SquareMonotone(a: nat, b: nat)
    requires a <= b
    ensures Square(a) <= Square(b)
  {
    assert a * a <= a * b <= b * b;
  }

  lemma SquareStrict(a: nat, b: nat)
    requires a < b
    ensures Square(a) < Square(b)
  {
    assert a * a <= a * b;
    assert a * b < b * b;
  }

  /** Distinct naturals have distinct squares. */
  lemma SquareInjective(a: nat, b: nat)
    ensures Square(a) == Square(b) ==> a == b
  {
    if a < b {
      SquareStrict(a, b);
    } else if b < a {
      SquareStrict(b, a);
    }
  }

  /** Searches k, k + 1, … for a root of n, knowing that no smaller number is one. */
  function RootFrom(n: nat, k: nat): (r: Option<nat>)
    requires k == 0 || Square(k - 1) < n
    ensures r.Some? ==> Square(r.value) == n
    ensures r.None? ==> forall j: nat :: Square(j) != n
    decreases n + 1 - k
  {
    if Square(k) == n then Some(k)
    else if Square(k) > n then
      assert forall j: nat :: Square(j) != n by {
        forall j: nat
          ensures Square(j) != n
        {
          if j < k {
            SquareMonotone(j, k - 1);
          } else {
            SquareMonotone(k, j);
          }
        }
      }
      None
    else
      assert k <= Square(k) by {
        if k > 0 {
          SquareMonotone(1, k);
          assert k * 1 <= k * k;
        }
      }
      RootFrom(n, k + 1)
  }

  /**
    The whole square root of `n`, if there is one: the model of
    `Math.sqrt(n) % 1 === 0` on an array length.
   */
  function SquareRoot(n: nat): (r: Option<nat>)
    ensures r.Some? <==> exists k: nat :: Square(k) == n
    ensures r.Some? ==> Square(r.value) == n
  {
    RootFrom(n, 0)
  }

  // ---------------------------------------------------------------- construction

  /** The dimensions lines 23-43 settle on, or `None` when they stay `null`. */
  function Dimensions(args: seq<Arg>): Option<(int, int)> {
    if |args| == 0 then None
    else
      match args[0]
      case ArrayArg(values) =>
        if |args| == 1 then
          match SquareRoot(|values|)
          case Some(k) => Some((k, k))
          case None => None
        else if |args| == 3 && args[1].NumberArg? && args[2].NumberArg? then
          Some((args[1].n, args[2].n))
        else None
      case MatrixArg(m) => Some((m.rows, m.cols))
      case _ => None
  }

  /** The values the constructor copies from: the array, or the source matrix's values. */
  function Source(args: seq<Arg>): seq<real> {
    if |args| == 0 then []
    else
      match args[0]
      case ArrayArg(values) => values
      case MatrixArg(m) => m.values
      case _ => []
  }

  function Fill(values: seq<real>, n: nat): (r: seq<real>)
    ensures |r| == n
    ensures forall i :: 0 <= i < n ==> r[i] == if i < |values| then values[i] else 0.0
  {
    seq(n, i requires 0 <= i < n => if i < |values| then values[i] else 0.0)
  }

  /**
    `new Matrix(...args)`: settle the dimensions, allocate `rows * cols`
    numbers (a negative product is an invalid typed-array length), and copy
    the values, padding with zeros and dropping the extra ones.
   */
  function New(args: seq<Arg>): (r: Result<Matrix>)
    ensures Dimensions(args).None? ==> r == Throw(Error("Matrix: invalid arguments provided."))
    ensures Dimensions(args).Some? ==>
      var (rows, cols) := Dimensions(args).value;
      && (r.Ok? <==> rows * cols >= 0)
      && (r.Ok? ==> r.value.rows == rows && r.value.cols == cols)
      && (r.Throw? ==> r.exception.RangeError?)
    ensures r.Ok? ==> Valid(r.value)
    ensures r.Ok? ==> forall i :: 0 <= i < |r.value.values| ==>
      r.value.values[i] == if i < |Source(args)| then Source(args)[i] else 0.0
  {
    match Dimensions(args)
    case None => Throw(Error("Matrix: invalid arguments provided."))
    case Some((rows, cols)) =>
      var l := rows * cols;
      if l < 0 then Throw(RangeError("Invalid typed array length"))
      else Ok(Matrix(Fill(Source(args), l), rows, cols))
  }

  /** `rows` and `cols` read back the dimensions fixed at construction. */
  function Rows(m: Matrix): int { m.rows }
  function Cols(m: Matrix): int { m.cols }

  // ---------------------------------------------------------------- the constructor's cases

  /** A lone array whose length is k² gives a k×k matrix holding exactly that array. */
  lemma SquareArray(values: seq<real>, k: nat)
    requires |values| == Square(k)
    ensures New([ArrayArg(values)]) == Ok(Matrix(values, k, k))
  {
    var r := SquareRoot(|values|);
    assert r.Some?;
    SquareInjective(r.value, k);
    var m := New([ArrayArg(values)]).value;
    assert m.values == values;
  }

  /** An empty array gives the 0×0 matrix. */
  lemma EmptyArray()
    ensures New([ArrayArg([])]) == Ok(Matrix([], 0, 0))
  {
    SquareArray([], 0);
  }

  /** A lone array whose length is not a perfect square is rejected. */
  lemma NonSquareArrayThrows(values: seq<real>)
    requires forall k: nat :: Square(k) != |values|
    ensures New([ArrayArg(values)]) == Throw(Error("Matrix: invalid arguments provided."))
  {
  }

  /** `(array, rows, cols)` with numeric dimensions gives a rows×cols matrix. */
  lemma ExplicitDimensions(values: seq<real>, rows: nat, cols: nat)
    ensures New([ArrayArg(values), NumberArg(rows), NumberArg(cols)]).Ok?
    ensures var m := New([ArrayArg(values), NumberArg(rows), NumberArg(cols)]).value;
      m.rows == rows && m.cols == cols && |m.values| == rows * cols
  {
  }

  /** A call with exactly two arguments is rejected unless the first is a matrix to copy. */
  lemma TwoArgumentsThrow(first: Arg, second: Arg)
    requires !first.MatrixArg?
    ensures New([first, second]) == Throw(Error("Matrix: invalid arguments provided."))
  {
  }

  /** Constructing from a matrix copies its values and its dimensions. */
  lemma CopyConstructor(m: Matrix)
    requires Valid(m)
    ensures New([MatrixArg(m)]) == Ok(m)
  {
    var c := New([MatrixArg(m)]).value;
    assert c.values == m.values;
  }
}
