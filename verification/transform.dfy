/**
  The transform of an object (src/object/Transform.js): position, rotation
  and scale, with a cached model matrix that a dirty flag invalidates.

  The matrix itself comes from `RendererUtils.calculateModelMatrix`, which is
  not implemented; it is the parameter `compute` here, so every statement
  holds whatever the model matrix turns out to be.
 */
module Transforms {
  import opened Js
  import opened Vectors
  import Mat3
  import opened Mat4

  type Compute = (Vector3, Mat3.Matrix3, real) -> Matrix4

  datatype Transform = Transform(
    position: Vector3,
    rotation: Mat3.Matrix3,
    scale: real,
    cache: Option<Matrix4>,
    dirty: bool)

  /** The matrix the current position, rotation and scale call for. */
  function Current(t: Transform, compute: Compute): Matrix4 {
    compute(t.position, t.rotation, t.scale)
  }

  /** The cache is trustworthy: a clean transform holds the matrix of its current state. */
  predicate Consistent(t: Transform, compute: Compute) {
    !t.dirty ==> t.cache == Some(Current(t, compute))
  }

  /** `new Transform(position, rotation, scale)`: dirty, with nothing cached. */
  function New(position: Vector3, rotation: Mat3.Matrix3, scale: real): (r: Transform)
    ensures r.dirty && r.cache.None?
    ensures r.position == position && r.rotation == rotation && r.scale == scale
    ensures forall compute: Compute :: Consistent(r, compute)
  {
    Transform(position, rotation, scale, None, true)
  }

  /** The `position` setter: stores the value and marks the transform dirty; the cache is kept. */
  function SetPosition(t: Transform, v: Vector3): (r: Transform)
    ensures r.dirty && r.position == v
    ensures r.rotation == t.rotation && r.scale == t.scale && r.cache == t.cache
  {
    t.(position := v, dirty := true)
  }

  /** The `rotation` setter, as it is evidently meant: stores the value and marks the transform dirty. */
  function SetRotation(t: Transform, m: Mat3.Matrix3): (r: Transform)
    ensures r.dirty && r.rotation == m
    ensures r.position == t.position && r.scale == t.scale && r.cache == t.cache
  {
    t.(rotation := m, dirty := true)
  }

  /** The `scale` setter: stores the value and marks the transform dirty. */
  function SetScale(t: Transform, s: real): (r: Transform)
    ensures r.dirty && r.scale == s
    ensures r.position == t.position && r.rotation == t.rotation && r.cache == t.cache
  {
    t.(scale := s, dirty := true)
  }

  /**
    The `modelMatrix` getter: recompute when dirty or when nothing is cached,
    then clear the flag; otherwise hand back the cached matrix untouched.
    Returns the matrix and the transform after the read.
   */
  function ModelMatrix(t: Transform, compute: Compute): (r: (Matrix4, Transform))
    ensures t.dirty || t.cache.None? ==>
      && r.0 == Current(t, compute)
      && r.1 == t.(cache := Some(Current(t, compute)), dirty := false)
    ensures !t.dirty && t.cache.Some? ==> r.0 == t.cache.value && r.1 == t
  {
    if t.dirty || t.cache.None? then
      var m := compute(t.position, t.rotation, t.scale);
      (m, t.(cache := Some(m), dirty := false))
    else
      (t.cache.value, t)
  }

  // ---------------------------------------------------------------- the cache invariant

  /** Every operation keeps the cache consistent with the state. */
  lemma OperationsPreserveConsistency(t: Transform, compute: Compute, v: Vector3, m: Mat3.Matrix3, s: real)
    requires Consistent(t, compute)
    ensures Consistent(SetPosition(t, v), compute)
    ensures Consistent(SetRotation(t, m), compute)
    ensures Consistent(SetScale(t, s), compute)
    ensures Consistent(ModelMatrix(t, compute).1, compute)
  {
  }

  /** On a consistent transform, the getter always answers the matrix of the current state. */
  lemma ModelMatrixIsCurrent(t: Transform, compute: Compute)
    requires Consistent(t, compute)
    ensures ModelMatrix(t, compute).0 == Current(t, compute)
    ensures !ModelMatrix(t, compute).1.dirty
  {
  }

  /** A read leaves position, rotation and scale as they were; a second read changes nothing and answers the same. */
  lemma ConsecutiveReadsEqual(t: Transform, compute: Compute)
    ensures var (m1, t1) := ModelMatrix(t, compute);
      && t1.position == t.position && t1.rotation == t.rotation && t1.scale == t.scale
      && ModelMatrix(t1, compute) == (m1, t1)
  {
  }

  /** One step a caller can take on a transform. */
  datatype Op = PositionOp(v: Vector3) | RotationOp(m: Mat3.Matrix3) | ScaleOp(s: real) | ReadOp

  function Apply(t: Transform, op: Op, compute: Compute): (r: Transform)
    requires Consistent(t, compute)
    ensures Consistent(r, compute)
  {
    match op
    case PositionOp(v) => SetPosition(t, v)
    case RotationOp(m) => SetRotation(t, m)
    case ScaleOp(s) => SetScale(t, s)
    case ReadOp => ModelMatrix(t, compute).1
  }

  /**
    Along any sequence of operations started from a consistent transform (a
    new one, say), the cache stays consistent, so the next read of
    `modelMatrix` answers the matrix of the state reached.
   */
  function Run(t: Transform, ops: seq<Op>, compute: Compute): (r: Transform)
    requires Consistent(t, compute)
    ensures Consistent(r, compute)
    ensures ModelMatrix(r, compute).0 == Current(r, compute)
    decreases |ops|
  {
    if ops == [] then t
    else Run(Apply(t, ops[0], compute), ops[1..], compute)
  }
}
