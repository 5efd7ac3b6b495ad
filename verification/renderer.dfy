/**
  The matrix builders of src/render/Renderer.js: the camera matrix, which
  takes world coordinates into camera space (row-vector convention), and the
  projection from the viewport plane to canvas pixels.
 */
module Renderer {
  import opened Js
  import opened Vectors
  import opened Mat4
  import Mat3
  import Objects
  import Viewports

  /** The `{ width, height }` argument of `calculate3DtoCanvasMatrix`, in pixels. */
  datatype CanvasSize = CanvasSize(width: real, height: real)

  /** `calculateCameraMatrix(camera)`: the transposed rotation times the transposed translation. */
  function CameraMatrix(camera: Objects.Camera): Matrix4 {
    Multiply(Transpose(FromMatrix3(camera.rotation)), Transpose(FromVector3(camera.position)))
  }

  /**
    The camera matrix's entries: Rᵀ in the top-left 3×3 block, the position in
    the bottom row, and (0, 0, 0, 1) as the last column.
   */
  function CameraEntry(camera: Objects.Camera, i: int, j: int): real
    requires 0 <= i < 4 && 0 <= j < 4
  {
    if i < 3 && j < 3 then camera.rotation[3 * j + i]
    else if i == 3 && j < 3 then camera.position[j]
    else Delta(i, j)
  }

  lemma CameraMatrixEntry(camera: Objects.Camera, i: int, j: int)
    requires 0 <= i < 4 && 0 <= j < 4
    ensures At(CameraMatrix(camera), i, j) == CameraEntry(camera, i, j)
  {
    var a := Transpose(FromMatrix3(camera.rotation));
    var b := Transpose(FromVector3(camera.position));
    MultiplyEntry(a, b, i, j);
    forall k | 0 <= k < 4
      ensures At(a, i, k) == (if i < 3 && k < 3 then camera.rotation[3 * k + i] else Delta(i, k))
      ensures At(b, k, j) == (if k == 3 && j < 3 then camera.position[j] else Delta(k, j))
    {
      assert At(a, i, k) == At(FromMatrix3(camera.rotation), k, i);
      assert At(b, k, j) == At(FromVector3(camera.position), j, k);
    }
  }

  /**
    The layout of the camera matrix in the flat, row-major components: Rᵀ in
    the top left, zeros at 3, 7 and 11, the position at 12 to 14, and 1 at 15.
   */
  lemma CameraMatrixLayout(camera: Objects.Camera)
    ensures var m := CameraMatrix(camera);
      && (forall i, j :: 0 <= i < 3 && 0 <= j < 3 ==> m[4 * i + j] == camera.rotation[3 * j + i])
      && m[3] == 0.0 && m[7] == 0.0 && m[11] == 0.0
      && m[12] == camera.position[0] && m[13] == camera.position[1] && m[14] == camera.position[2]
      && m[15] == 1.0
  {
    var m := CameraMatrix(camera);
    forall i, j | 0 <= i < 3 && 0 <= j < 3
      ensures m[4 * i + j] == camera.rotation[3 * j + i]
    {
      CameraMatrixEntry(camera, i, j);
    }
    CameraMatrixEntry(camera, 0, 3);
    CameraMatrixEntry(camera, 1, 3);
    CameraMatrixEntry(camera, 2, 3);
    CameraMatrixEntry(camera, 3, 0);
    CameraMatrixEntry(camera, 3, 1);
    CameraMatrixEntry(camera, 3, 2);
    CameraMatrixEntry(camera, 3, 3);
  }

  /** The 3×3 identity. */
  function Identity3(): (r: Mat3.Matrix3)
    ensures forall i, j :: 0 <= i < 3 && 0 <= j < 3 ==> r[3 * i + j] == Delta(i, j)
  {
    [1.0, 0.0, 0.0,
     0.0, 1.0, 0.0,
     0.0, 0.0, 1.0]
  }

  /** With no rotation, the camera matrix is the identity with the position in the bottom row. */
  lemma CameraMatrixTranslationOnly(position: Vector3)
    ensures CameraMatrix(Objects.Camera(position, Identity3())) ==
      [1.0, 0.0, 0.0, 0.0,
       0.0, 1.0, 0.0, 0.0,
       0.0, 0.0, 1.0, 0.0,
       position[0], position[1], position[2], 1.0]
  {
    var camera := Objects.Camera(position, Identity3());
    var expected: Matrix4 :=
      [1.0, 0.0, 0.0, 0.0,
       0.0, 1.0, 0.0, 0.0,
       0.0, 0.0, 1.0, 0.0,
       position[0], position[1], position[2], 1.0];
    forall i, j | 0 <= i < 4 && 0 <= j < 4
      ensures At(CameraMatrix(camera), i, j) == At(expected, i, j)
    {
      CameraMatrixEntry(camera, i, j);
    }
    Extensionality(CameraMatrix(camera), expected);
  }

  /** A camera at the origin with no rotation has the identity as its matrix. */
  lemma CameraMatrixDefault()
    ensures CameraMatrix(Objects.Camera([0.0, 0.0, 0.0], Identity3())) == Identity()
  {
    CameraMatrixTranslationOnly([0.0, 0.0, 0.0]);
  }

  /**
    `calculate3DtoCanvasMatrix(viewport, canvasSize)`: the identity with the
    two scale factors d·canvasWidth/viewWidth and d·canvasHeight/viewHeight
    on the diagonal.
   */
  function ProjectionMatrix(viewport: Viewports.Viewport, size: CanvasSize): (r: Matrix4)
    ensures At(r, 0, 0) == viewport.distanceToCamera * size.width / viewport.width
    ensures At(r, 1, 1) == viewport.distanceToCamera * size.height / viewport.height
    ensures forall i, j :: 0 <= i < 4 && 0 <= j < 4 && !(i == j && i < 2) ==> At(r, i, j) == Delta(i, j)
  {
    var widthModifier := (viewport.distanceToCamera * size.width) / viewport.width;
    var heightModifier := (viewport.distanceToCamera * size.height) / viewport.height;
    var m := Set(Identity(), [0, 0], widthModifier).value;
    Set(m, [1, 1], heightModifier).value
  }

  /**
    A row vector times a matrix: the product `projectVertex` applies before its
    division by z. The row-vector convention is the one the camera matrix is
    laid out for (translation in the bottom row).
   */
  function RowTimes(v: seq<real>, m: Matrix4): (r: seq<real>)
    requires |v| == 4
    ensures |r| == 4
    ensures forall j :: 0 <= j < 4 ==>
      r[j] == v[0] * At(m, 0, j) + v[1] * At(m, 1, j) + v[2] * At(m, 2, j) + v[3] * At(m, 3, j)
  {
    seq(4, j requires 0 <= j < 4 =>
      v[0] * At(m, 0, j) + v[1] * At(m, 1, j) + v[2] * At(m, 2, j) + v[3] * At(m, 3, j))
  }

  /** A row vector times a matrix that is zero off the diagonal scales each component by its diagonal entry. */
  lemma RowTimesDiagonal(v: seq<real>, m: Matrix4)
    requires |v| == 4
    requires forall i, j :: 0 <= i < 4 && 0 <= j < 4 && i != j ==> At(m, i, j) == 0.0
    ensures RowTimes(v, m) == [v[0] * At(m, 0, 0), v[1] * At(m, 1, 1), v[2] * At(m, 2, 2), v[3] * At(m, 3, 3)]
  {
    var r := RowTimes(v, m);
    assert At(m, 1, 0) == 0.0 && At(m, 2, 0) == 0.0 && At(m, 3, 0) == 0.0;
    assert At(m, 0, 1) == 0.0 && At(m, 2, 1) == 0.0 && At(m, 3, 1) == 0.0;
    assert At(m, 0, 2) == 0.0 && At(m, 1, 2) == 0.0 && At(m, 3, 2) == 0.0;
    assert At(m, 0, 3) == 0.0 && At(m, 1, 3) == 0.0 && At(m, 2, 3) == 0.0;
    assert r[0] == v[0] * At(m, 0, 0);
    assert r[1] == v[1] * At(m, 1, 1);
    assert r[2] == v[2] * At(m, 2, 2);
    assert r[3] == v[3] * At(m, 3, 3);
  }

  /**
    The projection undoes `Viewport.fromCanvas`: the viewport point of pixel
    (x, y), as a homogeneous row vector, projects to (x·d, y·d, d, 1), which
    is pixel (x, y) again after the division by z.
   */
  lemma ProjectionInvertsFromCanvas(viewport: Viewports.Viewport, canvas: Viewports.Canvas, x: real, y: real)
    ensures var p := Viewports.FromCanvas(viewport, Number(x), Number(y), Instance(canvas)).value;
      var q := RowTimes(p + [1.0], ProjectionMatrix(viewport, CanvasSize(canvas.width, canvas.height)));
      && q == [x * viewport.distanceToCamera, y * viewport.distanceToCamera, viewport.distanceToCamera, 1.0]
      && q[0] / q[2] == x && q[1] / q[2] == y
  {
    ProjectedViewportPoint(viewport, canvas, x, y);
    DivideCancels(x, viewport.distanceToCamera);
    DivideCancels(y, viewport.distanceToCamera);
  }

  lemma ProjectedViewportPoint(viewport: Viewports.Viewport, canvas: Viewports.Canvas, x: real, y: real)
    ensures var p := Viewports.FromCanvas(viewport, Number(x), Number(y), Instance(canvas)).value;
      RowTimes(p + [1.0], ProjectionMatrix(viewport, CanvasSize(canvas.width, canvas.height))) ==
        [x * viewport.distanceToCamera, y * viewport.distanceToCamera, viewport.distanceToCamera, 1.0]
  {
    var p := Viewports.FromCanvas(viewport, Number(x), Number(y), Instance(canvas)).value;
    var m := ProjectionMatrix(viewport, CanvasSize(canvas.width, canvas.height));
    var v := p + [1.0];
    assert v[0] == x * viewport.width / canvas.width;
    assert v[1] == y * viewport.height / canvas.height;
    assert v[2] == viewport.distanceToCamera && v[3] == 1.0;
    ScaledDiagonal(v, m, x, y, viewport, canvas);
  }

  /** The arithmetic of the round trip: the two scale factors cancel. */
  lemma ScaledDiagonal(v: seq<real>, m: Matrix4, x: real, y: real, viewport: Viewports.Viewport, canvas: Viewports.Canvas)
    requires |v| == 4
    requires v[0] == x * viewport.width / canvas.width && v[1] == y * viewport.height / canvas.height
    requires v[2] == viewport.distanceToCamera && v[3] == 1.0
    requires At(m, 0, 0) == viewport.distanceToCamera * canvas.width / viewport.width
    requires At(m, 1, 1) == viewport.distanceToCamera * canvas.height / viewport.height
    requires At(m, 2, 2) == 1.0 && At(m, 3, 3) == 1.0
    requires forall i, j :: 0 <= i < 4 && 0 <= j < 4 && i != j ==> At(m, i, j) == 0.0
    ensures RowTimes(v, m) == [x * viewport.distanceToCamera, y * viewport.distanceToCamera, viewport.distanceToCamera, 1.0]
  {
    RowTimesDiagonal(v, m);
    assert v[0] * At(m, 0, 0) == x * viewport.distanceToCamera by {
      ScaleCancels(x, viewport.width, canvas.width, viewport.distanceToCamera);
    }
    assert v[1] * At(m, 1, 1) == y * viewport.distanceToCamera by {
      ScaleCancels(y, viewport.height, canvas.height, viewport.distanceToCamera);
    }
    assert v[2] * At(m, 2, 2) == viewport.distanceToCamera && v[3] * At(m, 3, 3) == 1.0;
  }

  lemma DivideCancels(x: real, d: real)
    requires d != 0.0
    ensures (x * d) / d == x
  {
  }

  /** (x·w/c)·(d·c/w) = x·d for non-zero w and c. */
  lemma ScaleCancels(x: real, w: real, c: real, d: real)
    requires w != 0.0 && c != 0.0
    ensures (x * w / c) * (d * c / w) == x * d
  {
    calc {
      (x * w / c) * (d * c / w);
      (x * d) * ((w / c) * (c / w));
      { assert (w / c) * (c / w) == 1.0; }
      x * d;
    }
  }
}

/**
  The matrix builders of src/render/Canvas2DRenderer.js, written out again as
  the source does; they agree with those of `Renderer`.
 */
module Canvas2DRenderer {
  import opened Mat4
  import Objects
  import Viewports
  import Renderer

  /** `calculateCameraMatrix(camera)`: Rᵀ in the top left, the position in the bottom row. */
  function CameraMatrix(camera: Objects.Camera): (r: Matrix4)
    ensures forall i, j :: 0 <= i < 4 && 0 <= j < 4 ==> At(r, i, j) == Renderer.CameraEntry(camera, i, j)
  {
    var m := Multiply(Transpose(FromMatrix3(camera.rotation)), Transpose(FromVector3(camera.position)));
    assert forall i, j :: 0 <= i < 4 && 0 <= j < 4 ==> At(m, i, j) == Renderer.CameraEntry(camera, i, j) by {
      forall i, j | 0 <= i < 4 && 0 <= j < 4
        ensures At(m, i, j) == Renderer.CameraEntry(camera, i, j)
      {
        Renderer.CameraMatrixEntry(camera, i, j);
      }
    }
    m
  }

  /** `calculateProjectionMatrix(viewport, canvasSize)`: the identity with two scale factors on the diagonal. */
  function ProjectionMatrix(viewport: Viewports.Viewport, size: Renderer.CanvasSize): (r: Matrix4)
    ensures At(r, 0, 0) == viewport.distanceToCamera * size.width / viewport.width
    ensures At(r, 1, 1) == viewport.distanceToCamera * size.height / viewport.height
    ensures forall i, j :: 0 <= i < 4 && 0 <= j < 4 && !(i == j && i < 2) ==> At(r, i, j) == Delta(i, j)
  {
    var widthModifier := (viewport.distanceToCamera * size.width) / viewport.width;
    var heightModifier := (viewport.distanceToCamera * size.height) / viewport.height;
    var m := Set(Identity(), [0, 0], widthModifier).value;
    Set(m, [1, 1], heightModifier).value
  }

  /** Both camera builders give the same matrix for every camera. */
  lemma CameraMatricesAgree(camera: Objects.Camera)
    ensures CameraMatrix(camera) == Renderer.CameraMatrix(camera)
  {
    forall i, j | 0 <= i < 4 && 0 <= j < 4
      ensures At(CameraMatrix(camera), i, j) == At(Renderer.CameraMatrix(camera), i, j)
    {
      Renderer.CameraMatrixEntry(camera, i, j);
    }
    Extensionality(CameraMatrix(camera), Renderer.CameraMatrix(camera));
  }

  /** Both projection builders give the same matrix for every viewport and canvas size. */
  lemma ProjectionMatricesAgree(viewport: Viewports.Viewport, size: Renderer.CanvasSize)
    ensures ProjectionMatrix(viewport, size) == Renderer.ProjectionMatrix(viewport, size)
  {
    var a := ProjectionMatrix(viewport, size);
    var b := Renderer.ProjectionMatrix(viewport, size);
    forall i, j | 0 <= i < 4 && 0 <= j < 4
      ensures At(a, i, j) == At(b, i, j)
    {
    }
    Extensionality(a, b);
  }
}
