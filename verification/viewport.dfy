/**
  The viewport (src/Viewport.js): a width and height in world units and a
  distance to the camera, all strictly positive, and the mapping from canvas
  pixels to points on the viewport.
 */
module Viewports {
  import opened Js
  import opened Vectors
  import Objects

  datatype Viewport = Viewport(width: Objects.Positive, height: Objects.Positive, distanceToCamera: Objects.Positive)

  /** The pixel size of a canvas; the canvas's own validators keep both positive. */
  datatype Canvas = Canvas(width: Objects.Positive, height: Objects.Positive)

  /** The `options` argument: not an object, `null`, or an object with the two fields. */
  datatype Options = NotObject | NullObject | Options(width: Scalar, height: Scalar)

  /** `#validateDimension(units)`: `None` when the value is accepted. */
  function ValidateDimension(units: Scalar): (r: Option<Exception>)
    ensures r.None? <==> units.Number? && units.n > 0.0
    ensures !units.Number? ==> r == Some(TypeError("Parameter 'units' is not number"))
    ensures units.Number? && units.n <= 0.0 ==> r == Some(RangeError("Parameter 'units' is negative or zero"))
  {
    if !units.Number? then Some(TypeError("Parameter 'units' is not number"))
    else if units.n <= 0.0 then Some(RangeError("Parameter 'units' is negative or zero"))
    else None
  }

  /** The `distanceToCamera` setter's own check. */
  function ValidateDistance(units: Scalar): (r: Option<Exception>)
    ensures r.None? <==> units.Number? && units.n > 0.0
    ensures !units.Number? ==> r == Some(TypeError("Parameter 'distanceToCamera' is not number"))
    ensures units.Number? && units.n <= 0.0 ==> r == Some(RangeError("Parameter 'distanceToCamera' is not positive"))
  {
    if !units.Number? then Some(TypeError("Parameter 'distanceToCamera' is not number"))
    else if units.n <= 0.0 then Some(RangeError("Parameter 'distanceToCamera' is not positive"))
    else None
  }

  /** The `width` setter: validation comes before the store. */
  function SetWidth(vp: Viewport, units: Scalar): (r: Result<Viewport>)
    ensures r.Ok? <==> units.Number? && units.n > 0.0
    ensures r.Throw? ==> Some(r.exception) == ValidateDimension(units)
    ensures r.Ok? ==> r.value.width == units.n && r.value.(width := vp.width) == vp
  {
    match ValidateDimension(units)
    case Some(e) => Throw(e)
    case None => Ok(vp.(width := units.n))
  }

  /** The `height` setter: validation comes before the store. */
  function SetHeight(vp: Viewport, units: Scalar): (r: Result<Viewport>)
    ensures r.Ok? <==> units.Number? && units.n > 0.0
    ensures r.Throw? ==> Some(r.exception) == ValidateDimension(units)
    ensures r.Ok? ==> r.value.height == units.n && r.value.(height := vp.height) == vp
  {
    match ValidateDimension(units)
    case Some(e) => Throw(e)
    case None => Ok(vp.(height := units.n))
  }

  /** The `distanceToCamera` setter: validation comes before the store. */
  function SetDistanceToCamera(vp: Viewport, units: Scalar): (r: Result<Viewport>)
    ensures r.Ok? <==> units.Number? && units.n > 0.0
    ensures r.Throw? ==> Some(r.exception) == ValidateDistance(units)
    ensures r.Ok? ==> r.value.distanceToCamera == units.n && r.value.(distanceToCamera := vp.distanceToCamera) == vp
  {
    match ValidateDistance(units)
    case Some(e) => Throw(e)
    case None => Ok(vp.(distanceToCamera := units.n))
  }

  /**
    `new Viewport(options, distanceToCamera)`: the options must be an object;
    then width, height and distance are set in that order, so the first
    rejected one decides the exception.
   */
  function New(options: Options, distanceToCamera: Scalar): (r: Result<Viewport>)
    ensures r.Ok? <==>
      && options.Options?
      && options.width.Number? && options.width.n > 0.0
      && options.height.Number? && options.height.n > 0.0
      && distanceToCamera.Number? && distanceToCamera.n > 0.0
    ensures options.NotObject? ==> r == Throw(TypeError("Parameter 'options' is not object"))
    ensures options.NullObject? ==> r.Throw? && r.exception.TypeError?
    ensures options.Options? && ValidateDimension(options.width).Some? ==>
      r == Throw(ValidateDimension(options.width).value)
    ensures options.Options? && ValidateDimension(options.width).None? && ValidateDimension(options.height).Some? ==>
      r == Throw(ValidateDimension(options.height).value)
    ensures
      (&& options.Options?
       && ValidateDimension(options.width).None?
       && ValidateDimension(options.height).None?
       && ValidateDistance(distanceToCamera).Some?) ==>
      r == Throw(ValidateDistance(distanceToCamera).value)
    ensures r.Ok? ==>
      && r.value.width == options.width.n
      && r.value.height == options.height.n
      && r.value.distanceToCamera == distanceToCamera.n
  {
    match options
    case NotObject => Throw(TypeError("Parameter 'options' is not object"))
    case NullObject => Throw(TypeError("Cannot read properties of null (reading 'width')"))
    case Options(width, height) =>
      match (ValidateDimension(width), ValidateDimension(height), ValidateDistance(distanceToCamera))
      case (Some(e), _, _) => Throw(e)
      case (None, Some(e), _) => Throw(e)
      case (None, None, Some(e)) => Throw(e)
      case (None, None, None) => Ok(Viewport(width.n, height.n, distanceToCamera.n))
  }

  /**
    `fromCanvas(x, y, canvas)`: pixel (x, y) becomes the viewport point
    (x·width/canvasWidth, y·height/canvasHeight, distanceToCamera).
   */
  function FromCanvas(vp: Viewport, x: Scalar, y: Scalar, canvas: Typed<Canvas>): (r: Result<Vector3>)
    ensures r.Ok? <==> x.Number? && y.Number? && canvas.Instance?
    ensures !x.Number? ==> r == Throw(TypeError("Parameter 'x' is not number"))
    ensures x.Number? && !y.Number? ==> r == Throw(TypeError("Parameter 'y' is not number"))
    ensures x.Number? && y.Number? && canvas.NotInstance? ==> r == Throw(TypeError("Parameter 'canvas' is not Canvas"))
    ensures r.Ok? ==> r.value[2] == vp.distanceToCamera
    ensures r.Ok? ==> r.value[0] * canvas.value.width == x.n * vp.width
    ensures r.Ok? ==> r.value[1] * canvas.value.height == y.n * vp.height
  {
    if !x.Number? then Throw(TypeError("Parameter 'x' is not number"))
    else if !y.Number? then Throw(TypeError("Parameter 'y' is not number"))
    else if canvas.NotInstance? then Throw(TypeError("Parameter 'canvas' is not Canvas"))
    else Ok([x.n * vp.width / canvas.value.width, y.n * vp.height / canvas.value.height, vp.distanceToCamera as real])
  }

  /** The canvas origin maps to the centre of the viewport plane, at the camera distance. */
  lemma FromCanvasOrigin(vp: Viewport, canvas: Canvas)
    ensures var expected: Vector3 := [0.0, 0.0, vp.distanceToCamera as real];
      FromCanvas(vp, Number(0.0), Number(0.0), Instance(canvas)) == Ok(expected)
  {
    var p := FromCanvas(vp, Number(0.0), Number(0.0), Instance(canvas)).value;
    assert p[0] * canvas.width == 0.0;
    assert p[1] * canvas.height == 0.0;
  }
}
