/**
  The scene's objects (src/object/): spheres and lights with validated fields,
  the camera, and the scene that collects them.

  Every setter validates before it stores, so a `Throw` result leaves the
  receiver as it was; an `Ok` result is the receiver after the assignment.
 */
module Objects {
  import opened Js
  import opened Vectors
  import Mat3

  /** A colour; src/math/Color.js is not part of this model, so it is only an opaque value here. */
  datatype Color = Color(red: real, green: real, blue: real)

  /** Strictly positive reals, the values every dimension validator accepts. */
  type Positive = r: real | r > 0.0 witness 1.0
  type NonNegative = r: real | r >= 0.0
  type UnitInterval = r: real | 0.0 <= r <= 1.0

  // ---------------------------------------------------------------- Sphere

  datatype Sphere = Sphere(
    position: Vector3,
    radius: Positive,
    color: Color,
    specular: NonNegative,
    reflective: UnitInterval)

  /** The `radius` setter's check. */
  function CheckRadius(radius: Scalar): (r: Option<Exception>)
    ensures r.None? <==> radius.Number? && radius.n > 0.0
    ensures !radius.Number? ==> r == Some(TypeError("Parameter 'radius' is not number"))
    ensures radius.Number? && radius.n <= 0.0 ==> r == Some(RangeError("Parameter 'radius' is not positive"))
  {
    if !radius.Number? then Some(TypeError("Parameter 'radius' is not number"))
    else if radius.n <= 0.0 then Some(RangeError("Parameter 'radius' is not positive"))
    else None
  }

  /** The `color` setter's check. */
  function CheckColor(color: Typed<Color>): (r: Option<Exception>)
    ensures r.None? <==> color.Instance?
    ensures r.Some? ==> r == Some(TypeError("Parameter 'color' is not Color"))
  {
    if color.NotInstance? then Some(TypeError("Parameter 'color' is not Color")) else None
  }

  /** The `specular` setter's check: zero is accepted. */
  function CheckSpecular(specular: Scalar): (r: Option<Exception>)
    ensures r.None? <==> specular.Number? && specular.n >= 0.0
    ensures !specular.Number? ==> r == Some(TypeError("Parameter 'specular' is not number"))
    ensures specular.Number? && specular.n < 0.0 ==> r == Some(RangeError("Parameter 'specular' is negative"))
  {
    if !specular.Number? then Some(TypeError("Parameter 'specular' is not number"))
    else if specular.n < 0.0 then Some(RangeError("Parameter 'specular' is negative"))
    else None
  }

  /**
    The `reflective` setter's check: both ends of [0, 1] are accepted. The
    range error's message names 'specular', as the source's does.
   */
  function CheckReflective(reflective: Scalar): (r: Option<Exception>)
    ensures r.None? <==> reflective.Number? && 0.0 <= reflective.n <= 1.0
    ensures !reflective.Number? ==> r == Some(TypeError("Parameter 'reflective' is not number"))
    ensures reflective.Number? && !(0.0 <= reflective.n <= 1.0) ==>
      r == Some(RangeError("Parameter 'specular' is not between 0 and 1"))
  {
    if !reflective.Number? then Some(TypeError("Parameter 'reflective' is not number"))
    else if reflective.n < 0.0 || reflective.n > 1.0 then Some(RangeError("Parameter 'specular' is not between 0 and 1"))
    else None
  }

  function SetRadius(s: Sphere, radius: Scalar): (r: Result<Sphere>)
    ensures r.Ok? <==> radius.Number? && radius.n > 0.0
    ensures r.Throw? ==> Some(r.exception) == CheckRadius(radius)
    ensures r.Ok? ==> r.value.radius == radius.n && r.value.(radius := s.radius) == s
  {
    match CheckRadius(radius)
    case Some(e) => Throw(e)
    case None => Ok(s.(radius := radius.n))
  }

  function SetColor(s: Sphere, color: Typed<Color>): (r: Result<Sphere>)
    ensures r.Ok? <==> color.Instance?
    ensures r.Throw? ==> r.exception == TypeError("Parameter 'color' is not Color")
    ensures r.Ok? ==> r.value.color == color.value && r.value.(color := s.color) == s
  {
    match CheckColor(color)
    case Some(e) => Throw(e)
    case None => Ok(s.(color := color.value))
  }

  function SetSpecular(s: Sphere, specular: Scalar): (r: Result<Sphere>)
    ensures r.Ok? <==> specular.Number? && specular.n >= 0.0
    ensures r.Throw? ==> Some(r.exception) == CheckSpecular(specular)
    ensures r.Ok? ==> r.value.specular == specular.n && r.value.(specular := s.specular) == s
  {
    match CheckSpecular(specular)
    case Some(e) => Throw(e)
    case None => Ok(s.(specular := specular.n))
  }

  function SetReflective(s: Sphere, reflective: Scalar): (r: Result<Sphere>)
    ensures r.Ok? <==> reflective.Number? && 0.0 <= reflective.n <= 1.0
    ensures r.Throw? ==> Some(r.exception) == CheckReflective(reflective)
    ensures r.Ok? ==> r.value.reflective == reflective.n && r.value.(reflective := s.reflective) == s
  {
    match CheckReflective(reflective)
    case Some(e) => Throw(e)
    case None => Ok(s.(reflective := reflective.n))
  }

  /** A defaulted parameter: `undefined` becomes the default, anything else is kept. */
  function Default(x: Scalar, d: real): (r: Scalar)
    ensures x.Undefined? ==> r == Number(d)
    ensures !x.Undefined? ==> r == x
  {
    if x.Undefined? then Number(d) else x
  }

  /**
    `new Sphere(position, radius, color, specular = 0, reflective = 0)`: the
    four setters run in that order, so the first rejected field decides the
    exception.
   */
  function NewSphere(position: Vector3, radius: Scalar, color: Typed<Color>, specular: Scalar, reflective: Scalar): (r: Result<Sphere>)
    ensures r.Ok? <==>
      && CheckRadius(radius).None?
      && CheckColor(color).None?
      && CheckSpecular(Default(specular, 0.0)).None?
      && CheckReflective(Default(reflective, 0.0)).None?
    ensures CheckRadius(radius).Some? ==> r == Throw(CheckRadius(radius).value)
    ensures CheckRadius(radius).None? && CheckColor(color).Some? ==> r == Throw(CheckColor(color).value)
    ensures r.Ok? ==>
      && r.value.position == position
      && r.value.radius == radius.n
      && r.value.color == color.value
      && r.value.specular == (if specular.Undefined? then 0.0 else specular.n)
      && r.value.reflective == (if reflective.Undefined? then 0.0 else reflective.n)
  {
    var specular := Default(specular, 0.0);
    var reflective := Default(reflective, 0.0);
    match (CheckRadius(radius), CheckColor(color), CheckSpecular(specular), CheckReflective(reflective))
    case (Some(e), _, _, _) => Throw(e)
    case (None, Some(e), _, _) => Throw(e)
    case (None, None, Some(e), _) => Throw(e)
    case (None, None, None, Some(e)) => Throw(e)
    case (None, None, None, None) => Ok(Sphere(position, radius.n, color.value, specular.n, reflective.n))
  }

  /** The constructor accepts exactly what the four setters accept, applied one after the other. */
  lemma NewSphereIsSetters(base: Sphere, position: Vector3, radius: Scalar, color: Typed<Color>, specular: Scalar, reflective: Scalar)
    ensures var chained :=
        var s :- SetRadius(base.(position := position), radius);
        var s :- SetColor(s, color);
        var s :- SetSpecular(s, Default(specular, 0.0));
        SetReflective(s, Default(reflective, 0.0));
      NewSphere(position, radius, color, specular, reflective) == chained
  {
  }

  // ---------------------------------------------------------------- Light

  datatype Light = Light(position: Vector3, intensity: UnitInterval)

  /** The `intensity` setter's check: both ends of [0, 1] are accepted. */
  function CheckIntensity(intensity: Scalar): (r: Option<Exception>)
    ensures r.None? <==> intensity.Number? && 0.0 <= intensity.n <= 1.0
    ensures !intensity.Number? ==> r == Some(TypeError("Parameter 'intensity' is not number"))
    ensures intensity.Number? && !(0.0 <= intensity.n <= 1.0) ==>
      r == Some(RangeError("Parameter 'intensity' is not between 0 and 1"))
  {
    if !intensity.Number? then Some(TypeError("Parameter 'intensity' is not number"))
    else if intensity.n < 0.0 || intensity.n > 1.0 then Some(RangeError("Parameter 'intensity' is not between 0 and 1"))
    else None
  }

  function SetIntensity(l: Light, intensity: Scalar): (r: Result<Light>)
    ensures r.Ok? <==> intensity.Number? && 0.0 <= intensity.n <= 1.0
    ensures r.Throw? ==> Some(r.exception) == CheckIntensity(intensity)
    ensures r.Ok? ==> r.value == Light(l.position, intensity.n)
  {
    match CheckIntensity(intensity)
    case Some(e) => Throw(e)
    case None => Ok(l.(intensity := intensity.n))
  }

  /** `new Light(position, intensity)` runs the `intensity` setter. */
  function NewLight(position: Vector3, intensity: Scalar): (r: Result<Light>)
    ensures r.Ok? <==> CheckIntensity(intensity).None?
    ensures r.Throw? ==> Some(r.exception) == CheckIntensity(intensity)
    ensures r.Ok? ==> r.value.position == position && r.value.intensity == intensity.n
  {
    match CheckIntensity(intensity)
    case Some(e) => Throw(e)
    case None => Ok(Light(position, intensity.n))
  }

  /** Constructing is the same as setting the intensity of any light at that position. */
  lemma NewLightIsSetter(l: Light, position: Vector3, intensity: Scalar)
    ensures NewLight(position, intensity) == SetIntensity(l.(position := position), intensity)
  {
  }

  // ---------------------------------------------------------------- Camera and Scene

  datatype Camera = Camera(position: Vector3, rotation: Mat3.Matrix3)

  /** A value that may end up in a scene's `objects` list. */
  datatype Entity =
    | SphereEntity(sphere: Sphere)
    | LightEntity(light: Light)
    | CameraEntity(camera: Camera)
    /** Any other `Object3D`, a nested scene included. */
    | OtherObject3D
    /**
      A value that is neither an `Object3D` nor `null`/`undefined`, which only
      the array form of `add` lets in: whether it has a callable `toJSON` (a
      `Vector3` has one; a number has none).
     */
    | NotObject3D(hasToJson: bool)
    /** `null` or `undefined`, also let in by the array form of `add`; reading any property of it throws. */
    | Nullish

  predicate IsObject3D(e: Entity) {
    !e.NotObject3D? && !e.Nullish?
  }

  /** `e.toJSON()` can be called: every `Object3D` inherits one, other values may have their own. */
  predicate HasToJson(e: Entity) {
    match e
    case NotObject3D(hasToJson) => hasToJson
    case Nullish => false
    case _ => true
  }

  datatype Scene = Scene(position: Vector3, objects: seq<Entity>)

  /** `new Scene({ position })`: the position defaults to the zero vector, and the scene starts empty. */
  function NewScene(position: Option<Vector3>): (r: Scene)
    ensures r.objects == []
    ensures position.Some? ==> r.position == position.value
    ensures position.None? ==> r.position == [0.0, 0.0, 0.0]
  {
    Scene(position.GetOr([0.0, 0.0, 0.0]), [])
  }

  /** The argument of `add(args)`: an array, or a single value. */
  datatype AddArg = ArrayArg(items: seq<Entity>) | SingleArg(item: Entity)

  /**
    `add(args)`: every element of an array is pushed, in order and without a
    type check; a single `Object3D` is pushed; anything else is ignored. The
    receiver is returned, here as the updated scene.
   */
  method Add(s: Scene, args: AddArg) returns (r: Scene)
    ensures r.position == s.position
    ensures args.ArrayArg? ==> r.objects == s.objects + args.items
    ensures args.SingleArg? && IsObject3D(args.item) ==> r.objects == s.objects + [args.item]
    ensures args.SingleArg? && !IsObject3D(args.item) ==> r == s
  {
    var objects := s.objects;
    if args.ArrayArg? {
      var i := 0;
      while i < |args.items|
        invariant 0 <= i <= |args.items|
        invariant objects == s.objects + args.items[..i]
      {
        objects := objects + [args.items[i]];
        i := i + 1;
      }
      assert args.items[..i] == args.items;
    }
    if args.SingleArg? && IsObject3D(args.item) {
      objects := objects + [args.item];
    }
    r := s.(objects := objects);
  }
}
