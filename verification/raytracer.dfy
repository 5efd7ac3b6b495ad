/**
  The ray tracer (src/RayTracer.js): its constructor's validation and the
  closest-hit selection of `trace`.

  `#intersectSphere` is a stub that returns no roots. The roots of a ray with
  a sphere are therefore the parameter `roots` here; `StubRoots` is the
  source's own stub.
 */
module RayTracing {
  import opened Js
  import opened Vectors
  import Objects

  datatype RayTracer = RayTracer(camera: Objects.Camera, scene: Objects.Scene, rayMin: real, rayMax: real)

  /** The constructor's promise: a positive near bound below the far bound. */
  predicate Valid(rt: RayTracer) {
    0.0 < rt.rayMin < rt.rayMax
  }

  /**
    `new RayTracer(camera, scene, rayMin, rayMax)`: each parameter is checked
    in turn, so the first rejected one decides the exception.
   */
  function New(camera: Typed<Objects.Camera>, scene: Typed<Objects.Scene>, rayMin: Scalar, rayMax: Scalar): (r: Result<RayTracer>)
    ensures r.Ok? <==>
      && camera.Instance? && scene.Instance?
      && rayMin.Number? && rayMin.n > 0.0
      && rayMax.Number? && rayMax.n > rayMin.n
    ensures r.Ok? ==> Valid(r.value) && r.value == RayTracer(camera.value, scene.value, rayMin.n, rayMax.n)
    ensures camera.NotInstance? ==> r == Throw(TypeError("Parameter 'camera' is not Camera"))
    ensures camera.Instance? && scene.NotInstance? ==> r == Throw(TypeError("Parameter 'scene' is not Scene"))
    ensures camera.Instance? && scene.Instance? && !rayMin.Number? ==>
      r == Throw(TypeError("Parameter 'rayMin' is not number"))
    ensures camera.Instance? && scene.Instance? && rayMin.Number? && rayMin.n <= 0.0 ==>
      r == Throw(RangeError("Parameter 'rayMin' is not positive"))
    ensures camera.Instance? && scene.Instance? && rayMin.Number? && rayMin.n > 0.0 && !rayMax.Number? ==>
      r == Throw(TypeError("Parameter 'rayMax' is not number"))
    ensures camera.Instance? && scene.Instance? && rayMin.Number? && rayMin.n > 0.0 && rayMax.Number? && rayMax.n <= rayMin.n ==>
      r == Throw(RangeError("Parameter 'rayMax' is not larger than 'rayMin'"))
  {
    if camera.NotInstance? then Throw(TypeError("Parameter 'camera' is not Camera"))
    else if scene.NotInstance? then Throw(TypeError("Parameter 'scene' is not Scene"))
    else if !rayMin.Number? then Throw(TypeError("Parameter 'rayMin' is not number"))
    else if rayMin.n <= 0.0 then Throw(RangeError("Parameter 'rayMin' is not positive"))
    else if !rayMax.Number? then Throw(TypeError("Parameter 'rayMax' is not number"))
    else if rayMax.n <= rayMin.n then Throw(RangeError("Parameter 'rayMax' is not larger than 'rayMin'"))
    else Ok(RayTracer(camera.value, scene.value, rayMin.n, rayMax.n))
  }

  // ---------------------------------------------------------------- what counts as the closest hit

  /** The roots of the ray through a viewport point with a sphere. */
  type Roots = (Vector3, Objects.Sphere) -> seq<real>

  /** `#intersectSphere` as the source has it: no roots at all. */
  function StubRoots(point: Vector3, sphere: Objects.Sphere): seq<real> {
    []
  }

  /** The roots `trace` looks at: the first two, which is all the destructuring `[t1, t2]` reads. */
  function FirstTwo(rs: seq<real>): (r: seq<real>)
    ensures |r| <= 2 && |r| <= |rs| && r == rs[..|r|]
    ensures |r| == if |rs| < 2 then |rs| else 2
  {
    if |rs| <= 2 then rs else rs[..2]
  }

  function Objs(rt: RayTracer): seq<Objects.Entity> {
    rt.scene.objects
  }

  function RootsOf(rt: RayTracer, point: Vector3, roots: Roots, k: int): seq<real>
    requires 0 <= k < |Objs(rt)| && Objs(rt)[k].SphereEntity?
  {
    FirstTwo(roots(point, Objs(rt)[k].sphere))
  }

  /** Root `t` of object `k` is a hit the ray tracer may pick: a sphere's root in [rayMin, rayMax). */
  predicate Candidate(rt: RayTracer, point: Vector3, roots: Roots, k: int, t: real) {
    && 0 <= k < |Objs(rt)|
    && Objs(rt)[k].SphereEntity?
    && t in RootsOf(rt, point, roots, k)
    && rt.rayMin <= t < rt.rayMax
  }

  /** Root `t` of object `k` is the nearest hit, and no earlier object has a hit as near. */
  ghost predicate Closest(rt: RayTracer, point: Vector3, roots: Roots, k: int, t: real) {
    && Candidate(rt, point, roots, k, t)
    && forall k', t' :: Candidate(rt, point, roots, k', t') ==> t <= t' && (t' == t ==> k <= k')
  }

  predicate AllSpheres(rt: RayTracer) {
    forall k :: 0 <= k < |Objs(rt)| ==> Objs(rt)[k].SphereEntity?
  }

  /** Object `k` is the first object of the scene that is not a sphere. */
  predicate FirstNonSphere(rt: RayTracer, k: int) {
    && 0 <= k < |Objs(rt)|
    && !Objs(rt)[k].SphereEntity?
    && forall j :: 0 <= j < k ==> Objs(rt)[j].SphereEntity?
  }

  // ---------------------------------------------------------------- the selection loop

  /** The loop's state: the nearest root so far (`rayMax` at the start) and its object. */
  datatype Best = Best(t: real, hit: Option<nat>)

  /** `isClosest(t)` against the current best, as the source writes it. */
  predicate IsClosest(rt: RayTracer, t: real, best: real) {
    t >= rt.rayMin && t <= rt.rayMax && t < best
  }

  /** Offering one root of object `k`. */
  function Offer(rt: RayTracer, b: Best, k: nat, t: real): (r: Best)
    ensures r == b || (r == Best(t, Some(k)) && rt.rayMin <= t && t < b.t && t <= rt.rayMax)
    ensures rt.rayMin <= t <= rt.rayMax ==> r.t <= t
    ensures r.t <= b.t
  {
    if IsClosest(rt, t, b.t) then Best(t, Some(k)) else b
  }

  /** Offering the (at most two) roots of object `k`, first to last. */
  function Visit(rt: RayTracer, b: Best, k: nat, ts: seq<real>): (r: Best)
    requires |ts| <= 2
    ensures r == b || (r.hit == Some(k) && r.t in ts && rt.rayMin <= r.t && r.t < b.t)
    ensures forall t :: t in ts && rt.rayMin <= t <= rt.rayMax ==> r.t <= t
  {
    var b1 := if |ts| >= 1 then Offer(rt, b, k, ts[0]) else b;
    if |ts| == 2 then Offer(rt, b1, k, ts[1]) else b1
  }

  /** Where the loop stands: stopped at the non-sphere object `at`, or still going with `best`. */
  datatype Outcome = Aborted(at: nat) | Finished(best: Best)

  /** The state after the loop has been through the first `n` objects; the first non-sphere ends it. */
  function Scan(rt: RayTracer, point: Vector3, roots: Roots, n: nat): Outcome
    requires n <= |Objs(rt)|
  {
    if n == 0 then Finished(Best(rt.rayMax, None))
    else
      match Scan(rt, point, roots, n - 1)
      case Aborted(k) => Aborted(k)
      case Finished(b) =>
        if Objs(rt)[n - 1].SphereEntity? then Finished(Visit(rt, b, n - 1, RootsOf(rt, point, roots, n - 1)))
        else Aborted(n - 1)
  }

  /** `b` is what the loop should hold after the first `n` objects. */
  ghost predicate Summarises(rt: RayTracer, point: Vector3, roots: Roots, n: nat, b: Best) {
    && b.t <= rt.rayMax
    && (forall k, t :: Candidate(rt, point, roots, k, t) && k < n ==> b.t <= t)
    && (b.hit.None? ==> b.t == rt.rayMax)
    && (b.hit.Some? ==>
          && b.hit.value < n
          && Candidate(rt, point, roots, b.hit.value, b.t)
          && forall k, t :: Candidate(rt, point, roots, k, t) && k < n && t == b.t ==> b.hit.value <= k)
  }

  /** One more sphere keeps the summary. */
  lemma VisitKeepsSummary(rt: RayTracer, point: Vector3, roots: Roots, n: nat, b: Best)
    requires n < |Objs(rt)| && Objs(rt)[n].SphereEntity?
    requires Summarises(rt, point, roots, n, b)
    ensures Summarises(rt, point, roots, n + 1, Visit(rt, b, n, RootsOf(rt, point, roots, n)))
  {
    var ts := RootsOf(rt, point, roots, n);
    var b' := Visit(rt, b, n, ts);
    if b' != b {
      assert Candidate(rt, point, roots, n, b'.t);
    }
    forall k, t | Candidate(rt, point, roots, k, t) && k < n + 1
      ensures b'.t <= t
    {
      if k == n {
        assert t in ts;
      }
    }
  }

  /**
    The loop aborts exactly when some object is not a sphere, and then at the
    first one; otherwise it ends with the summary.
   */
  lemma {:induction false} ScanSummarises(rt: RayTracer, point: Vector3, roots: Roots, n: nat)
    requires n <= |Objs(rt)|
    ensures Scan(rt, point, roots, n).Aborted? <==> exists k :: 0 <= k < n && !Objs(rt)[k].SphereEntity?
    ensures Scan(rt, point, roots, n).Aborted? ==>
      Scan(rt, point, roots, n).at < n && FirstNonSphere(rt, Scan(rt, point, roots, n).at)
    ensures Scan(rt, point, roots, n).Finished? ==> Summarises(rt, point, roots, n, Scan(rt, point, roots, n).best)
  {
    if n > 0 {
      ScanSummarises(rt, point, roots, n - 1);
      match Scan(rt, point, roots, n - 1)
      case Aborted(_) =>
      case Finished(b) =>
        if Objs(rt)[n - 1].SphereEntity? {
          VisitKeepsSummary(rt, point, roots, n - 1, b);
        }
    }
  }

  /** What calling `toJSON` on a value without one throws. */
  const NoToJson := TypeError("object.toJSON is not a function")

  /** What reading `toJSON` from `null` or `undefined` throws; the wording varies between engines. */
  const NullishToJson := TypeError("Cannot read properties of null (reading 'toJSON')")

  /** The outcome of the warning logged for a non-sphere `e`: it evaluates `e.toJSON()` before returning `null`. */
  function WarnAndStop(e: Objects.Entity): Result<Option<Objects.Color>> {
    if Objects.HasToJson(e) then Ok(None)
    else if e.Nullish? then Throw(NullishToJson)
    else Throw(NoToJson)
  }

  /**
    `trace(viewportPoint)`: the colour of the sphere with the nearest root in
    [rayMin, rayMax), ties going to the earliest object; `null` (`None`) when
    nothing qualifies. The first object that is not a sphere ends the search:
    the warning it logs calls the object's `toJSON`, so the result is `null`
    when it has one and a `TypeError` when it has none or is `null`/`undefined`.
   */
  function Trace(rt: RayTracer, point: Typed<Vector3>, roots: Roots): (r: Result<Option<Objects.Color>>)
    ensures point.NotInstance? ==> r == Throw(TypeError("Parameter 'viewportPoint' is not Vector3"))
    ensures point.Instance? && !AllSpheres(rt) ==>
      exists k ::
        && FirstNonSphere(rt, k)
        && (Objects.HasToJson(Objs(rt)[k]) ==> r == Ok(None))
        && (Objs(rt)[k].NotObject3D? && !Objs(rt)[k].hasToJson ==> r == Throw(NoToJson))
        && (Objs(rt)[k].Nullish? ==> r.Throw? && r.exception.TypeError?)
    ensures point.Instance? && AllSpheres(rt) ==>
      r.Ok? && (r.value.Some? <==> exists k, t :: Candidate(rt, point.value, roots, k, t))
    ensures r.Ok? && r.value.Some? ==>
      exists k, t :: Closest(rt, point.value, roots, k, t) && r.value.value == Objs(rt)[k].sphere.color
  {
    if point.NotInstance? then Throw(TypeError("Parameter 'viewportPoint' is not Vector3"))
    else
      var n := |Objs(rt)|;
      ScanSummarises(rt, point.value, roots, n);
      match Scan(rt, point.value, roots, n)
      case Aborted(k) =>
        assert FirstNonSphere(rt, k);
        WarnAndStop(Objs(rt)[k])
      case Finished(b) =>
        match b.hit
        case None => Ok(None)
        case Some(k) =>
          assert Closest(rt, point.value, roots, k, b.t);
          Ok(Some(Objs(rt)[k].sphere.color))
  }

  /** With the source's stub for the roots, `trace` never answers a colour, and answers `null` for a scene of spheres. */
  lemma StubTraceFindsNothing(rt: RayTracer, point: Vector3)
    ensures AllSpheres(rt) ==> Trace(rt, Instance(point), StubRoots) == Ok(None)
    ensures !(Trace(rt, Instance(point), StubRoots).Ok? && Trace(rt, Instance(point), StubRoots).value.Some?)
  {
    forall k, t
      ensures !Candidate(rt, point, StubRoots, k, t)
    {
      if 0 <= k < |Objs(rt)| && Objs(rt)[k].SphereEntity? {
        assert RootsOf(rt, point, StubRoots, k) == [];
      }
    }
  }
}
