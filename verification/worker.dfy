/**
  The ray-tracing worker (src/worker/TraceRayWorker.js): module-level state
  filled by an 'initialize' message, a readiness guard, and the loop that
  traces one ray per pixel of its chunk on a 'trace' message.

  The worker's state is a value here, and a message handler returns the next
  state. Decoding the JSON payloads (`Scene.fromJSON` and friends, which the
  classes do not define) is left out: an 'initialize' message carries the
  decoded values. Each traced ray is recorded as a `RayRequest` holding what
  the loop passes for that pixel.
 */
module TraceRayWorker {
  import opened Js
  import opened Vectors
  import Objects
  import Viewports
  import RayTracing

  /** A chunk's bounds along one axis: `[lo, hi]` as sent, covering lo ≤ v < hi. */
  datatype Bounds = Bounds(lo: int, hi: int)

  datatype Worker = Worker(
    scene: Option<Objects.Scene>,
    rayTracer: Option<RayTracing.RayTracer>,
    camera: Option<Objects.Camera>,
    viewport: Option<Viewports.Viewport>,
    intersectionMin: Option<real>,
    intersectionMax: Option<real>,
    recursionDepth: Option<real>,
    xBounds: Option<Bounds>,
    yBounds: Option<Bounds>)

  /** The state before any message: every variable `null`. */
  function Start(): (r: Worker)
    ensures !Initialized(r)
  {
    Worker(None, None, None, None, None, None, None, None, None)
  }

  /**
    The guard of `TraceRayBatch`: every variable truthy. Objects and arrays
    are truthy once set; a number is truthy unless it is 0.
   */
  predicate Initialized(w: Worker) {
    && w.rayTracer.Some? && w.camera.Some? && w.viewport.Some?
    && Truthy(w.intersectionMin) && Truthy(w.intersectionMax) && Truthy(w.recursionDepth)
    && w.xBounds.Some? && w.yBounds.Some?
  }

  /** What the loop hands over for one pixel. */
  datatype RayRequest = RayRequest(x: int, y: int, origin: Vector3, min: real, max: real, depth: real)

  function Request(w: Worker, x: int, y: int): RayRequest
    requires Initialized(w)
  {
    RayRequest(x, y, w.camera.value.position, w.intersectionMin.value, w.intersectionMax.value, w.recursionDepth.value)
  }

  function RaysFor(w: Worker, ps: seq<(int, int)>): (r: seq<RayRequest>)
    requires Initialized(w)
    ensures |r| == |ps|
    ensures forall i :: 0 <= i < |ps| ==> r[i] == Request(w, ps[i].0, ps[i].1)
  {
    seq(|ps|, i requires 0 <= i < |ps| => Request(w, ps[i].0, ps[i].1))
  }

  // ---------------------------------------------------------------- the pixel order

  /** The number of values lo ≤ v < hi; none when the bounds are empty or inverted. */
  function Width(b: Bounds): nat {
    if b.hi > b.lo then b.hi - b.lo else 0
  }

  /** Column `x` of the chunk: (x, y) for y ascending from `yb.lo`. */
  function Column(x: int, yb: Bounds): (r: seq<(int, int)>)
    ensures |r| == Width(yb)
    ensures forall i :: 0 <= i < |r| ==> r[i] == (x, yb.lo + i)
  {
    seq(Width(yb), i requires 0 <= i < Width(yb) => (x, yb.lo + i))
  }

  /** The pixels of the chunk in visiting order: columns for x ascending, each top to bottom. */
  function Pixels(xb: Bounds, yb: Bounds): seq<(int, int)>
    decreases Width(xb)
  {
    if xb.hi <= xb.lo then []
    else Pixels(Bounds(xb.lo, xb.hi - 1), yb) + Column(xb.hi - 1, yb)
  }

  /** Pixel `p` comes before pixel `q`: a smaller x, or the same x and a smaller y. */
  predicate Before(p: (int, int), q: (int, int)) {
    p.0 < q.0 || (p.0 == q.0 && p.1 < q.1)
  }

  lemma {:induction false} PixelsCount(xb: Bounds, yb: Bounds)
    ensures |Pixels(xb, yb)| == Width(xb) * Width(yb)
    decreases Width(xb)
  {
    if xb.hi > xb.lo {
      PixelsCount(Bounds(xb.lo, xb.hi - 1), yb);
      calc {
        |Pixels(xb, yb)|;
        (Width(xb) - 1) * Width(yb) + Width(yb);
        Width(xb) * Width(yb);
      }
    }
  }

  /** Exactly the pixels with xb.lo ≤ x < xb.hi and yb.lo ≤ y < yb.hi are visited. */
  lemma {:induction false} PixelsCover(xb: Bounds, yb: Bounds, p: (int, int))
    ensures p in Pixels(xb, yb) <==> xb.lo <= p.0 < xb.hi && yb.lo <= p.1 < yb.hi
    decreases Width(xb)
  {
    if xb.hi > xb.lo {
      PixelsCover(Bounds(xb.lo, xb.hi - 1), yb, p);
      var c := Column(xb.hi - 1, yb);
      if p.0 == xb.hi - 1 && yb.lo <= p.1 < yb.hi {
        assert c[p.1 - yb.lo] == p;
      }
    }
  }

  /** Every pixel is visited before every later one: the order is strictly increasing, so no pixel repeats. */
  lemma {:induction false} PixelsOrdered(xb: Bounds, yb: Bounds)
    ensures forall i, j :: 0 <= i < j < |Pixels(xb, yb)| ==> Before(Pixels(xb, yb)[i], Pixels(xb, yb)[j])
    decreases Width(xb)
  {
    if xb.hi > xb.lo {
      var front := Bounds(xb.lo, xb.hi - 1);
      PixelsOrdered(front, yb);
      var ps := Pixels(xb, yb);
      var a := Pixels(front, yb);
      forall i, j | 0 <= i < j < |ps|
        ensures Before(ps[i], ps[j])
      {
        if j >= |a| && i < |a| {
          PixelsCover(front, yb, a[i]);
        }
      }
    }
  }

  /** Each pixel of the chunk is traced exactly once. */
  lemma PixelsOnce(xb: Bounds, yb: Bounds, i: int, j: int)
    requires 0 <= i < |Pixels(xb, yb)| && 0 <= j < |Pixels(xb, yb)|
    requires Pixels(xb, yb)[i] == Pixels(xb, yb)[j]
    ensures i == j
  {
    PixelsOrdered(xb, yb);
  }

  // ---------------------------------------------------------------- the batch

  /**
    `TraceRayBatch()`: refuse to run before initialization, then trace one
    ray per pixel, x in the outer loop and y in the inner one.
   */
  method TraceRayBatch(w: Worker) returns (r: Result<seq<RayRequest>>)
    ensures r.Throw? <==> !Initialized(w)
    ensures r.Throw? ==> r.exception == Error("Worker not initialized")
    ensures r.Ok? ==> r.value == RaysFor(w, Pixels(w.xBounds.value, w.yBounds.value))
  {
    if !Initialized(w) {
      return Throw(Error("Worker not initialized"));
    }
    var xb, yb := w.xBounds.value, w.yBounds.value;
    var rays: seq<RayRequest> := [];
    ghost var visited: seq<(int, int)> := [];
    var x := xb.lo;
    while x < xb.hi
      invariant xb.lo <= x && (x <= xb.hi || x == xb.lo)
      invariant visited == Pixels(Bounds(xb.lo, x), yb)
      invariant rays == RaysFor(w, visited)
      decreases xb.hi - x
    {
      var y := yb.lo;
      while y < yb.hi
        invariant yb.lo <= y && (y <= yb.hi || y == yb.lo)
        invariant visited == Pixels(Bounds(xb.lo, x), yb) + Column(x, Bounds(yb.lo, y))
        invariant rays == RaysFor(w, visited)
        decreases yb.hi - y
      {
        rays := rays + [Request(w, x, y)];
        visited := visited + [(x, y)];
        y := y + 1;
      }
      assert Column(x, Bounds(yb.lo, y)) == Column(x, yb);
      x := x + 1;
    }
    assert Bounds(xb.lo, x) == xb || (xb.hi <= xb.lo && visited == [] == Pixels(xb, yb));
    return Ok(rays);
  }

  // ---------------------------------------------------------------- messages

  /** The decoded payload of an 'initialize' message. */
  datatype Init = Init(
    scene: Objects.Scene,
    rayTracer: RayTracing.RayTracer,
    camera: Objects.Camera,
    viewport: Viewports.Viewport,
    intersectionMin: Option<real>,
    intersectionMax: Option<real>,
    recursionDepth: Option<real>,
    xBounds: Option<Bounds>,
    yBounds: Option<Bounds>)

  /** A message's `type`: 'initialize', 'trace', or anything else. */
  datatype Message = Initialize(init: Init) | Trace | Other

  /** The state an 'initialize' message leaves: every variable taken from the payload. */
  function Install(init: Init): (r: Worker)
    ensures r.scene == Some(init.scene) && r.rayTracer == Some(init.rayTracer)
    ensures r.camera == Some(init.camera) && r.viewport == Some(init.viewport)
    ensures r.intersectionMin == init.intersectionMin && r.intersectionMax == init.intersectionMax
    ensures r.recursionDepth == init.recursionDepth
    ensures r.xBounds == init.xBounds && r.yBounds == init.yBounds
    ensures Initialized(r) <==>
      Truthy(init.intersectionMin) && Truthy(init.intersectionMax) && Truthy(init.recursionDepth)
      && init.xBounds.Some? && init.yBounds.Some?
  {
    Worker(Some(init.scene), Some(init.rayTracer), Some(init.camera), Some(init.viewport),
      init.intersectionMin, init.intersectionMax, init.recursionDepth, init.xBounds, init.yBounds)
  }

  /**
    `onmessage`: 'initialize' replaces the state, 'trace' runs the batch on
    the current state, and any other type does nothing. Returns the next state
    and the rays traced.
   */
  method OnMessage(w: Worker, msg: Message) returns (r: Result<(Worker, seq<RayRequest>)>)
    ensures msg.Other? ==> r == Ok((w, []))
    ensures msg.Initialize? ==> r == Ok((Install(msg.init), []))
    ensures msg.Trace? ==> (r.Throw? <==> !Initialized(w))
    ensures msg.Trace? && r.Throw? ==> r.exception == Error("Worker not initialized")
    ensures msg.Trace? && r.Ok? ==>
      r.value == (w, RaysFor(w, Pixels(w.xBounds.value, w.yBounds.value)))
  {
    match msg
    case Initialize(init) =>
      r := Ok((Install(init), []));
    case Trace =>
      var rays :- TraceRayBatch(w);
      r := Ok((w, rays));
    case Other =>
      r := Ok((w, []));
  }

  /** The payload leaves the worker ready to trace. */
  predicate Ready(init: Init) {
    && Truthy(init.intersectionMin) && Truthy(init.intersectionMax) && Truthy(init.recursionDepth)
    && init.xBounds.Some? && init.yBounds.Some?
  }

  /**
    An 'initialize' message followed by a 'trace' message, from any state:
    the batch runs exactly when the payload is ready, and then traces each
    pixel of the payload's chunk once, in loop order, with the payload's
    camera position, intersection bounds and recursion depth.
   */
  method InitializeThenTrace(w: Worker, init: Init) returns (r: Result<seq<RayRequest>>)
    ensures r.Ok? <==> Ready(init)
    ensures r.Throw? ==> r.exception == Error("Worker not initialized")
    ensures r.Ok? ==> |r.value| == Width(init.xBounds.value) * Width(init.yBounds.value)
    ensures r.Ok? ==> forall i :: 0 <= i < |r.value| ==>
      && init.xBounds.value.lo <= r.value[i].x < init.xBounds.value.hi
      && init.yBounds.value.lo <= r.value[i].y < init.yBounds.value.hi
      && r.value[i].origin == init.camera.position
      && r.value[i].min == init.intersectionMin.value
      && r.value[i].max == init.intersectionMax.value
      && r.value[i].depth == init.recursionDepth.value
    ensures r.Ok? ==> forall i, j :: 0 <= i < j < |r.value| ==>
      Before((r.value[i].x, r.value[i].y), (r.value[j].x, r.value[j].y))
  {
    var first := OnMessage(w, Initialize(init));
    var w' := first.value.0;
    var second := OnMessage(w', Trace);
    if second.Throw? {
      return Throw(second.exception);
    }
    var rays := second.value.1;
    var xb, yb := init.xBounds.value, init.yBounds.value;
    var ps := Pixels(xb, yb);
    PixelsCount(xb, yb);
    PixelsOrdered(xb, yb);
    forall i | 0 <= i < |ps|
      ensures xb.lo <= ps[i].0 < xb.hi && yb.lo <= ps[i].1 < yb.hi
    {
      PixelsCover(xb, yb, ps[i]);
    }
    return Ok(rays);
  }

  /** The guard reads a zero `intersectionMin` or `recursionDepth` as not yet set. */
  lemma ZeroCountsAsUnset(w: Worker)
    requires w.intersectionMin == Some(0.0) || w.recursionDepth == Some(0.0)
    ensures !Initialized(w)
  {
  }
}
