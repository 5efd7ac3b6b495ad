# 3Dlib core in Dafny

This is a Dafny model of the core of 3Dlib, a small JavaScript 3D library that does both rasterising and ray tracing. The model covers:

- **Linear algebra.** The `Vector` family (`Vector`, `Vector2`, `Vector3`), `Matrix3`, `Matrix4`, and the generic `Matrix`, whose constructor infers dimensions.
- **Renderer matrix builders.** The camera matrix, and the projection from the viewport plane to canvas pixels. These are in `Renderer` and again in `Canvas2DRenderer`.
- **The viewport.** Its positivity validation, and the mapping from canvas pixels to viewport points.
- **Scene objects.** The validated fields of spheres and lights, the scene's `objects` list, and the dirty-flag cache of a `Transform`'s model matrix.
- **The ray tracer.** Constructor validation, and the closest-hit selection of `trace`.
- **The ray-tracing worker.** Its readiness guard, its message dispatch, and the per-pixel loop over its chunk.

How the model is written:

- Every value is immutable.
- A method that mutates its receiver in the source is a function here. It returns the updated value.
- A JavaScript exception is the `Throw` case of `Js.Result`. Every setter in the source validates before it stores, so a `Throw` means the receiver is unchanged.
- Dynamic typing becomes small closed datatypes at each call site:
  - `Js.Scalar` covers `typeof x === 'number'` checks.
  - `Js.Typed` covers `instanceof` checks.
  - Per-constructor argument datatypes cover overloaded constructors.
- Numbers are `real`.
- Three parts of the system that the source leaves unimplemented become parameters:
  - the model matrix a `Transform` caches (`Transforms.Compute`);
  - the ray–sphere roots (`RayTracing.Roots`; `StubRoots` is the source's stub, which returns none);
  - what the worker does with each traced ray. Each ray is recorded as a `RayRequest`.

Modules and files:

| file | module | source |
|---|---|---|
| js.dfy | `Js` | results, exceptions, `typeof`/`instanceof` outcomes, truthiness |
| vectors.dfy | `Vectors` | src/math/Vector.js, Vector2.js, Vector3.js |
| matrix3.dfy | `Mat3` | src/math/Matrix3.js |
| matrix4.dfy | `Mat4` | src/math/Matrix4.js |
| matrix.dfy | `Matrices` | src/math/Matrix.js |
| objects.dfy | `Objects` | src/object/Sphere.js, Light.js, Camera.js, Scene.js |
| viewport.dfy | `Viewports` | src/Viewport.js |
| renderer.dfy | `Renderer`, `Canvas2DRenderer` | src/render/Renderer.js, Canvas2DRenderer.js |
| transform.dfy | `Transforms` | src/object/Transform.js |
| raytracer.dfy | `RayTracing` | src/RayTracer.js |
| worker.dfy | `TraceRayWorker` | src/worker/TraceRayWorker.js |

Some places in the source do not run as written. Each of these is modelled by the logic it evidently intends, and the list is repeated under "Left out":

- `toArray` is called on vectors and 3×3 matrices, but neither class defines it. It is read as a copy of the components.
- `Object3D`'s destructuring constructor receives positional arguments. The position is read as the object's position.
- The `rotation` setter of `Transform` assigns to a call expression (src/object/Transform.js:39), an early SyntaxError in module code. So src/object/Transform.js does not load, and neither do src/math/RendererUtils.js and src/render/RendererMath.js, which import it. The setter is read as storing the rotation.
- In the worker, lines 43-44 of src/worker/TraceRayWorker.js parse as a call. They are read as the destructuring assignment they are meant to be.
- `Canvas` defines only setters for `width` and `height` (src/Canvas.js:33-46), so `canvas.width` in `fromCanvas` reads undefined. The canvas's dimensions are read as its validated width and height. This affects `Viewports.FromCanvas`, `Viewports.FromCanvasOrigin` and `Renderer.ProjectionInvertsFromCanvas`.
- `Object3D`'s constructor falls back to `Matrix3.identity()` (src/object/Object3D.js:16), which `Matrix3` does not define. `Scene`, `Sphere`, `Light` and `Camera` never pass a rotation (src/object/Scene.js:14, Sphere.js:21, Light.js:11, Camera.js:9), so every `new Scene`, `new Sphere`, `new Light` and `new Camera` throws there. The model leaves the `Object3D` rotation out of scenes, spheres and lights, and takes a camera's rotation as given. This affects `Objects.NewScene`, `Objects.NewSphere` and `Objects.NewLight`.
- `Transform` calls `.clone()` on vectors and matrices (src/object/Transform.js:20, 21, 28, 32 and 35), which neither class defines. It is read as a copy of the value. This affects `Transforms.New` and `Transforms.SetPosition`.
- A non-`Object3D` element of the scene (added through an array) reaches `object.toJSON()` in `trace` (src/RayTracer.js:60). When the element is `null` or `undefined`, reading `toJSON` throws a TypeError. When it is any other value without `toJSON`, the call throws the TypeError "object.toJSON is not a function". The model states both cases.
- src/object/Camera.js:1 imports `./Object3d.js`, but the file is `src/object/Object3D.js`. On a case-sensitive file system neither `Camera` nor `RayTracer`, which imports it, loads. The import is read as the intended `Object3D`.

A quirk kept as written: the range error of the `reflective` setter of `Sphere` names 'specular'.

## Model

| member | source | states |
|---|---|---|
| Vectors.NewVector | src/math/Vector.js:6-9 | the length is the explicit length if given, else the number of values; the values are copied to the front and the rest are zero; values that do not fit throw a RangeError |
| Vectors.MultiplyScalar | src/math/Vector.js:12-18 | every component is multiplied by the scalar, and the length is kept |
| Vectors.DivideScalar | src/math/Vector.js:21-30 | division by zero, and nothing else, throws "Vector: division by zero"; otherwise every component is divided, and the length is kept |
| Vectors.DivideUndoesMultiply | src/math/Vector.js:12-30 | dividing by a non-zero scalar undoes multiplying by it |
| Vectors.NewVector2 | src/math/Vector2.js:9-11 | x and y are the arguments, and omitted ones are 0 |
| Vectors.SetX2 | src/math/Vector2.js:13-14 | setting x stores it and leaves y unchanged; the getter `X2` reads it back |
| Vectors.SetY2 | src/math/Vector2.js:16-17 | setting y stores it and leaves x unchanged; the getter `Y2` reads it back |
| Vectors.NewVector3 | src/math/Vector3.js:24-41 | a lone array or `Vector` supplies the components, padded with zeros; a lone other argument gives the zero vector; several numbers are the components in order; more than three values throw a RangeError |
| Vectors.SetX | src/math/Vector3.js:43-44 | setting x changes only component 0, which the getter `X` reads |
| Vectors.SetY | src/math/Vector3.js:46-47 | setting y changes only component 1, which the getter `Y` reads |
| Vectors.SetZ | src/math/Vector3.js:49-50 | setting z changes only component 2, which the getter `Z` reads |
| Vectors.FromJson | src/math/Vector3.js:60-62 | `toJSON` of the vector `fromJSON` builds is the object read |
| Vectors.JsonRoundTrip | src/math/Vector3.js:52-62 | `fromJSON(toJSON(v))` is `v`, where `Vectors.ToJson` writes the three components under x, y and z |
| Mat3.Zero | src/math/Matrix3.js:63-69 | all nine components are 0 |
| Mat3.Flatten | src/math/Matrix3.js:17-22 | three rows are flattened row-major: component 3i+j is row i's component j |
| Mat3.New | src/math/Matrix3.js:10-28 | accepted exactly for nine numbers (kept in order), three `Vector3` rows (flattened row-major), or no argument (the zero matrix); anything else throws TypeError "Invalid 'components' format" |
| Mat3.Get | src/math/Matrix3.js:33 | defined exactly for indices 0 to 8, and reads that component |
| Mat3.Set | src/math/Matrix3.js:39-44 | accepted exactly for an index 0 to 8 and a number value; the index is checked first; only the indexed component changes |
| Mat3.ToJson | src/math/Matrix3.js:49-61 | the keys are exactly 1 to 9, and key k holds component k-1 |
| Mat3.ToJsonInjective | src/math/Matrix3.js:49-61 | the JSON form determines the matrix |
| Mat4.New | src/math/Matrix4.js:8-21 | accepted exactly for sixteen numbers (kept in order) or no argument (the zero matrix); anything else throws a TypeError |
| Mat4.Zero | src/math/Matrix4.js:89-96 | all sixteen components are 0 |
| Mat4.Identity | src/math/Matrix4.js:98-105 | 1 at indices 0, 5, 10 and 15, and 0 elsewhere |
| Mat4.FromMatrix3 | src/math/Matrix4.js:108-117 | the nine components row-major in the top-left 3×3; row 3 and column 3 are those of the identity |
| Mat4.FromVector3 | src/math/Matrix4.js:120-129 | the translation is in column 3 of rows 0 to 2, and every other entry is that of the identity |
| Mat4.Get | src/math/Matrix4.js:37-50 | one argument is a flat index, two are (row, col) at row·4+col; any other count throws an `Error` whose message is "Bad '..args' parameter " followed by the arguments joined by commas; an index outside 0..15 reads undefined |
| Mat4.Set | src/math/Matrix4.js:68-83 | one index argument or (row, col) before the value, any other count throws an `Error` whose message starts with "Bad '..args' parameter " and the index arguments joined by commas; the addressed component becomes the value, and the other components are unchanged |
| Mat4.GetForms | src/math/Matrix4.js:37-50 | `get(row, col)` equals `get(row * 4 + col)` |
| Mat4.GetMessageExamples | src/math/Matrix4.js:46 | `get()` throws "Bad '..args' parameter ", ending in the space, and `get(1, 2, -30)` throws "Bad '..args' parameter 1,2,-30" |
| Mat4.GetAfterSet | src/math/Matrix4.js:37-83 | `get` after `set` with the same index arguments reads the stored value |
| Mat4.MultiplyEntry | src/math/Matrix4.js:136-161 | entry (i, j) of the product `Mat4.Multiply` builds is the sum over k of a[4i+k]·b[4k+j] |
| Mat4.Transpose | src/math/Matrix4.js:163-184 | entry (i, j) of the result is entry (j, i) of the input |
| Mat4.TransposeInvolutive | src/math/Matrix4.js:163-184 | transposing twice restores the matrix |
| Mat4.IdentityLeftNeutral | src/math/Matrix4.js:136-161 | identity · m = m |
| Mat4.IdentityRightNeutral | src/math/Matrix4.js:136-161 | m · identity = m |
| Matrices.RootFrom | src/math/Matrix.js:26-27 | the search finds a whole square root of n exactly when one exists |
| Matrices.SquareRoot | src/math/Matrix.js:26-29 | there is a result exactly when the length is a perfect square, and the result squares to it |
| Matrices.New | src/math/Matrix.js:18-58 | the dimensions `Matrices.Rows` and `Matrices.Cols` are inferred, or the call throws "Matrix: invalid arguments provided."; a negative rows·cols throws a RangeError; storage is exactly rows·cols, holding the source values where present and 0 elsewhere, extra values dropped |
| Matrices.SquareArray | src/math/Matrix.js:23-29 | a lone array of length k² gives a k×k matrix holding that array |
| Matrices.EmptyArray | src/math/Matrix.js:26-29 | an empty array gives the 0×0 matrix |
| Matrices.NonSquareArrayThrows | src/math/Matrix.js:45-47 | a lone array whose length is not a perfect square is rejected |
| Matrices.ExplicitDimensions | src/math/Matrix.js:30-37 | (array, rows, cols) with numeric dimensions gives a rows×cols matrix of rows·cols values |
| Matrices.TwoArgumentsThrow | src/math/Matrix.js:45-47 | a two-argument call is rejected unless the first argument is a matrix |
| Matrices.CopyConstructor | src/math/Matrix.js:38-43 | constructing from a matrix copies its values and dimensions |
| Objects.CheckRadius | src/object/Sphere.js:31-35 | a radius is accepted exactly when it is a number > 0; otherwise a TypeError or RangeError |
| Objects.CheckColor | src/object/Sphere.js:38-41 | a colour is accepted exactly when it is a `Color` |
| Objects.CheckSpecular | src/object/Sphere.js:45-50 | a specular is accepted exactly when it is a number ≥ 0, so 0 is accepted |
| Objects.CheckReflective | src/object/Sphere.js:54-59 | a reflective is accepted exactly when it is a number in [0, 1], both ends included |
| Objects.SetRadius | src/object/Sphere.js:31-35 | on success only the radius changes; a rejected value leaves the sphere as it was |
| Objects.SetColor | src/object/Sphere.js:38-41 | on success only the colour changes; a rejected value leaves the sphere as it was |
| Objects.SetSpecular | src/object/Sphere.js:45-50 | on success only the specular changes; a rejected value leaves the sphere as it was |
| Objects.SetReflective | src/object/Sphere.js:54-59 | on success only the reflective changes; a rejected value leaves the sphere as it was |
| Objects.NewSphere | src/object/Sphere.js:20-27 | accepted exactly when all four checks pass, an undefined specular or reflective defaulting to 0 (through `Objects.Default`) and any other value kept; the first failing check decides the exception |
| Objects.NewSphereIsSetters | src/object/Sphere.js:20-27 | the constructor is the four setters applied in order |
| Objects.CheckIntensity | src/object/Light.js:17-21 | an intensity is accepted exactly when it is a number in [0, 1]; otherwise a TypeError or RangeError |
| Objects.SetIntensity | src/object/Light.js:17-21 | on success only the intensity changes; a rejected value leaves the light as it was |
| Objects.NewLight | src/object/Light.js:10-14 | the constructor applies the same validation as the setter |
| Objects.NewLightIsSetter | src/object/Light.js:10-14 | constructing is setting the intensity |
| Objects.NewScene | src/object/Scene.js:11-15 | a new scene is empty, and its position defaults to the zero vector |
| Objects.Add | src/object/Scene.js:30-42 | an array's elements are appended in order without a type check; a single `Object3D` is appended; anything else leaves the scene unchanged; the existing objects stay a prefix |
| Viewports.ValidateDimension | src/Viewport.js:57-60 | a width or height is accepted exactly when it is a number > 0 |
| Viewports.ValidateDistance | src/Viewport.js:50-55 | a distance is accepted exactly when it is a number > 0 |
| Viewports.SetWidth | src/Viewport.js:30-34 | on success only the width changes; a rejected value leaves the viewport as it was |
| Viewports.SetHeight | src/Viewport.js:39-43 | on success only the height changes; a rejected value leaves the viewport as it was |
| Viewports.SetDistanceToCamera | src/Viewport.js:50-55 | on success only the distance changes; a rejected value leaves the viewport as it was |
| Viewports.New | src/Viewport.js:19-25 | non-object options throw a TypeError; otherwise accepted exactly when width, height and distance are all valid, checked in that order |
| Viewports.FromCanvas | src/Viewport.js:67-73 | pixel (x, y) maps to the point whose x and y are scaled by the viewport-to-canvas ratio and whose z is the camera distance; non-number coordinates or a non-`Canvas` throw a TypeError, in that order |
| Viewports.FromCanvasOrigin | src/Viewport.js:72 | pixel (0, 0) maps to (0, 0, d) |
| Renderer.CameraMatrixEntry | src/render/Renderer.js:100-105 | `Renderer.CameraMatrix`, transpose(fromMatrix3(R)) · transpose(fromVector3(p)), has Rᵀ in the top-left 3×3, p in the bottom row, and (0, 0, 0, 1) as the last column |
| Renderer.CameraMatrixLayout | test/unit/renderer/matrixCalculation.test.js:39-77 | in flat form: Rᵀ at the top left, zeros at 3, 7 and 11, p at 12 to 14, and 1 at 15 |
| Renderer.CameraMatrixTranslationOnly | test/unit/renderer/matrixCalculation.test.js:23-37 | with the identity rotation, the position appears only in the bottom row |
| Renderer.CameraMatrixDefault | test/unit/renderer/matrixCalculation.test.js:11-21 | the identity rotation with a zero position gives the identity matrix |
| Renderer.ProjectionMatrix | src/render/Renderer.js:116-125 | entry (0, 0) is d·canvasWidth/viewWidth and entry (1, 1) is d·canvasHeight/viewHeight; every other entry is that of the identity |
| Renderer.ProjectionInvertsFromCanvas | src/render/Renderer.js:116-125 | the projection undoes `fromCanvas`: the viewport point of pixel (x, y) projects to (x·d, y·d, d, 1), which is (x, y) after division by z |
| Canvas2DRenderer.CameraMatrix | src/render/Canvas2DRenderer.js:96-101 | this builder also gives Rᵀ in the top left, the position in the bottom row, and (0, 0, 0, 1) as the last column |
| Canvas2DRenderer.ProjectionMatrix | src/render/Canvas2DRenderer.js:112-121 | the two scale factors are on the diagonal, and every other entry is that of the identity |
| Canvas2DRenderer.CameraMatricesAgree | src/render/Canvas2DRenderer.js:96-101 | equal to `Renderer`'s camera matrix for every camera |
| Canvas2DRenderer.ProjectionMatricesAgree | src/render/Canvas2DRenderer.js:112-121 | equal to `Renderer`'s projection for every viewport and canvas size |
| Transforms.New | src/object/Transform.js:19-26 | a new transform is dirty, has no cache, and is consistent whatever the model matrix is |
| Transforms.SetPosition | src/object/Transform.js:30-33 | stores the position and marks the transform dirty |
| Transforms.SetRotation | src/object/Transform.js:37-40 | stores the rotation and marks the transform dirty |
| Transforms.SetScale | src/object/Transform.js:44-47 | stores the scale and marks the transform dirty |
| Transforms.ModelMatrix | src/object/Transform.js:50-57 | when dirty or uncached, the matrix is recomputed from the current state, cached, and the flag is cleared; when clean, the cached matrix is returned and nothing changes |
| Transforms.OperationsPreserveConsistency | src/object/Transform.js:19-57 | every setter and every read keeps the invariant: a clean transform caches the matrix of its current state |
| Transforms.ModelMatrixIsCurrent | src/object/Transform.js:50-56 | on a consistent transform a read answers the matrix of the current state, and leaves it clean |
| Transforms.ConsecutiveReadsEqual | src/object/Transform.js:50-56 | a read keeps position, rotation and scale, and a second read answers the same and changes nothing |
| Transforms.Apply | src/object/Transform.js:28-57 | any one operation keeps the cache consistent |
| Transforms.Run | src/object/Transform.js:19-57 | along any sequence of operations the cache stays consistent, so the next read answers the matrix of the state reached |
| RayTracing.New | src/RayTracer.js:18-32 | accepted exactly for a camera, a scene, a number rayMin > 0 and a number rayMax > rayMin, checked in that order, with each check's TypeError or RangeError |
| RayTracing.FirstTwo | src/RayTracer.js:49 | exactly the first two roots are looked at, or all of them when there are fewer |
| RayTracing.Offer | src/RayTracer.js:47-58 | a root replaces the best so far only when it lies in [rayMin, rayMax] and is strictly smaller, as `RayTracing.IsClosest` compares it |
| RayTracing.Visit | src/RayTracer.js:49-58 | after a sphere's roots, the best is at most each of its roots in range, and changes only to one of them |
| RayTracing.VisitKeepsSummary | src/RayTracer.js:45-58 | each sphere keeps the loop invariant: the best is the smallest qualifying root so far, from the earliest object on ties |
| RayTracing.ScanSummarises | src/RayTracer.js:45-63 | the loop `RayTracing.Scan` aborts exactly when some object is not a sphere, and then at the first such object; otherwise it ends with the smallest root in [rayMin, rayMax), from the earliest object on ties |
| RayTracing.Trace | src/RayTracer.js:39-73 | a non-`Vector3` throws; at the first non-sphere the trace stops, giving null when that object has `toJSON`, the TypeError "object.toJSON is not a function" when it is another value without one, and a TypeError when it is `null` or `undefined`; with all spheres there is a colour exactly when some root qualifies, and it is the colour of the sphere with the closest root in [rayMin, rayMax) |
| RayTracing.StubTraceFindsNothing | src/RayTracer.js:75-80 | with the source's stub for the roots, `trace` never gives a colour, and gives null for a scene of spheres |
| TraceRayWorker.Start | src/worker/TraceRayWorker.js:7-23 | before any message the worker is not initialized |
| TraceRayWorker.Install | src/worker/TraceRayWorker.js:42-50 | 'initialize' stores every field of the payload unchanged, and leaves the worker ready exactly when its three numbers are truthy and both bounds are present |
| TraceRayWorker.PixelsCount | src/worker/TraceRayWorker.js:62-63 | the number of rays is width × height of the chunk; empty or inverted bounds give none |
| TraceRayWorker.PixelsCover | src/worker/TraceRayWorker.js:62-63 | a pixel is in `TraceRayWorker.Pixels`, the visiting order of the two loops, exactly when xBounds[0] ≤ x < xBounds[1] and yBounds[0] ≤ y < yBounds[1] |
| TraceRayWorker.PixelsOrdered | src/worker/TraceRayWorker.js:62-63 | pixels are visited with x in the outer loop and y in the inner one (each `TraceRayWorker.Column`), both ascending |
| TraceRayWorker.PixelsOnce | src/worker/TraceRayWorker.js:62-63 | no pixel is visited twice |
| TraceRayWorker.TraceRayBatch | src/worker/TraceRayWorker.js:57-75 | it throws "Worker not initialized" exactly when some variable is falsy (`TraceRayWorker.Initialized` fails); otherwise it traces one ray per pixel of the chunk, in the loop order |
| TraceRayWorker.OnMessage | src/worker/TraceRayWorker.js:25-55 | 'initialize' replaces the state, 'trace' runs the batch on the current state, and any other type has no effect |
| TraceRayWorker.InitializeThenTrace | src/worker/TraceRayWorker.js:42-75 | after 'initialize' then 'trace', the batch runs exactly when the payload's numbers are truthy and both bounds are present; it then traces width × height rays, each pixel of the payload's chunk in loop order, with the payload's camera position, intersection bounds and recursion depth, as `TraceRayWorker.RaysFor` builds each ray |
| TraceRayWorker.ZeroCountsAsUnset | src/worker/TraceRayWorker.js:58 | a zero intersectionMin or recursionDepth counts as not initialized |

## Left out

- Numbers are exact reals. IEEE rounding, NaN, infinities and -0 are not modelled.
- JavaScript coercions are not modelled. Where the source compares `undefined` (a missing root, say), the comparison is false, and the model follows that.
- Matrix dimensions, the index arguments of `Matrix4.get` and `Matrix4.set`, the index of `Matrix3.get` and `Matrix3.set`, the `length` of `new Vector` and worker bounds are integers. Non-integer values, such as the fractional length `new Float64Array(2.5)` accepts, are not modelled.
- Matrices.SquareRoot: decides perfect squares exactly. The source's `Math.sqrt(n) % 1 === 0` is floating point, and its rounding is not modelled.
- Mat4.Set: the message of a wrong argument count is promised only up to the index arguments' text. The source also appends the value, and formatting a real as JavaScript does is not modelled.
- Mat4.New: only the TypeError is promised. The `${components}` text the source appends to its message is not modelled.
- Mat4.Get: the arguments' text is modelled for integer arguments only, as `String` writes them.
- Mat4.Set: an index outside 0..15 leaves the sixteen components unchanged. The extra element or property JavaScript creates there is not modelled.
- Vectors.NewVector3: several arguments are numbers, as documented. An array mixed with numbers, and `undefined` among several arguments, are not modelled.
- `toArray`: modelled as a copy of the components, because in value semantics a copy and the original cannot be told apart. JavaScript reference aliasing, such as `Matrix4` keeping the caller's array, is not modelled for the same reason.
- Lines 43-44 of src/worker/TraceRayWorker.js parse as a call. They are modelled as the destructuring assignment they are meant to be.
- Viewports.FromCanvas: `Canvas` has no `width` or `height` getter (src/Canvas.js:33-46), so the source reads undefined and computes NaN. The model uses the canvas's validated dimensions, and so do Viewports.FromCanvasOrigin and Renderer.ProjectionInvertsFromCanvas.
- Objects.NewScene: the `Object3D` rotation is not modelled for scenes, spheres and lights. In the source every `new Scene`, `new Sphere` and `new Light` throws at src/object/Object3D.js:16, where `Matrix3.identity()` does not exist; the model builds the object instead, and so do Objects.NewSphere and Objects.NewLight.
- Transforms.New: `Vector3` and `Matrix3` have no `clone` (src/object/Transform.js:20, 21, 28, 32 and 35), so the source throws there. The model reads `clone` as a value copy, and so does Transforms.SetPosition.
- TraceRayWorker.Install: the payload carries the ray tracer, scene, camera and viewport already decoded. `Scene.fromJSON`, `Camera.fromJSON` and `Viewport.fromJSON` are not defined in the classes. Line 47 builds `new RayTracer(scene)` with one argument, which the constructor rejects.
- TraceRayWorker.TraceRayBatch: the ray direction and the colour are not computed, and each ray is recorded as a `RayRequest`. `Matrix3.multiplyVector3` and `RayTracer.traceRay` are not defined, and `fromCanvas` receives `this` as its canvas, which is `undefined` inside a function of module code.
- Worker messaging (`postMessage`, the event object) and concurrency are not modelled.
- RayTracing.Trace: for a `null` or `undefined` scene entry only a TypeError is promised, not its message, because the wording of that error differs between JavaScript engines.
- Object3D.rotateX uses trigonometry and is not modelled.
- Perspective divide and rounding in `projectVertex` are not modelled; the division by z appears only as a property in Renderer.ProjectionInvertsFromCanvas.
- `calculateObjectMatrix` calls a `Matrix4.multiplyScalar` that does not exist, so it is not modelled.
- The drawing and DOM code of the renderers and the canvas, and src/index.js, are not modelled.
- RendererUtils (src/math/RendererUtils.js) and RendererMath throw 'implement'. The model matrix of a `Transform` is the parameter `compute` instead.
- Colour arithmetic is not part of this model. src/math/Color.js is not part of this model, and a colour is an opaque value.
- The `Object3D` position and rotation setters depend on Assert.js, which is not part of this model. The camera's position and rotation are taken as given.
- Transforms.SetRotation: line 39 of src/object/Transform.js assigns to a call expression, an early SyntaxError, so the module does not load at all. The setter is modelled as storing the rotation, like the other setters.
- `#intersectSphere` is the stub `RayTracing.StubRoots`. The ray–sphere quadratic, lighting and reflection do not exist in the source and are not invented here.
- Vector4, Vertex, Box, the renderer interface files and vite.config.js are plain data holders or configuration and are not modelled.
