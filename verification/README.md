# Morphosis mesh core in Dafny

Morphosis renders 4D quaternion Julia sets as 3D meshes. A grid of sample
points is classified by escape-time iteration, marching cubes turns every
grid cube into triangles, and the triangles are collected in growable
arrays. This project models the parts of that pipeline that compute and
store values, and proves what they promise.

- `geometry.dfy` (`Geometry`): points (`float3`), triangles, linear interpolation.
- `quaternion.dfy` (`Quaternion`): quaternion sum, Hamilton product and
  magnitude. The square root is a parameter constrained by `IsSqrt`.
- `escape.dfy` (`EscapeTime`): the reference escape-time iteration
  `z <- f(z) + c`. Each of the four formulas (z², z³, z² + z, |z|² − z²)
  has a squared-magnitude bound and an iteration limit. Every sampler is
  proved equal to this function.
- `sample_julia.dfy` (`SampleJulia`): `sample_4D_Julia` and
  `sample_4D_Julia_optimized`, as loops proved against `JuliaValue`.
- `samplers.dfy` (`Samplers`): the deep-zoom, Mandelbrot and
  alternative-formula samplers, as loops proved against their value functions.
- `enhancements.dfy` (`Enhancements`): the shared `t_data` settings as the
  class `FractalData`. It covers:
  - the dispatcher `sample_fractal_enhanced`;
  - `sample_with_supersampling`, which temporarily overwrites the
    supersampling field and restores it;
  - the variance test `should_refine_grid_cell`.
- `storage.dfy` (`Storage`): the triangle pool, the flat triangle array,
  and the triangle-array concatenation used by marching cubes, as the
  class `TriangleStore` and array methods.
- `polygonisation.dfy` (`Polygonisation`): marching cubes over one cube:
  - the cube index;
  - edge interpolation into a 12-entry vertex list;
  - the triangle-table walk up to the `-1` terminator.

  `polygonise` and `polygonise_optimized` are both proved to return the
  same `Mesh`. The lookup tables are a parameter of type `Tables`.

Arithmetic is over `real`. The C `float`/`double` rounding is not modelled.
Only `sqrt` and `sinf` are left open, as function parameters.

### Behaviour of the code worth knowing

- **Escape bound.** `julia->threshold` is set to 2.0 (srcs/init.c:39),
  but no sampler reads it. The squared bounds are hard-coded: 4 in
  srcs/sample_julia.c:77 and srcs/mathematical_enhancements.c:43 and 93
  (|z| > 2 at srcs/sample_julia.c:34), and 16 in the alternative-formula
  sampler (srcs/mathematical_enhancements.c:146).
- **Supersampling state.** `sample_with_supersampling` disables
  supersampling by overwriting the shared `data->supersampling` and
  restoring it after each call (srcs/mathematical_enhancements.c:324-327,
  349-352). The model keeps the field and proves that it is restored.
- **Deep zoom in the dispatcher.** For the Julia kind with double precision
  and zoom > 1000, the position is divided by the zoom level before the
  call (srcs/mathematical_enhancements.c:382-387) and again inside
  `sample_4D_Julia_deep_zoom` (lines 46-48). The fourth component is
  divided only once (line 49). `DeepZoomDividesPositionTwice` states this.
- **Unknown formula ids.** Inside the alternative sampler an unknown id
  takes the `default` branch, the standard z² update
  (srcs/mathematical_enhancements.c:207-213). The dispatcher, however,
  sends every nonzero id to that sampler (lines 398-401), whose bound is 16
  rather than the standard sampler's 4.
  `UnknownFormulaEscapesAtMostLikeStandard` relates the two.
- **Refinement samples.** `should_refine_grid_cell` takes 9 samples, the
  8 corners and the centre of the cell
  (srcs/mathematical_enhancements.c:243-254). It samples the unzoomed
  positions and has no hybrid kind (lines 265-290).
- **Supersampling grid.** The sub-sample offsets are `(x - N/2) * offset`
  for x in 0..N-1 on each axis (srcs/mathematical_enhancements.c:336-357),
  with N/2 an integer division. The sub-grid is centred on the sample point
  only for odd N: for N = 2 the offsets are {-offset, 0}, so the sub-grid's
  mean lies offset/2 below the point on each axis. N = 2 is reachable: the O
  key cycles the level 1, 2, 3 (srcs/gl_utils.c:222-223). `SubPosition`
  models the offsets as written.
- **Shared vertex list.** `polygonise_optimized` writes through
  `data->mc_vertlist` (srcs/polygonisation.c:188). That field is set to NULL
  at srcs/init.c:73, and no code in this model allocates it, so the
  precondition `mcVertlist != null` of `PolygoniseOptimized`, which the C
  needs for memory safety, is met by no code shown here.
- **Flat-array growth.** The comment at srcs/utils.c:98 says the capacity
  doubles, but doubling from capacity 0 leaves it 0 (see Findings).

## Model

| member | source | states |
|---|---|---|
| Quaternion.Sum | srcs/mathematical_enhancements.c:22-30 | subtracting either summand from the sum gives back the other, so Diff undoes Sum |
| Quaternion.SumCommutes | srcs/mathematical_enhancements.c:22-30 | quaternion addition is commutative |
| Quaternion.Modulus | srcs/mathematical_enhancements.c:7-10 | the magnitude is non-negative and its square is x² + y² + z² + w² |
| Quaternion.Mult | srcs/mathematical_enhancements.c:12-20 | the real number 1 is a two-sided identity of the Hamilton product |
| Quaternion.MultMagnitude | srcs/mathematical_enhancements.c:12-20 | the squared magnitude of a product is the product of the squared magnitudes, so \|q1·q2\| = \|q1\|·\|q2\| |
| Quaternion.InlinedSquare | srcs/mathematical_enhancements.c:62-65 | the component-wise square the samplers inline equals the Hamilton product z·z of lines 12-20 |
| Quaternion.SqrtExceeds | srcs/sample_julia.c:31-35 | for s ≥ 0, sqrt(s) > t holds exactly when t < 0 or s > t², so the test \|z\| > 2 is \|z\|² > 4 |
| EscapeTime.FormulaOf | srcs/mathematical_enhancements.c:164-213 | the standard z² formula is chosen exactly for ids outside 1..3 |
| EscapeTime.Escape | srcs/sample_julia.c:27-39 | an escape-time value is 0.0 or 1.0 |
| EscapeTime.EscapeIffOrbitExceeds | srcs/sample_julia.c:89-115 | the value is 0.0 exactly when one of iterates 1..max_iter has \|z\|² above the bound |
| EscapeTime.EscapeMonotone | srcs/sample_julia.c:89-112 | a point that escapes within n iterations escapes within every m ≥ n |
| EscapeTime.EscapeBoundMonotone | srcs/mathematical_enhancements.c:146 | a point that escapes a higher bound escapes every lower bound |
| SampleJulia.QuatModFast | srcs/sample_julia.c:51-56 | the fast magnitude is non-negative and its square is x² + y² + z² + w² |
| SampleJulia.SampleJulia4D | srcs/sample_julia.c:13-40 | the library-based loop returns JuliaValue: z ← z² + c from JuliaStart, escape at \|z\| > 2 |
| SampleJulia.SampleJulia4DOptimized | srcs/sample_julia.c:71-116 | the inlined loop with the \|z\|² > 4 test returns the same JuliaValue, so both samplers agree |
| SampleJulia.JuliaValueIsBinary | srcs/sample_julia.c:34-39 | the Julia value is 0.0 or 1.0 |
| SampleJulia.JuliaValueNoIterations | srcs/sample_julia.c:27-39 | with max_iter = 0 the value is 1.0 |
| SampleJulia.JuliaEscapeMonotone | srcs/sample_julia.c:89-115 | a value of 0.0 stays 0.0 when max_iter grows |
| Samplers.SampleJuliaDeepZoom | srcs/mathematical_enhancements.c:38-80 | returns the escape value from (pos/zoom, w/zoom) with c = julia.c and bound 4 |
| Samplers.SampleMandelbrot4D | srcs/mathematical_enhancements.c:88-130 | returns the escape value with c = (pos, julia.w), z₀ = 0.1·julia.c and bound 4 |
| Samplers.AlternativeTerm | srcs/mathematical_enhancements.c:164-213 | each branch of the switch, the default included, computes the term of the formula FormulaOf selects for the id |
| Samplers.SampleJuliaAlternativeFormula | srcs/mathematical_enhancements.c:141-229 | returns the escape value of the formula chosen by the id, from JuliaStart, with bound 16 |
| Samplers.InlinedCube | srcs/mathematical_enhancements.c:173-188 | the written-out z·z² is the cubic term z·(z·z) |
| Samplers.InlinedSquarePlusZ | srcs/mathematical_enhancements.c:190-195 | the written-out term is z·z + z |
| Samplers.InlinedMagnitudeMinusSquare | srcs/mathematical_enhancements.c:197-205 | the written-out term is \|z\|² − z·z |
| Samplers.UnknownFormulaIsStandard | srcs/mathematical_enhancements.c:207-213 | an id outside 0..3 gives exactly the value of id 0 |
| Samplers.SamplersAreBinary | srcs/mathematical_enhancements.c:75-79 | the deep-zoom, Mandelbrot and alternative values are each 0.0 or 1.0 |
| Samplers.AlternativeEscapeImpliesJuliaEscape | srcs/mathematical_enhancements.c:146 | with id 0, escaping the bound 16 implies escaping the Julia sampler's bound 4 |
| Enhancements.ZoomedPosition | srcs/mathematical_enhancements.c:381-387 | for zoom > 1 the returned position times the zoom is the input; otherwise the input is unchanged |
| Enhancements.FractalData.SampleFractalEnhanced | srcs/mathematical_enhancements.c:372-422 | the result is EnhancedValue: supersampling when the level exceeds 1, otherwise zoom then dispatch on kind, formula and deep zoom; the level is unchanged afterwards |
| Enhancements.FractalData.SampleWithSupersampling | srcs/mathematical_enhancements.c:319-360 | for N > 1 the result is the sum of the N³ direct values at the sub-positions divided by N³; otherwise the direct value; the supersampling field is restored |
| Enhancements.FractalData.SampleForRefinement | srcs/mathematical_enhancements.c:265-290 | the per-sample switch of the refinement test returns RefineSample: unzoomed, no hybrid kind |
| Enhancements.FractalData.ShouldRefineGridCell | srcs/mathematical_enhancements.c:237-311 | returns true exactly when the depth is below the maximum and the standard deviation of the nine cell samples exceeds the threshold |
| Enhancements.SquaredDeviations | srcs/mathematical_enhancements.c:299-304 | the accumulated squared deviations are non-negative |
| Enhancements.Variance | srcs/mathematical_enhancements.c:299-305 | the variance is non-negative |
| Enhancements.RefineDecision | srcs/mathematical_enhancements.c:307-310 | below the maximum depth, sqrt(variance) > threshold is the refinement decision |
| Enhancements.HybridInUnitInterval | srcs/mathematical_enhancements.c:410-417 | the hybrid blend of two binary values lies in [0, 1] |
| Enhancements.DirectValueInUnitInterval | srcs/mathematical_enhancements.c:389-421 | every dispatched value lies in [0, 1], and is 0.0 or 1.0 unless the kind is hybrid |
| Enhancements.SumXBounds | srcs/mathematical_enhancements.c:336-357 | the running total after k slices lies between 0 and k·N² |
| Enhancements.SupersampledInUnitInterval | srcs/mathematical_enhancements.c:359 | the mean of the N³ sub-samples lies in [0, 1] |
| Enhancements.EnhancedValueInUnitInterval | srcs/mathematical_enhancements.c:372-378 | at every supersampling level the value lies in [0, 1] |
| Enhancements.DeepZoomDividesPositionTwice | srcs/mathematical_enhancements.c:393-397 | in deep zoom the dispatcher's value is the escape value from (pos/zoom/zoom, w/zoom) |
| Enhancements.UnknownFormulaEscapesAtMostLikeStandard | srcs/mathematical_enhancements.c:398-401 | for the Julia kind without deep zoom, a point that escapes with an unknown formula id also escapes with id 0 |
| Enhancements.ConstantHasZeroVariance | srcs/mathematical_enhancements.c:294-305 | equal samples have mean equal to the sample and variance 0 |
| Enhancements.UniformCellNotRefined | srcs/mathematical_enhancements.c:294-310 | with a non-negative threshold, a cell whose nine samples agree is not refined |
| Storage.AllocFloat3Arr | srcs/utils.c:128-156 | no array exactly when len.x + len.y = 0; otherwise a fresh array of that length keeping the first len.x entries of mem |
| Storage.ArrFloat3Cat | srcs/utils.c:164-200 | the result holds to's len.x triangles followed by from's len.y, and the new length pair is (len.x + len.y, 0); otherwise the array is fresh; with nothing to hold, no array and len unchanged |
| Storage.CatContents | srcs/utils.c:179-186 | the copied prefix and suffix together are the concatenation to + from |
| Storage.TriangleStore.InitTrianglePool | srcs/utils.c:9-23 | the pool holds (cubes·15) mod 2³² vertices, none handed out; the flat array is untouched |
| Storage.TriangleStore.GetTriangleFromPool | srcs/utils.c:31-42 | with room, the slot at the old used count and used + 3; otherwise a fallback with used unchanged; used ≤ size is kept |
| Storage.TriangleStore.ResetTrianglePool | srcs/utils.c:47-50 | used becomes 0; the pool and its size are unchanged |
| Storage.TriangleStore.CleanTrianglePool | srcs/utils.c:55-63 | no pool, size and used 0 |
| Storage.TriangleStore.InitFlatTriangles | srcs/utils.c:71-86 | an empty flat array with capacity (cubes·5) mod 2³² |
| Storage.Reallocate | srcs/utils.c:105 | the grown array is fresh, of the requested size, and starts with the old contents |
| Storage.WriteVertices | srcs/utils.c:110-111 | the three vertices of the triangle follow the untouched earlier entries, and every entry after them is unchanged |
| Storage.TrianglesAppend | srcs/utils.c:110-112 | writing three more vertices appends one triangle to the stored triangles |
| Storage.TriangleStore.AddTriangleToFlat | srcs/utils.c:94-113 | the stored triangles become the old ones plus the new one and the count grows by 1; the capacity is unchanged while there is room and grows by GrownCapacity when full; count ≤ capacity is kept |
| Storage.TriangleStore.CleanFlatTriangles | srcs/utils.c:118-126 | no flat array, count and capacity 0 |
| Storage.ZeroCapacityDoesNotGrow | srcs/utils.c:97-99 | doubling capacity 0 leaves fewer than the three entries the next store writes |
| Storage.GrownCapacity | srcs/utils.c:97-99 | the grown capacity always exceeds the old one and is the doubling when the old one is positive |
| Polygonisation.CubeIndex | srcs/polygonisation.c:4-26 | the index is below 256, and bit k is set exactly when corner k's value is nonzero |
| Polygonisation.UniformCubeIndex | srcs/polygonisation.c:8-25 | all-zero corners give index 0; all-nonzero corners give 255 |
| Polygonisation.Interpolate | srcs/polygonisation.c:28-44 | on values in {0, 1} the interpolated vertex is p0 or p1, and on a crossed edge it is the corner whose value is 1 |
| Polygonisation.InterpolateHitsIsoLevel | srcs/polygonisation.c:28-44 | unless both values are equal and off the level, the vertex is the point of the edge where the linear field value is 1 |
| Polygonisation.UpdateEdgeVertex | srcs/polygonisation.c:53-54 | one edge test: entry e is the interpolated vertex of edge e when the mask marks it, and is otherwise unchanged |
| Polygonisation.FillVertices | srcs/polygonisation.c:53-76 | every edge marked in the mask gets the vertex interpolated between its two fixed corners; every other entry keeps its old value |
| Polygonisation.GetVertices | srcs/polygonisation.c:46-78 | a fresh 12-entry list holding the interpolated vertex on every crossed edge |
| Polygonisation.PackageTriangles | srcs/polygonisation.c:80-95 | a fresh one-triangle array whose vertices are named by row entries i, i + 1, i + 2 |
| Polygonisation.AppendRowTriangle | srcs/polygonisation.c:140-145 | one loop pass appends that triangle to the array and its length |
| Polygonisation.CollectTriangles | srcs/polygonisation.c:137-148 | the array holds the row's triangles in table order up to the -1 terminator, with their count; no array when there are none, otherwise a fresh one |
| Polygonisation.MarchingData.Polygonise | srcs/polygonisation.c:110-152 | no array and len unchanged when no edge is crossed; otherwise the cube's Mesh in a fresh array, with len.y set to its size |
| Polygonisation.MarchingData.PolygoniseOptimized | srcs/polygonisation.c:166-233 | the same Mesh, in a fresh array, and len.y as polygonise; the shared vertex list afterwards holds the crossed edges' vertices and its old other entries |
| Polygonisation.AgreeingListsSameTriangles | srcs/polygonisation.c:91-93 | two vertex lists that agree on the crossed edges give the same triangles |
| Polygonisation.FilledListGivesMesh | srcs/polygonisation.c:133-147 | any list holding the interpolated vertices on the crossed edges gives the cube's Mesh, whatever its uninitialised entries |
| Polygonisation.TrianglesEndAtTerminator | srcs/polygonisation.c:137-148 | the row entry right after the last triple is the -1 terminator, so the count is exactly the number of triples before it |
| Polygonisation.TriangleAt | srcs/polygonisation.c:91-93 | triangle j uses the vertices named by row entries 3j, 3j + 1 and 3j + 2 |
| Polygonisation.AtMostFiveTriangles | srcs/utils.c:11-14 | a 16-entry table row describes at most five triangles |
| Polygonisation.UniformCubeHasNoEdges | srcs/polygonisation.c:129-130 | with the standard edge table, a cube with all corners outside or all inside has edge mask 0, so it yields nothing |

## Left out

- Console output (`printf`) and the fatal `error()` exits are not modelled.
  Allocation failure (`malloc`/`realloc` returning NULL) is not modelled:
  allocation always succeeds. Calls to `free` are not modelled.
- Float rounding: all arithmetic is over `real`.
  - `sqrtf`/`sqrt` are a parameter satisfying `IsSqrt`.
  - `sinf` is a parameter bounded to [-1, 1] (`IsSine`).
  - The `float`/`double` conversions of the deep-zoom path are identities.
- `cl_quat_mult`, `cl_quat_sum` and `cl_quat_mod` of the quaternion library
  are declared in includes/lib_complex.h. Their bodies are not part of this
  model. The plain Julia sampler uses the double-precision formulas of
  `cl_quat_mult_d`/`cl_quat_sum_d`/`cl_quat_mod_d` in their place.
- The `edgetable`/`tritable` tables of look-up.h are not part of this model.
  - They are the parameter `Tables`, required to satisfy `ValidTables`:
    256 rows of edge triples ended by -1, each using only edges its mask
    marks.
  - `UniformCubeHasNoEdges` also assumes `StandardEdgeTable`.
- Storage.TriangleStore.GetTriangleFromPool: `triangle_pool_used + 3` is
  computed without 32-bit wrap-around.
  - The fallback `malloc` block and the pointer into the pool are
    represented by the `Slot` value.
  - Writes through a handed-out pointer are not modelled.
- Storage.TriangleStore.AddTriangleToFlat: the count increment and
  `capacity * 3` are computed without 32-bit wrap-around. Growth follows
  `GrownCapacity`, the corrected doubling (see Findings), not the doubling
  as written.
- Storage.TriangleStore.InitFlatTriangles: only `cubes * 5` is truncated
  to 32 bits. The vertex count `flat_triangle_capacity * 3` of
  srcs/utils.c:81 is also `uint` arithmetic and wraps once the capacity
  reaches 2³²/3, for instance at grid size 660; the model allocates the
  unwrapped 3·capacity vertices, so `flat.Length == 3 * flatCapacity`
  holds of the model but not of the C beyond that size.
- Storage.TriangleStore.InitTrianglePool: `cubes` is `pow(grid_size, 3)`
  already converted to an integer. The float power and its conversion are
  not modelled, and the allocated vertices are default points.
- Storage.AllocFloat3Arr: a `float3 **` with one separately allocated
  3-vertex block per entry is an array of `Triangle` values.
  - The per-entry `malloc` loop is not modelled, nor the aliasing it could
    create.
  - Entries below len.x of a new array are unspecified, as in C.
  - The `uint` sum `len.x + len.y` in `alloc_float3_arr` and
    `arr_float3_cat` is unbounded in the model; the C wraps it at 2³². No
    caller comes near that, since `polygonise` adds at most five triangles
    per cube.
- Storage.ArrFloat3Cat: freeing `f_from` and its entries is not modelled.
- Polygonisation.MarchingData.Polygonise: the uninitialised entries of the
  `malloc`ed vertex list are arbitrary points. The proof shows that they do
  not reach the triangles.
- The position of a cube in the grid (`pos->x`) is the index `p` into the
  corner arrays `vPos`/`vVal`. Building those arrays (grid construction,
  `calculate_point_cloud`, `create_grid`, `subdiv_grid`) is not part of this
  model.
- Enhancements.HybridValue: the blend is `0.5 + 0.5 * sin(x + y + z)` with
  `sin` a parameter, so only its range [0, 1] is used.
- Enhancements.Refines: `std_dev > detail_threshold` is stated as a
  comparison of the variance with the squared threshold (for a non-negative
  threshold). `RefineDecision` proves the two equivalent for an exact square
  root.
- The escape-threshold field `julia->threshold` is carried in `Julia` but
  read by no sampler, as in the code.
- Rendering, normals, colours, OpenGL, input handling and mesh export are
  not part of this model.

## Findings

| source | as written | input that shows it | evidently intended | confidence | as-written member | corrected member |
|---|---|---|---|---|---|---|
| srcs/utils.c:97-111 | a full flat array grows by `capacity *= 2`, so capacity 0 stays 0 and `memcpy` then writes three vertices at index 0 of a zero-size block | `add_triangle_to_flat` after `clean_flat_triangles`, or after `init_flat_triangles` with a grid size of 0 | growth to a capacity larger than the count, e.g. starting from one triangle when the capacity is 0 | not executed | Storage.ZeroCapacityDoesNotGrow | Storage.GrownCapacity |
