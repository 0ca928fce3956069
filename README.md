# Procedural flower generator, modelled in Dafny

This project models the core of a Unity package that grows flowers
procedurally. The package has these parts:

- **FlowerData** assembles a whole flower from a seed:
  - a main stem built from four random control points;
  - `leafCount` leaves hung along the middle stretch of the stem, each a
    short stalk with a blade at its tip, lower leaves bigger than upper
    ones;
  - a head of `n` florets laid out on a sunflower spiral, the first `m`
    of them buds.
- **FlowerShape** turns a half outline of control points into a flat,
  mirror-symmetric blade mesh: rows of Catmull-Rom samples, triangle
  strips between the rows, and Perlin noise along z.
- **FlowerStem** turns control points into a tube: sampled cores, a ring
  of vertices around each core, a band of quads between rings, a fan at
  each end, and the segment and tip points the flower hangs things from.
- **FlowerPart** is the growth animation. Each part runs a ticker from 0
  past 1 and restarts its children as the ticker passes their ratios.
- **RandomUtil** is the seeded generator every random choice draws from.
- **FlowerCatmullRomSpline** is the spline and its index helper.

How the source's forms carry over:

- Pure computations are Dafny functions:
  - the spline;
  - the outline;
  - the blade and stem meshes as values (`BladeMesh`, `StemMeshOf`);
  - the plan of a whole flower (`Plan`).
- The source's loops are methods proved equal to those functions, for
  example `BuildMesh`, `GetCounts`, `GetLoopPoint` and
  `FlowerStem.BuildRings`.
- Objects whose fields the source updates are classes:
  - `FlowerStem`, whose segments and tip change on every build;
  - `FlowerPart` and `FlowerSegment`, whose ticker, speed, children and
    property block change;
  - `RandomUtil`, whose position in its stream changes;
  - `FlowerData`, whose generator changes.
- The random generator is a stream of draws (`Rand.Stream`) plus a
  position. Every method that draws says how far the position moves. The
  plan functions say which draw each value comes from.
- Square roots, trigonometry, Perlin noise and quaternion constructions
  are the uninterpreted functions of an `Env` value, passed as a
  parameter.

The main results:

- **The blade:**
  - its vertex, uv and triangle counts (`BladeSizes`);
  - every triangle index names a vertex (`BladeTrianglesInRange`);
  - it is mirror-symmetric about its midrib (`BladeMirror`);
  - it is flat without noise (`BladeFlatWithoutNoise`);
  - the per-segment budget never exceeds the total (`CountsWithinBudget`).
- **The stem:**
  - the number of cores, and that the stem passes through every control
    (`CoreCount`, `CoresThroughControls`);
  - the vertex, uv and triangle layout (`StemVertexCount`,
    `StemRingVertex`, `StemUVCount`, `StemTriangleCount`);
  - every triangle index is in range (`StemTrianglesInRange`);
  - exactly when a ring is turned half round (`InverseToggles`);
  - the three error outcomes of `Build` (`BuildOutcome`).
- **The animation:**
  - the effect of each frame (`FlowerPart.Update`);
  - a stopped part stays stopped (`StaysStopped`);
  - a running part whose ticker grows by at least a fixed step stops
    (`EventuallyStops`).
- **The flower:**
  - `FlowerData.Build` returns exactly `Plan`, and takes exactly
    8 + 11·leafCount + 3·n draws;
  - the leaf loop succeeds exactly when every leaf's segment index is
    non-negative (`LeavesSucceed`);
  - when it succeeds, the leaves come in order and sizes descend
    (`LeavesPlaced`, `LeafSizesDescend`);
  - each floret slot is a bud exactly when i < m, at ratio i/n
    (`FloretSlots`);
  - the part tree hung below the stem matches the plan (`Grown`).

Source paths below are relative to the repository root; every source file
is under `Assets/Projects/ProceduralFlower/Scripts/`.

## Model

| member | source | states |
|---|---|---|
| CatmullRom.Loop | Assets/Projects/ProceduralFlower/Scripts/FlowerCatmullRomSpline.cs:8-17 | an index in [0, length) is unchanged; a negative index becomes length - 1; index == length becomes 0; a larger index becomes 1; the result is a valid index whenever length >= 2 |
| CatmullRom.LoopAgreesWithModNearRange | Assets/Projects/ProceduralFlower/Scripts/FlowerCatmullRomSpline.cs:8-17 | on [-1, length + 1], the only indices the callers pass, Loop is modular indexing |
| CatmullRom.LoopDiffersFromModFarOut | Assets/Projects/ProceduralFlower/Scripts/FlowerCatmullRomSpline.cs:12-13 | further out it is not: length + 2 maps to 1, not to 2 |
| CatmullRom.PositionEndpoints | Assets/Projects/ProceduralFlower/Scripts/FlowerCatmullRomSpline.cs:33-43 | the curve of a segment starts at p1 (t = 0) and ends at p2 (t = 1), whatever p0 and p3 are |
| CatmullRom.PositionConstant | Assets/Projects/ProceduralFlower/Scripts/FlowerCatmullRomSpline.cs:33-43 | four equal control points give that point for every t |
| CatmullRom.PositionScalesX | Assets/Projects/ProceduralFlower/Scripts/FlowerCatmullRomSpline.cs:33-43 | the formula is linear per coordinate: scaling the x of all four controls scales the x of the result and keeps y and z |
| CatmullRom.GetCatmullRomPositions | Assets/Projects/ProceduralFlower/Scripts/FlowerCatmullRomSpline.cs:19-31 | the loop returns max(count, 0) points; point i is the curve at i * (1 / (count - 1)); the list is `Samples` |
| CatmullRom.SamplesEndpoints | Assets/Projects/ProceduralFlower/Scripts/FlowerCatmullRomSpline.cs:19-31 | for count >= 2 the first sample is p1 and the last is p2, so consecutive segments join |
| CatmullRom.ParamAsWrittenFinite | Assets/Projects/ProceduralFlower/Scripts/FlowerCatmullRomSpline.cs:23-26 | in IEEE arithmetic the parameter i * (1f / (count - 1)) is finite and equal to the model's `Param` for every count except 1 |
| CatmullRom.SingleSampleAtNaN | Assets/Projects/ProceduralFlower/Scripts/FlowerCatmullRomSpline.cs:23-26 | for count 1 the parameter as written is NaN: 1f / 0 is infinite and 0 times it is NaN (see Findings) |
| CatmullRom.ParamInUnit | Assets/Projects/ProceduralFlower/Scripts/FlowerCatmullRomSpline.cs:23-26 | as intended, every sample parameter lies in [0, 1], and a single sample sits at 0 |
| CatmullRom.SingleSample | Assets/Projects/ProceduralFlower/Scripts/FlowerCatmullRomSpline.cs:19-31 | as intended, a single sample is the segment's start p1 |
| CatmullRom.SamplesConstant | Assets/Projects/ProceduralFlower/Scripts/FlowerCatmullRomSpline.cs:19-43 | sampling four equal points yields that point at every index |
| CatmullRom.SamplesScaleX | Assets/Projects/ProceduralFlower/Scripts/FlowerCatmullRomSpline.cs:19-43 | scaling the x of the controls scales the x of every sample; this is why the rows of a blade are scaled copies of each other |
| ControlPoints.MakeControlPoint | Assets/Projects/ProceduralFlower/Scripts/FlowerControlPoint.cs:12-16 | width and height are each clamped to [0, 1] on their own: kept when inside, 0 below, 1 above |
| Rand.DrawInUnit | Assets/Projects/ProceduralFlower/Scripts/Utils/RandomUtil.cs:15-18 | every draw of a stream lies in [0, 1) |
| Rand.RangeRealBetween | Assets/Projects/ProceduralFlower/Scripts/Utils/RandomUtil.cs:26-30 | SampleRange(a, b) on a draw in [0, 1) lies between a and b in either order, equals a for draw 0, and never equals b unless a = b |
| Rand.RangeIntBetween | Assets/Projects/ProceduralFlower/Scripts/Utils/RandomUtil.cs:20-24 | SampleRange(int a, int b) with a <= b lies in [a, b], and below b whenever a < b |
| Rand.CenteredBetween | Assets/Projects/ProceduralFlower/Scripts/Utils/RandomUtil.cs:32-45 | each coordinate (t - 0.5) * 2 of the circle and sphere samplers lies in [-1, 1) |
| Rand.UnitCircleBounds | Assets/Projects/ProceduralFlower/Scripts/Utils/RandomUtil.cs:32-37 | the circle sampler's point lies in the square [-1, 1) x [-1, 1) |
| Rand.UnitSphereBounds | Assets/Projects/ProceduralFlower/Scripts/Utils/RandomUtil.cs:39-45 | the sphere sampler's point lies in the cube [-1, 1)^3 |
| Rand.RandomUtil.constructor | Assets/Projects/ProceduralFlower/Scripts/Utils/RandomUtil.cs:10-13 | a generator starts at the beginning of its seed's stream, so equal seeds give equal draws |
| Rand.RandomUtil.Sample01 | Assets/Projects/ProceduralFlower/Scripts/Utils/RandomUtil.cs:15-18 | returns the next draw and consumes exactly one |
| Rand.RandomUtil.SampleRangeInt | Assets/Projects/ProceduralFlower/Scripts/Utils/RandomUtil.cs:20-24 | floor of Lerp(a, b, t) on one draw t; one draw consumed |
| Rand.RandomUtil.SampleRange | Assets/Projects/ProceduralFlower/Scripts/Utils/RandomUtil.cs:26-30 | Lerp(a, b, t) on one draw t; one draw consumed |
| Rand.RandomUtil.SampleUnitCircle | Assets/Projects/ProceduralFlower/Scripts/Utils/RandomUtil.cs:32-37 | x from the first draw and y from the second; two draws consumed |
| Rand.RandomUtil.SampleUnitSphere | Assets/Projects/ProceduralFlower/Scripts/Utils/RandomUtil.cs:39-45 | x, y and z from three draws in that order; three consumed |
| ShapeOutline.Mirror | Assets/Projects/ProceduralFlower/Scripts/FlowerShape.cs:22-36 | k controls give an outline of 2k + 2 points |
| ShapeOutline.MirrorShape | Assets/Projects/ProceduralFlower/Scripts/FlowerShape.cs:22-36 | the outline starts at the origin, runs up the scaled controls to the top (0, height, 0), then down their mirror images in reverse order; point 2k+2-j is point j reflected in x = 0; everything lies in z = 0 |
| ShapeOutline.GetLoopPoint | Assets/Projects/ProceduralFlower/Scripts/FlowerShape.cs:196-209 | the add-or-subtract loop returns the point at index mod the outline's length for any integer index, as a 2D vector |
| ShapeOutline.Lengths | Assets/Projects/ProceduralFlower/Scripts/FlowerShape.cs:171-186 | a half outline of k controls has k + 1 segments |
| ShapeOutline.Counts | Assets/Projects/ProceduralFlower/Scripts/FlowerShape.cs:167-189 | one sample budget per segment |
| ShapeOutline.GetCounts | Assets/Projects/ProceduralFlower/Scripts/FlowerShape.cs:167-189 | the loop's lengths and their total give floor(length / total * count) for each segment, which is `Counts` |
| ShapeOutline.LengthsWellFormed | Assets/Projects/ProceduralFlower/Scripts/FlowerShape.cs:173-186 | every segment length is non-negative and their total is positive, so the division at line 188 never divides by zero |
| ShapeOutline.SomeSegmentPositive | Assets/Projects/ProceduralFlower/Scripts/FlowerShape.cs:173-186 | some segment of a half outline is longer than zero, since it runs from the origin to (0, 1) |
| ShapeOutline.LastSegmentPositive | Assets/Projects/ProceduralFlower/Scripts/FlowerShape.cs:183 | when the last control is the origin, the closing segment to (0, 1) is positive |
| ShapeOutline.FloorSharesBelow | Assets/Projects/ProceduralFlower/Scripts/FlowerShape.cs:188 | the floored shares add up to no more than the unfloored total |
| ShapeOutline.SharesNonNegative | Assets/Projects/ProceduralFlower/Scripts/FlowerShape.cs:188 | non-negative lengths and budget give non-negative shares |
| ShapeOutline.CountsWithinBudget | Assets/Projects/ProceduralFlower/Scripts/FlowerShape.cs:167-189 | for a non-negative budget every count is non-negative and the counts add up to at most the budget |
| ShapeMesh.Rows | Assets/Projects/ProceduralFlower/Scripts/FlowerShape.cs:66-114 | the blade has 2 * resolution + 1 rows, all of the same length whatever their width ratio |
| ShapeMesh.UVRows | Assets/Projects/ProceduralFlower/Scripts/FlowerShape.cs:63-114 | one uv row per vertex row, of the same length |
| ShapeMesh.SideUVs | Assets/Projects/ProceduralFlower/Scripts/FlowerShape.cs:80 | one uv per vertex of a side row |
| ShapeMesh.MidUVs | Assets/Projects/ProceduralFlower/Scripts/FlowerShape.cs:95 | one uv per vertex of the midrib row |
| ShapeMesh.Quads | Assets/Projects/ProceduralFlower/Scripts/FlowerShape.cs:122-133 | a strip between two rows of e samples has max(e - 1, 0) quads |
| ShapeMesh.Strips | Assets/Projects/ProceduralFlower/Scripts/FlowerShape.cs:118-154 | each side has one strip per resolution step |
| ShapeMesh.DisplaceAll | Assets/Projects/ProceduralFlower/Scripts/FlowerShape.cs:156-158 | the noise moves each vertex and adds none |
| ShapeMesh.BladeMesh | Assets/Projects/ProceduralFlower/Scripts/FlowerShape.cs:38-165 | the blade fails exactly when there are no control points, with the "not enough" error |
| ShapeMesh.BuildMesh | Assets/Projects/ProceduralFlower/Scripts/FlowerShape.cs:38-165 | the method, loop by loop, returns `BladeMesh` |
| ShapeMesh.BuildRows | Assets/Projects/ProceduralFlower/Scripts/FlowerShape.cs:63-114 | the three vertex loops produce the rows in order (left edge inwards, midrib, right outwards), with their uv |
| ShapeMesh.LeftRows | Assets/Projects/ProceduralFlower/Scripts/FlowerShape.cs:66-82 | the left loop appends rows 0 to resolution - 1 |
| ShapeMesh.RightRows | Assets/Projects/ProceduralFlower/Scripts/FlowerShape.cs:98-114 | the right loop appends rows resolution + 1 to 2 * resolution after the midrib |
| ShapeMesh.SampleRow | Assets/Projects/ProceduralFlower/Scripts/FlowerShape.cs:70-81 | the inner loop gives one row: every outline segment sampled at the row's width ratio |
| ShapeMesh.SampleEdge | Assets/Projects/ProceduralFlower/Scripts/FlowerShape.cs:72-78 | one spline call on the four looped, width-scaled outline points gives max(counts[c], 0) samples |
| ShapeMesh.BuildFaces | Assets/Projects/ProceduralFlower/Scripts/FlowerShape.cs:116-154 | the two face loops give the left strips and then the right strips |
| ShapeMesh.LeftStrip | Assets/Projects/ProceduralFlower/Scripts/FlowerShape.cs:122-134 | the left inner loop gives the quads (a, b, c), (b, d, c) |
| ShapeMesh.RightStrip | Assets/Projects/ProceduralFlower/Scripts/FlowerShape.cs:141-153 | the right inner loop gives the quads (a, d, c), (b, d, a) |
| BladeProperties.SampleCountIsSum | Assets/Projects/ProceduralFlower/Scripts/FlowerShape.cs:49-50 | with no negative count, a row holds exactly countOnEdge samples, the sum of the counts |
| BladeProperties.RawSizes | Assets/Projects/ProceduralFlower/Scripts/FlowerShape.cs:63-114 | before the noise there are (2 * resolution + 1) * row length vertices, and as many uv |
| BladeProperties.TriangleCount | Assets/Projects/ProceduralFlower/Scripts/FlowerShape.cs:116-154 | the faces hold 12 * resolution * max(countOnEdge - 1, 0) indices |
| BladeProperties.BladeSizes | Assets/Projects/ProceduralFlower/Scripts/FlowerShape.cs:38-165 | the blade has (2 * max(1, resolution) + 1) * row length vertices, one uv per vertex, and 12 * max(1, resolution) * max(countOnEdge - 1, 0) triangle indices |
| BladeProperties.BladeOf | Assets/Projects/ProceduralFlower/Scripts/FlowerShape.cs:38-165 | the blade is the noised rows, their uv and the two sides' strips, with resolution clamped to at least 1 and the noise offset shifted by (size, size) |
| BladeProperties.BladeFields | Assets/Projects/ProceduralFlower/Scripts/FlowerShape.cs:38-165 | BladeOf, field by field |
| BladeProperties.StripBounds | Assets/Projects/ProceduralFlower/Scripts/FlowerShape.cs:118-154 | every index in a strip lies between the strip's first row and the end of the next row |
| BladeProperties.SideInRange | Assets/Projects/ProceduralFlower/Scripts/FlowerShape.cs:118-154 | every index of either side lies below (2 * resolution + 1) * countOnEdge |
| BladeProperties.TrianglesInRange | Assets/Projects/ProceduralFlower/Scripts/FlowerShape.cs:116-154 | every triangle index lies in [0, (2 * resolution + 1) * countOnEdge) |
| BladeProperties.BladeTrianglesInRange | Assets/Projects/ProceduralFlower/Scripts/FlowerShape.cs:38-165 | for a non-negative vertex budget, every triangle index of the blade names one of its vertices |
| BladeProperties.EdgeControlScales | Assets/Projects/ProceduralFlower/Scripts/FlowerShape.cs:191-194 | GetEdge at ratio r is the full-width point with x scaled by r |
| BladeProperties.RowScales | Assets/Projects/ProceduralFlower/Scripts/FlowerShape.cs:66-114 | every row is the full-width row with its x scaled by the row's ratio |
| BladeProperties.MirrorRowRatio | Assets/Projects/ProceduralFlower/Scripts/FlowerShape.cs:66-114 | right row 2 * resolution - i has the negated ratio of left row i |
| BladeProperties.RowMirror | Assets/Projects/ProceduralFlower/Scripts/FlowerShape.cs:66-114 | sample q of row 2 * resolution - i is sample q of row i reflected in x = 0; the midrib has x = 0 |
| BladeProperties.UVRowMirror | Assets/Projects/ProceduralFlower/Scripts/FlowerShape.cs:63-114 | the uv of mirrored samples are mirrored in u, and the midrib's u is 0 |
| BladeProperties.BladeMirror | Assets/Projects/ProceduralFlower/Scripts/FlowerShape.cs:38-165 | the finished blade is symmetric about its midrib in x and y, and so are its uv; the noise moves vertices along z only |
| BladeProperties.BladeFlatWithoutNoise | Assets/Projects/ProceduralFlower/Scripts/FlowerShape.cs:156-158 | with noiseDepth 0 the vertices are the raw rows and all lie in z = 0 |
| StemMesh.Extend | Assets/Projects/ProceduralFlower/Scripts/FlowerStem.cs:53-60 | the copied controls gain a phantom point a quarter unit beyond each end, and the controls between are unchanged |
| StemMesh.CorePieces | Assets/Projects/ProceduralFlower/Scripts/FlowerStem.cs:62-69 | one spline window per control gap |
| StemMesh.Circle | Assets/Projects/ProceduralFlower/Scripts/FlowerStem.cs:77-84 | the circle has max(wResolution, 0) points |
| StemMesh.Ring | Assets/Projects/ProceduralFlower/Scripts/FlowerStem.cs:182-199 | AddCircle adds one vertex per circle point |
| StemMesh.StemRing | Assets/Projects/ProceduralFlower/Scripts/FlowerStem.cs:116-153 | the ring at each core has one vertex per circle point |
| StemMesh.VertexBlocks | Assets/Projects/ProceduralFlower/Scripts/FlowerStem.cs:86-169 | the main loop adds one block of vertices per core |
| StemMesh.UVRing | Assets/Projects/ProceduralFlower/Scripts/FlowerStem.cs:128-168 | a ring's uv has one entry per side |
| StemMesh.UVBlocks | Assets/Projects/ProceduralFlower/Scripts/FlowerStem.cs:92-170 | one block of uv per core |
| StemMesh.BottomFan | Assets/Projects/ProceduralFlower/Scripts/FlowerStem.cs:100-105 | the bottom fan has one triangle per side |
| StemMesh.BandQuads | Assets/Projects/ProceduralFlower/Scripts/FlowerStem.cs:128-140 | a band has one quad per side |
| StemMesh.TopFan | Assets/Projects/ProceduralFlower/Scripts/FlowerStem.cs:160-165 | the top fan has one triangle per side |
| StemMesh.TriBlocks | Assets/Projects/ProceduralFlower/Scripts/FlowerStem.cs:92-170 | one block of triangles per core |
| StemMesh.StemSegments | Assets/Projects/ProceduralFlower/Scripts/FlowerStem.cs:116-126 | there is one segment per core but the last, and segment i sits at core i |
| StemMesh.StemTip | Assets/Projects/ProceduralFlower/Scripts/FlowerStem.cs:145-154 | the tip sits at the last core |
| StemProperties.CoreCount | Assets/Projects/ProceduralFlower/Scripts/FlowerStem.cs:62-69 | k controls and hResolution h give 1 + (k - 1) * (h - 1) cores, so at least two exactly when h >= 2 |
| StemProperties.CoresThroughControls | Assets/Projects/ProceduralFlower/Scripts/FlowerStem.cs:56-69 | the stem passes through every control: control j is core j * (h - 1), so it starts at the first control and ends at the last |
| StemProperties.FirstRingUnturned | Assets/Projects/ProceduralFlower/Scripts/FlowerStem.cs:87-123 | the first ring is never turned half round; its rotation is LookRotation of the first direction |
| StemProperties.InverseToggles | Assets/Projects/ProceduralFlower/Scripts/FlowerStem.cs:116-151 | from one ring to the next, `inverse` changes exactly when their right vectors point apart (negative dot product) |
| StemProperties.NoFlipNoTurn | Assets/Projects/ProceduralFlower/Scripts/FlowerStem.cs:116-153 | while no two neighbouring right vectors point apart, every ring uses plain LookRotation |
| StemProperties.VerticesAreRings | Assets/Projects/ProceduralFlower/Scripts/FlowerStem.cs:86-169 | after the first core, the vertices are the rings in core order, then the last core |
| StemProperties.StemVertexCount | Assets/Projects/ProceduralFlower/Scripts/FlowerStem.cs:86-172 | a stem of n cores and a circle of c points has n * c + 2 vertices; the first is the first core and the last is the last core |
| StemProperties.StemRingVertex | Assets/Projects/ProceduralFlower/Scripts/FlowerStem.cs:182-199 | with a circle of c points, vertex 1 + i * c + j is circle point j scaled by f(v), turned by ring i's rotation and moved to core i |
| StemProperties.UVAreRings | Assets/Projects/ProceduralFlower/Scripts/FlowerStem.cs:92-170 | the uv are (0.5, 0), the rings but the last, (0.5, 1), then the last ring |
| StemProperties.LastRingParam | Assets/Projects/ProceduralFlower/Scripts/FlowerStem.cs:95 | the last core is at v = 1 |
| StemProperties.StemUVCount | Assets/Projects/ProceduralFlower/Scripts/FlowerStem.cs:92-173 | there are as many uv as vertices, (0.5, 0) first and (0.5, 1) just before the last ring's |
| StemProperties.StemUVRing | Assets/Projects/ProceduralFlower/Scripts/FlowerStem.cs:141-167 | the uv of ring i, side j is (j / (wResolution - 1), v_i); the last ring's sits one place later |
| StemProperties.FanLengths | Assets/Projects/ProceduralFlower/Scripts/FlowerStem.cs:100-168 | each fan holds 3 * wResolution indices and each band 6 * wResolution |
| StemProperties.StemTriangleCount | Assets/Projects/ProceduralFlower/Scripts/FlowerStem.cs:92-170 | a stem of n cores has 6 * n * wResolution triangle indices |
| StemProperties.StemTrianglesInRange | Assets/Projects/ProceduralFlower/Scripts/FlowerStem.cs:92-174 | every triangle index names one of the n * wResolution + 2 vertices |
| StemProperties.StemMeshWellFormed | Assets/Projects/ProceduralFlower/Scripts/FlowerStem.cs:51-180 | the built mesh has the vertex and uv counts above, the first and last cores at its ends, and every triangle index in range |
| Stem.SampleCores | Assets/Projects/ProceduralFlower/Scripts/FlowerStem.cs:62-69 | the core loop returns the cores for h >= 1; for h <= 0 the empty second window's RemoveAt(0) fails |
| Stem.MakeCircle | Assets/Projects/ProceduralFlower/Scripts/FlowerStem.cs:77-84 | the circle loop gives point i at angle i / wResolution of a full turn, scaled by radius, in z = 0 |
| Stem.AddCircle | Assets/Projects/ProceduralFlower/Scripts/FlowerStem.cs:182-199 | the rotation is LookRotation(dir), turned 180 degrees about dir when inverse; the circle, scaled by radius, turned and moved to the core, is appended |
| Stem.AddBottomCap | Assets/Projects/ProceduralFlower/Scripts/FlowerStem.cs:100-105 | the loop appends the bottom fan |
| Stem.AddBand | Assets/Projects/ProceduralFlower/Scripts/FlowerStem.cs:128-143 | the loop appends a band and a ring of uv |
| Stem.AddTopCap | Assets/Projects/ProceduralFlower/Scripts/FlowerStem.cs:160-168 | the loop appends the top fan and the last ring's uv |
| Stem.FirstCore | Assets/Projects/ProceduralFlower/Scripts/FlowerStem.cs:97-112 | core 0 adds the bottom fan and uv (0.5, 0), and seeds `right` from the first direction |
| Stem.TurnedRing | Assets/Projects/ProceduralFlower/Scripts/FlowerStem.cs:116-123 | the flip test then AddCircle give ring i with its `inverse` flag and rotation |
| Stem.InnerCore | Assets/Projects/ProceduralFlower/Scripts/FlowerStem.cs:116-144 | a core before the last adds its ring, the band to the next ring and its uv, and hands on `right` |
| Stem.RingBand | Assets/Projects/ProceduralFlower/Scripts/FlowerStem.cs:114-143 | the band from ring i starts at vertex i * wResolution + 1 |
| Stem.LastRing | Assets/Projects/ProceduralFlower/Scripts/FlowerStem.cs:145-157 | the last core adds its ring and then itself as the top vertex |
| Stem.LastCap | Assets/Projects/ProceduralFlower/Scripts/FlowerStem.cs:156-168 | the top fan goes round the top vertex, with uv (0.5, 1) before the last ring's |
| Stem.CoreStep | Assets/Projects/ProceduralFlower/Scripts/FlowerStem.cs:92-170 | one pass of the main loop appends core i's block to every list |
| Stem.FirstStep | Assets/Projects/ProceduralFlower/Scripts/FlowerStem.cs:97-144 | the pass for core 0 |
| Stem.MiddleStep | Assets/Projects/ProceduralFlower/Scripts/FlowerStem.cs:116-144 | the pass for a core strictly between the first and the last |
| Stem.LastStep | Assets/Projects/ProceduralFlower/Scripts/FlowerStem.cs:145-169 | the pass for the last core |
| Stem.StemDone | Assets/Projects/ProceduralFlower/Scripts/FlowerStem.cs:92-179 | after the last core the lists are the mesh of the cores and the segments are `StemSegments` |
| Stem.FlowerStem.constructor | Assets/Projects/ProceduralFlower/Scripts/FlowerStem.cs:22-29 | defaults: hResolution 4, radius 0.05, wResolution 10; no segments and no tip |
| Stem.FlowerStem.WithResolution | Assets/Projects/ProceduralFlower/Scripts/FlowerStem.cs:31-36 | the arguments in the order (hResolution, wResolution, radius) |
| Stem.FlowerStem.Build | Assets/Projects/ProceduralFlower/Scripts/FlowerStem.cs:41-44 | build with the stem's own settings and radius factor 1. Fewer than 4 controls fail with "not enough" and h <= 0 fails with an index error, both before any state changes. A single core (h = 1) fails after the segments are cleared. Otherwise the result is the mesh, the segments and the tip of the cores |
| Stem.FlowerStem.BuildWith | Assets/Projects/ProceduralFlower/Scripts/FlowerStem.cs:46-49 | the same, with the radius at v scaled by f(v) |
| Stem.FlowerStem.BuildStem | Assets/Projects/ProceduralFlower/Scripts/FlowerStem.cs:51-180 | the private Build: the outcomes above, for any w, h and radius |
| Stem.FlowerStem.BuildRings | Assets/Projects/ProceduralFlower/Scripts/FlowerStem.cs:86-179 | the main loop from an empty segment list gives the stem mesh of the cores, one segment per core but the last, and the tip at the last core |
| Stem.BuiltStemWellFormed | Assets/Projects/ProceduralFlower/Scripts/FlowerStem.cs:51-180 | a stem built from at least 4 controls with h >= 2 is a well-formed mesh from the first control to the last, with a segment per core but the last |
| Part.Started | Assets/Projects/ProceduralFlower/Scripts/FlowerPart.cs:103-108 | Animate(s) runs the part from ticker 0 at speed s and keeps the multiplier |
| Part.AdvanceEffect | Assets/Projects/ProceduralFlower/Scripts/FlowerPart.cs:54-62 | a frame leaves a stopped part alone; a running part's ticker grows by dt * multiplier * speed, and it keeps running exactly while the ticker is at most 1 + Epsilon |
| Part.StaysStopped | Assets/Projects/ProceduralFlower/Scripts/FlowerPart.cs:54-62 | once stopped, a part stays stopped and unchanged, whatever the frames |
| Part.EventuallyStops | Assets/Projects/ProceduralFlower/Scripts/FlowerPart.cs:54-62 | a running part whose ticker grows by at least step > 0 a frame has stopped after more than (1 + Epsilon - ticker) / step frames |
| Part.RestartWindow | Assets/Projects/ProceduralFlower/Scripts/FlowerPart.cs:124-127 | an edge restarted at some ticker is restarted at every smaller one, and an edge with a larger ratio is restarted whenever one with a smaller ratio is |
| Part.FlowerSegment.constructor | Assets/Projects/ProceduralFlower/Scripts/FlowerPart.cs:118-122 | an edge to part p at ratio r |
| Part.FlowerSegment.Animate | Assets/Projects/ProceduralFlower/Scripts/FlowerPart.cs:124-127 | restarts the part at the parent's speed exactly when r <= Ratio; otherwise the part is unchanged |
| Part.FlowerPart.constructor | Assets/Projects/ProceduralFlower/Scripts/FlowerPart.cs:21-30 | a new component: no children, type None, stopped, ticker 0, speed and multiplier 1, empty property block |
| Part.FlowerPart.Update | Assets/Projects/ProceduralFlower/Scripts/FlowerPart.cs:54-62 | one frame: the part advances as AdvanceEffect says; a running part that is not None writes its new ticker to `_T`; every child part reached by an edge whose ratio the new ticker has not passed is restarted, and the others are unchanged |
| Part.FlowerPart.RestartedStep | Assets/Projects/ProceduralFlower/Scripts/FlowerPart.cs:60 | the children loop restarts p after k + 1 edges exactly when it did after k or edge k restarts p |
| Part.FlowerPart.SetType | Assets/Projects/ProceduralFlower/Scripts/FlowerPart.cs:64-67 | only the type changes |
| Part.FlowerPart.Colorize | Assets/Projects/ProceduralFlower/Scripts/FlowerPart.cs:69-75 | a None part is unchanged; any other writes `_Color2` and nothing else |
| Part.FlowerPart.Bend | Assets/Projects/ProceduralFlower/Scripts/FlowerPart.cs:77-83 | a None part is unchanged; any other writes `_Bend` and nothing else |
| Part.FlowerPart.Fade | Assets/Projects/ProceduralFlower/Scripts/FlowerPart.cs:85-91 | a None part is unchanged; any other writes `_T` and nothing else |
| Part.FlowerPart.SetSpeed | Assets/Projects/ProceduralFlower/Scripts/FlowerPart.cs:93-96 | only the speed multiplier changes |
| Part.FlowerPart.Add | Assets/Projects/ProceduralFlower/Scripts/FlowerPart.cs:98-101 | a new edge to the part at the ratio comes after the existing ones, which are kept in order |
| Part.FlowerPart.Animate | Assets/Projects/ProceduralFlower/Scripts/FlowerPart.cs:103-108 | speed s, running, ticker 0; nothing else changes |
| Assembly.Controls | Assets/Projects/ProceduralFlower/Scripts/FlowerData.cs:183-195 | GetControls yields max(4, count) controls, control i from draws p + 2i and p + 2i + 1 |
| Assembly.ControlsHeights | Assets/Projects/ProceduralFlower/Scripts/FlowerData.cs:183-195 | the controls climb evenly from height 0 to `height` |
| Assembly.ControlsWithinRadius | Assets/Projects/ProceduralFlower/Scripts/FlowerData.cs:183-195 | with draws in [0, 1) and a non-negative radius, every control lies within the radius of the axis in x and z |
| Assembly.LeafRatiosIncrease | Assets/Projects/ProceduralFlower/Scripts/FlowerData.cs:42 | leaf ratios (i + 1) / (leafCount + 1) climb strictly and stay inside (0, 1) |
| Assembly.LeafIndexBounds | Assets/Projects/ProceduralFlower/Scripts/FlowerData.cs:35-45 | a leaf's segment index is at most count - 2, so the segment after it exists; with 0 <= range.x <= range.y and at least two segments it is non-negative |
| Assembly.StalkBuilds | Assets/Projects/ProceduralFlower/Scripts/FlowerData.cs:162-166 | a leaf's stalk on four controls, FlowerStem(10, 2, 0.01), always builds and has a tip |
| Assembly.BladeAtStalkTop | Assets/Projects/ProceduralFlower/Scripts/FlowerData.cs:162-173 | the stalk's controls have radius 0, so its tip, where the blade sits, is (0, 0.05, 0) |
| Assembly.LeavesShape | Assets/Projects/ProceduralFlower/Scripts/FlowerData.cs:40-56 | LeavesSucceed and LeavesPlaced together |
| Assembly.LeavesSucceed | Assets/Projects/ProceduralFlower/Scripts/FlowerData.cs:40-56 | the leaf loop succeeds exactly when no leaf's segment index is negative |
| Assembly.LeavesPlaced | Assets/Projects/ProceduralFlower/Scripts/FlowerData.cs:40-56 | a successful loop gives k leaves in order; leaf i has ratio (i + 1) / (leafCount + 1), hangs from its segment and takes draws p + 11i to p + 11i + 10 |
| Assembly.LeafSizesDescend | Assets/Projects/ProceduralFlower/Scripts/FlowerData.cs:38-52 | with draws in [0, 1), lower leaves are bigger: each size lies in [1 - ratio / 2, 1] and is at most the one before |
| Assembly.LeafStep | Assets/Projects/ProceduralFlower/Scripts/FlowerData.cs:40-56 | a run of k leaves is the run of k - 1 leaves plus one, whose size is SampleRange(previous size, 1 - ratio / 2) on that leaf's last draw |
| Assembly.SizeStep | Assets/Projects/ProceduralFlower/Scripts/FlowerData.cs:51 | one more leaf keeps the sizes descending |
| Assembly.LeafScaleInRange | Assets/Projects/ProceduralFlower/Scripts/FlowerData.cs:52 | every leaf's scale factor lies within leafScaleRange |
| Assembly.LeafScaleStep | Assets/Projects/ProceduralFlower/Scripts/FlowerData.cs:52 | a leaf's scale is Lerp over leafScaleRange at its size |
| Assembly.LeavesNext | Assets/Projects/ProceduralFlower/Scripts/FlowerData.cs:40-56 | a leaf with a non-negative index extends the run by LeafAt on the previous size |
| Assembly.LeavesFail | Assets/Projects/ProceduralFlower/Scripts/FlowerData.cs:43-44 | once a leaf's index is negative, the loop fails for good with an index error |
| Assembly.FloretPosition | Assets/Projects/ProceduralFlower/Scripts/FlowerData.cs:223-229 | floret n of the spiral lies in the plane y = 0 |
| Assembly.Florets | Assets/Projects/ProceduralFlower/Scripts/FlowerData.cs:80-113 | the head has max(n, 0) floret slots |
| Assembly.FloretsNext | Assets/Projects/ProceduralFlower/Scripts/FlowerData.cs:81-113 | slot i, from draw p + 3i, extends the florets of the slots before it |
| Assembly.FloretsComplete | Assets/Projects/ProceduralFlower/Scripts/FlowerData.cs:81-113 | all n slots drawn in order are `Florets` |
| Assembly.FloretSlots | Assets/Projects/ProceduralFlower/Scripts/FlowerData.cs:80-104 | slot i is a bud exactly when i < m; its ratio is i / n in [0, 1) and it bends by 1 - i / n; it is scaled by (1 + max(min, the position's magnitude)) * scale, times 0.75 for a bud; it shows the initial fade |
| Assembly.PlanStemFails | Assets/Projects/ProceduralFlower/Scripts/FlowerData.cs:31-32 | a main stem with hResolution below 2 makes Build fail with an index error |
| Assembly.PlanBuilt | Assets/Projects/ProceduralFlower/Scripts/FlowerData.cs:22-67 | with hResolution 2 or more the main stem has two cores or more, and Build's outcome is the leaf loop's and then the florets' |
| Assembly.FadeBlock | Assets/Projects/ProceduralFlower/Scripts/FlowerData.cs:140-142 | a new part shows `_T` = 1 + Epsilon when visible and 0 otherwise, unless its type is None |
| Assembly.FloretBlock | Assets/Projects/ProceduralFlower/Scripts/FlowerData.cs:101-104 | a floret's block holds its fade, colour and bend |
| Assembly.FlowerData.constructor | Assets/Projects/ProceduralFlower/Scripts/FlowerData.cs:16-207 | the asset's defaults: height 2, 6 leaves, scale range (0.2, 0.825), segment range (0.2, 0.92); a head of c 0.01, n 70, m 8, scale 0.328, min 0.1, angle 87, angleScale 0.92, offset 0 |
| Assembly.FlowerData.GetControls | Assets/Projects/ProceduralFlower/Scripts/FlowerData.cs:183-195 | the loop returns `Controls` and takes two draws per control |
| Assembly.FlowerData.CreateBase | Assets/Projects/ProceduralFlower/Scripts/FlowerData.cs:129-145 | a new part of the given type, stopped, with no children, showing the initial fade |
| Assembly.FlowerData.CreateStem | Assets/Projects/ProceduralFlower/Scripts/FlowerData.cs:153-160 | four controls on 8 draws, the stem built on them with Build's outcomes, and a Stover part exactly when the stem builds |
| Assembly.FlowerData.CreateLeaf | Assets/Projects/ProceduralFlower/Scripts/FlowerData.cs:162-181 | a stalk on 8 draws, the blade's tilt on the 9th, the blade at the stalk's tip (0, 0.05, 0), speed multiplier 5, and the blade as the only child at ratio 1 |
| Assembly.FlowerData.DrawLeaf | Assets/Projects/ProceduralFlower/Scripts/FlowerData.cs:47-51 | the eleven draws of a leaf, in order: the turn SampleRange(-20, 20), the stalk, the tilt, then the size |
| Assembly.FlowerData.HangLeaf | Assets/Projects/ProceduralFlower/Scripts/FlowerData.cs:40-56 | leaf i is `LeafAt` on its draws and is added to the stem part at its ratio, after the existing children |
| Assembly.FlowerData.NextLeaf | Assets/Projects/ProceduralFlower/Scripts/FlowerData.cs:40-56 | one pass of the leaf loop extends the edges and plans in step |
| Assembly.FlowerData.LeafTurn | Assets/Projects/ProceduralFlower/Scripts/FlowerData.cs:40-56 | a pass fails exactly as the whole loop does, with an index error, or keeps the loop's invariant |
| Assembly.FlowerData.AddLeaves | Assets/Projects/ProceduralFlower/Scripts/FlowerData.cs:35-56 | the leaf loop returns `Leaves`; when it succeeds it has taken 11 draws per leaf and hung one edge per leaf at its ratio, in order |
| Assembly.FlowerData.DrawColor | Assets/Projects/ProceduralFlower/Scripts/FlowerData.cs:101-102 | a floret's red, green and blue each come from SampleRange(0.5, 1), in that order; alpha 1 |
| Assembly.FlowerData.PaintFloret | Assets/Projects/ProceduralFlower/Scripts/FlowerData.cs:91-104 | a Petal part with the colour, bend and fade written |
| Assembly.FlowerData.AddFloret | Assets/Projects/ProceduralFlower/Scripts/FlowerData.cs:83-112 | slot i is `FloretAt` on its three draws and is added to the head at its ratio, after the existing children |
| Assembly.FlowerData.NextFloret | Assets/Projects/ProceduralFlower/Scripts/FlowerData.cs:81-113 | one pass of the floret loop extends the edges and plans in step |
| Assembly.FlowerData.CreateFlower | Assets/Projects/ProceduralFlower/Scripts/FlowerData.cs:69-127 | a stopped head of type None whose children are the n florets in slot order, on 3 draws each |
| Assembly.FlowerData.CreateMainStem | Assets/Projects/ProceduralFlower/Scripts/FlowerData.cs:31-33 | the main stem takes 8 draws and builds exactly when hResolution >= 2, with one segment per core but the last and a tip |
| Assembly.FlowerData.Grow | Assets/Projects/ProceduralFlower/Scripts/FlowerData.cs:35-64 | after the stem: the leaf loop, then the head on the next 3n draws, added at ratio 1 after the leaves |
| Assembly.FlowerData.Flourish | Assets/Projects/ProceduralFlower/Scripts/FlowerData.cs:35-64 | the same, from draw 8, as `GrowthPlan` |
| Assembly.FlowerData.Build | Assets/Projects/ProceduralFlower/Scripts/FlowerData.cs:22-67 | a generator made from the seed, then the plan of the seed's stream. It fails exactly when `Plan` does. On success it has taken 8 + 11 * leafCount + 3 * n draws, the stem's segments and tip are the plan's, and the part tree is `Grown`: the leaves in order, then the head at ratio 1 with its florets |

## Left out

- CatmullRom.GetCatmullRomPositions: at count 1 the source computes 1f / 0 = +infinity and 0 * infinity = NaN, so its single point is NaN. The model divides through `Div`, which yields 0 for a zero divisor, so its single point is p1, the evidently intended value. `ParamAsWritten` and `SingleSampleAtNaN` state the IEEE behaviour (see Findings).
- ShapeMesh.BuildMesh: follows GetCatmullRomPositions. A segment whose count floors to 1 gives the source a NaN vertex and a NaN uv; the model gives the segment's start.
- ShapeMesh.SideUVs and ShapeMesh.MidUVs: at size 0 the source's v.x / size and v.y / size are infinite or NaN; the model's `Div` yields 0.
- StemMesh.UVRing: at wResolution 1 the source's u = 0f / 0 is NaN (FlowerStem.cs:141 and :166); the model's `Div` yields 0.
- Assembly.SlotRatio: at n 0 the source's 1f / n is infinite; the model's `Div` yields 0. No floret slot exists then, so nothing observable differs.
- Floating point in general: every float is a real. Rounding, overflow and the single-precision casts are not modelled. 32-bit integer overflow (for example in i * countOnEdge) is not modelled either.
- Rand.UnitStream: `(float)_rnd.NextDouble()` (RandomUtil.cs:17) can round a double just below 1 up to 1.0f. The model takes every draw in [0, 1) instead.
- Rand.RangeRealBetween: its "never b unless a = b" clause rests on UnitStream's [0, 1) and fails for a draw rounded to 1.0f.
- Rand.RangeIntBetween: its "below b" clause rests on UnitStream's [0, 1) in the same way.
- Rand.RandomUtil.constructor: System.Random's algorithm is not modelled. The seed selects a stream through a function given as a parameter.
- UnityMath.ValidEnv: Mathf.Sqrt, Mathf.Cos, Mathf.Sin, Mathf.PerlinNoise, Quaternion.LookRotation, Quaternion.AngleAxis and quaternion products are uninterpreted functions of an `Env`. The one fact assumed of them is that a 2D vector's magnitude is zero only for the zero vector. `ShapeOutline.GetCounts` and `ShapeMesh.BuildMesh` require it.
- Part.FlowerPart.Update: Time.deltaTime is the parameter `dt`. The MaterialPropertyBlock and the renderer's copy of it are one map from shader property to value, so the lazy creation of the block and `GetPropertyBlock` are not modelled.
- Part.FlowerPart.Update: requires that a part is not its own child. A part whose child edge leads back to itself restarts itself within its own frame; that aliasing is not modelled.
- Part.FlowerPart.RestartedBy: a child is restarted on every frame while the parent's ticker is at most the edge's ratio, not once. `FlowerSegment._animating` is never set, so the guard at FlowerPart.cs:126 never stops a restart. The model follows the code, not a fire-once reading of the edges.
- Scene work: GameObjects, names, transforms (SetParent, localPosition, localRotation, localScale), MeshFilter and MeshRenderer set-up, materials, shadow settings, Destroy and DestroyImmediate, and Mesh.RecalculateBounds and RecalculateNormals. Where a transform value depends on the generator, `LeafPlan` and `FloretPlan` record it: a leaf's anchor, direction, turn, tilt and scale, and a floret's position, rotation and scale.
- Assembly.FlowerData.Build: the head's final transform (FlowerData.cs:59-62, the tip's position and its rotation composed with FromToRotation) is not computed; the plan carries the tip it comes from.
- Assembly.FlowerData.PaintFloret: `Instantiate(bud)` and `Instantiate(petal)` are modelled as fresh Petal parts made by CreateBase. The template meshes (budData and petalData) are not carried.
- ShapeData.Init and StemData.Init are not modelled. `FlowerData.Build` takes the already-made main stem. StemData.cs:19 calls `new FlowerStem(wResolution, hResolution, radius)`, whose parameters are (hResolution, wResolution, radius), so the two resolutions are swapped. That swap belongs to the caller that makes the stem.
- The parameterless `FlowerShape.BuildMesh()` (FlowerShape.cs:17-20) only forwards the asset's fields; the model states the static BuildMesh.
- ShapeOutline.GetLoopPoint: requires a non-empty outline. On an empty list the source loops forever (FlowerShape.cs:198-208). The outlines BuildMesh passes always hold at least four points.
- Errors: UnityException ("control points size is not enough" and "control size is not enough") becomes `InsufficientControlPoints`. ArgumentOutOfRangeException from an unguarded list index becomes `IndexOutOfRange`. A failed build returns the error instead of throwing. The state left behind by a throw part-way through FlowerData.Build (earlier leaves already hung, draws already taken) is not stated.
- FlowerCombine, the editor windows and inspectors, the demo components and FlowerLeaf are not part of this model.

## Findings

| source | as written | input that shows it | evidently intended | confidence | as-written member | corrected member |
|---|---|---|---|---|---|---|
| Assets/Projects/ProceduralFlower/Scripts/FlowerCatmullRomSpline.cs:23-26 | `inv = 1f / (count - 1)` is +infinity when count is 1, and the one sample's parameter `0 * inv` is NaN, so the point returned is NaN | count = 1. BuildMesh reaches it whenever GetCounts floors a segment's share to 1. For example: size 1, controls [(0.05, 0.1), (0.5, 0.5)] and the default budget of 20 give counts [1, 8, 9], so every row starts with a NaN vertex and a NaN uv | a single sample is the segment's start p1, with every parameter in [0, 1] | not executed | CatmullRom.SingleSampleAtNaN | CatmullRom.SingleSample |
