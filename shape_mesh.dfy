/** FlowerShape.BuildMesh: a blade mesh made of 2 * resolution + 1 rows
    (the left side from the outer edge inwards, the midrib, the right side
    from the midrib outwards), each row a Catmull-Rom sampling of the
    outline scaled in width, joined by strips of quads and displaced along
    z by Perlin noise. */
module ShapeMesh {
  import opened UnityMath
  import opened ControlPoints
  import opened ShapeOutline
  import opened CatmullRom
  import opened Blocks
  import opened Errors

  // ---------------------------------------------------------------------
  // Rows

  /** A control point of a row segment: the outline point at `index`
      (wrapping around), its width scaled by `ratio`, lifted to 3D. */
  function EdgeControl(points: seq<Vec3>, index: int, ratio: real): Vec3
    requires |points| > 0
  {
    Lift(GetEdge(LoopPoint(points, index), ratio))
  }

  /** Outline segment c of a row: counts[c] samples of the Catmull-Rom
      segment between outline points c and c + 1. */
  function Segment(points: seq<Vec3>, counts: seq<int>, c: int, ratio: real): seq<Vec3>
    requires |points| > 0 && 0 <= c < |counts|
  {
    Samples(counts[c], EdgeControl(points, c - 1, ratio), EdgeControl(points, c, ratio),
            EdgeControl(points, c + 1, ratio), EdgeControl(points, c + 2, ratio))
  }

  /** The number of samples a row holds: a negative count yields none. */
  function SampleCount(counts: seq<int>): (n: int)
    ensures n >= 0
  {
    if counts == [] then 0 else SampleCount(counts[..|counts| - 1]) + Max(counts[|counts| - 1], 0)
  }

  /** The first c segments of a row, in order. */
  function RowPrefix(points: seq<Vec3>, counts: seq<int>, ratio: real, c: int): (r: seq<Vec3>)
    requires |points| > 0 && 0 <= c <= |counts|
    ensures |r| == SampleCount(counts[..c])
  {
    if c == 0 then []
    else
      assert counts[..c][..c - 1] == counts[..c - 1];
      RowPrefix(points, counts, ratio, c - 1) + Segment(points, counts, c - 1, ratio)
  }

  /** A whole row; every row has the same length, whatever its ratio. */
  function Row(points: seq<Vec3>, counts: seq<int>, ratio: real): (r: seq<Vec3>)
    requires |points| > 0
    ensures |r| == SampleCount(counts)
  {
    assert counts[..|counts|] == counts;
    RowPrefix(points, counts, ratio, |counts|)
  }

  /** Left row i has ratio (resolution - i) / resolution: 1 at the edge,
      falling towards the midrib; right row i has ratio -(i + 1) / resolution. */
  function LeftRatio(i: int, resolution: int): real
    requires resolution > 0
  {
    ((resolution - i) as real) / (resolution as real)
  }

  function RightRatio(i: int, resolution: int): real
    requires resolution > 0
  {
    (-(i + 1) as real) / (resolution as real)
  }

  /** The width ratio of mesh row k: the left rows, the midrib (ratio 0),
      the right rows. */
  function RowRatio(k: int, resolution: int): real
    requires resolution > 0
  {
    if k < resolution then LeftRatio(k, resolution)
    else if k == resolution then 0.0
    else RightRatio(k - resolution - 1, resolution)
  }

  /** All 2 * resolution + 1 rows, in the order BuildMesh appends them. */
  function Rows(points: seq<Vec3>, counts: seq<int>, resolution: int): (rows: seq<seq<Vec3>>)
    requires |points| > 0 && resolution > 0
    ensures |rows| == 2 * resolution + 1
    ensures forall k :: 0 <= k < |rows| ==> |rows[k]| == SampleCount(counts)
  {
    seq(2 * resolution + 1, k requires 0 <= k < 2 * resolution + 1 => Row(points, counts, RowRatio(k, resolution)))
  }

  /** Texture coordinates of a side row: the position divided by the size. */
  function SideUVs(vs: seq<Vec3>, size: real): (r: seq<Vec2>)
    ensures |r| == |vs|
  {
    seq(|vs|, i requires 0 <= i < |vs| => Vec2(Div(vs[i].x, size), Div(vs[i].y, size)))
  }

  /** Texture coordinates of the midrib: u is 0. */
  function MidUVs(vs: seq<Vec3>, size: real): (r: seq<Vec2>)
    ensures |r| == |vs|
  {
    seq(|vs|, i requires 0 <= i < |vs| => Vec2(0.0, Div(vs[i].y, size)))
  }

  /** The uv rows of the vertex rows: the midrib row (row resolution) has
      u = 0. */
  function UVRows(rows: seq<seq<Vec3>>, resolution: int, size: real): (uvRows: seq<seq<Vec2>>)
    ensures |uvRows| == |rows|
    ensures forall k :: 0 <= k < |rows| ==> |uvRows[k]| == |rows[k]|
  {
    seq(|rows|, k requires 0 <= k < |rows| =>
          if k == resolution then MidUVs(rows[k], size) else SideUVs(rows[k], size))
  }

  // ---------------------------------------------------------------------
  // Faces

  /** The two triangles of the quad whose first vertex is a, in rows of
      length e: the left side winds (a, b, c), (b, d, c), the right side
      (a, d, c), (b, d, a), with b = a + 1, c = a + e, d = b + e. */
  function Quad(a: int, e: int, left: bool): seq<int> {
    if left then [a, a + 1, a + e, a + 1, a + 1 + e, a + e]
    else [a, a + 1 + e, a + e, a + 1, a + 1 + e, a]
  }

  /** The quads of the strip joining the row at `offset` to the next one. */
  function Quads(offset: int, e: int, left: bool): (r: seq<seq<int>>)
    ensures |r| == Max(e - 1, 0)
  {
    seq(Max(e - 1, 0), j requires 0 <= j < Max(e - 1, 0) => Quad(offset + j, e, left))
  }

  /** Where strip i starts: the left strips join rows i and i + 1, the
      right strips rows resolution + i and resolution + i + 1. */
  function StripOffset(i: int, e: int, resolution: int, left: bool): int {
    if left then i * e else (i + resolution) * e
  }

  /** The strips of one side. */
  function Strips(e: int, resolution: nat, left: bool): (r: seq<seq<int>>)
    ensures |r| == resolution
  {
    seq(resolution, i requires 0 <= i < resolution => Concat(Quads(StripOffset(i, e, resolution, left), e, left)))
  }

  function MeshTriangles(e: int, resolution: nat): seq<int> {
    Concat(Strips(e, resolution, true)) + Concat(Strips(e, resolution, false))
  }

  // ---------------------------------------------------------------------
  // Noise and the whole mesh

  /** Depth: Perlin noise at the shifted, scaled position, centred on 0. */
  function Depth(env: Env, v: Vec3, offset: Vec2, scale: Vec2): real {
    env.perlinNoise((v.x + offset.x) * scale.x, (v.y + offset.y) * scale.y) - 0.5
  }

  /** The final vertex: z becomes y * noiseDepth * Depth. */
  function Displace(env: Env, v: Vec3, noiseDepth: real, offset: Vec2, scale: Vec2): Vec3 {
    Vec3(v.x, v.y, v.y * noiseDepth * Depth(env, v, offset, scale))
  }

  function DisplaceAll(env: Env, vs: seq<Vec3>, noiseDepth: real, offset: Vec2, scale: Vec2): (r: seq<Vec3>)
    ensures |r| == |vs|
  {
    seq(|vs|, i requires 0 <= i < |vs| => Displace(env, vs[i], noiseDepth, offset, scale))
  }

  /** The vertices before the noise: the rows one after the other. */
  function RawVertices(points: seq<Vec3>, counts: seq<int>, resolution: int): seq<Vec3>
    requires |points| > 0 && resolution > 0
  {
    Concat(Rows(points, counts, resolution))
  }

  /** The blade for the given vertex budget per row, mirrored outline and
      resolution: the displaced vertices, their uv and the strips. */
  function BladeMeshOf(env: Env, size: real, counts: seq<int>, points: seq<Vec3>, res: int,
                       noiseDepth: real, noiseScale: Vec2, noiseOffset: Vec2): Mesh
    requires |points| > 0 && res > 0
  {
    Mesh(DisplaceAll(env, RawVertices(points, counts, res), noiseDepth,
                     Vec2(noiseOffset.x + size, noiseOffset.y + size), noiseScale),
         Concat(UVRows(Rows(points, counts, res), res, size)),
         MeshTriangles(SumInt(counts), res))
  }

  /** The mesh BuildMesh returns, as a value: an error when there is no
      control point, otherwise the blade for the clamped resolution. */
  function BladeMesh(env: Env, size: real, controls: seq<ControlPoint>, numberOfVerticesOnOneSide: int,
                     resolution: int, noiseDepth: real, noiseScale: Vec2, noiseOffset: Vec2): (r: Result<Mesh>)
    ensures r.Err? <==> |controls| == 0
    ensures r.Err? ==> r.error == InsufficientControlPoints
  {
    if |controls| < 1 then Err(InsufficientControlPoints)
    else Ok(BladeMeshOf(env, size, Counts(env, controls, numberOfVerticesOnOneSide), Mirror(controls, size, size),
                        Max(1, resolution), noiseDepth, noiseScale, noiseOffset))
  }

  // ---------------------------------------------------------------------
  // The imperative builder

  /** BuildMesh, as the source writes it: clamp the resolution, refuse an
      empty outline, split the vertex budget, append the rows and their uv,
      then the strips, then displace. */
  method BuildMesh(env: Env, size: real, controls: seq<ControlPoint>, numberOfVerticesOnOneSide: int,
                   resolution: int, noiseDepth: real, noiseScale: Vec2, noiseOffset: Vec2)
    returns (result: Result<Mesh>)
    requires ValidEnv(env)
    ensures result == BladeMesh(env, size, controls, numberOfVerticesOnOneSide, resolution,
                                noiseDepth, noiseScale, noiseOffset)
  {
    var res := Max(1, resolution);
    if |controls| < 1 {
      return Err(InsufficientControlPoints);
    }
    var counts := GetCounts(env, controls, numberOfVerticesOnOneSide);
    var countOnEdge := SumInt(counts);
    var points := Mirror(controls, size, size);

    var vertices, uv := BuildRows(points, counts, res, size);
    var triangles := BuildFaces(countOnEdge, res);

    var nOffset := Vec2(noiseOffset.x + size, noiseOffset.y + size);
    var displaced := DisplaceAll(env, vertices, noiseDepth, nOffset, noiseScale);
    BladeMeshParts(env, size, controls, numberOfVerticesOnOneSide, resolution, noiseDepth, noiseScale,
                   noiseOffset, counts, points, vertices, uv, triangles);
    return Ok(Mesh(displaced, uv, triangles));
  }

  /** BladeMesh in terms of the pieces BuildMesh computes one by one. */
  lemma BladeMeshParts(env: Env, size: real, controls: seq<ControlPoint>, numberOfVerticesOnOneSide: int,
                       resolution: int, noiseDepth: real, noiseScale: Vec2, noiseOffset: Vec2,
                       counts: seq<int>, points: seq<Vec3>, vertices: seq<Vec3>, uv: seq<Vec2>, triangles: seq<int>)
    requires |controls| >= 1
    requires counts == Counts(env, controls, numberOfVerticesOnOneSide)
    requires points == Mirror(controls, size, size)
    requires vertices == RawVertices(points, counts, Max(1, resolution))
    requires uv == Concat(UVRows(Rows(points, counts, Max(1, resolution)), Max(1, resolution), size))
    requires triangles == MeshTriangles(SumInt(counts), Max(1, resolution))
    ensures BladeMesh(env, size, controls, numberOfVerticesOnOneSide, resolution, noiseDepth, noiseScale, noiseOffset)
         == Ok(Mesh(DisplaceAll(env, vertices, noiseDepth, Vec2(noiseOffset.x + size, noiseOffset.y + size), noiseScale),
                    uv, triangles))
  {
    var res := Max(1, resolution);
    VerticesField(env, size, counts, points, res, noiseDepth, noiseScale, noiseOffset, vertices);
    MeshEq(Mesh(DisplaceAll(env, vertices, noiseDepth, Vec2(noiseOffset.x + size, noiseOffset.y + size), noiseScale), uv, triangles),
           BladeMeshOf(env, size, counts, points, res, noiseDepth, noiseScale, noiseOffset));
  }

  lemma VerticesField(env: Env, size: real, counts: seq<int>, points: seq<Vec3>, res: int,
                      noiseDepth: real, noiseScale: Vec2, noiseOffset: Vec2, vertices: seq<Vec3>)
    requires |points| > 0 && res > 0
    requires vertices == RawVertices(points, counts, res)
    ensures DisplaceAll(env, vertices, noiseDepth, Vec2(noiseOffset.x + size, noiseOffset.y + size), noiseScale)
         == BladeMeshOf(env, size, counts, points, res, noiseDepth, noiseScale, noiseOffset).vertices
  {
  }

  /** The three vertex loops of BuildMesh: the left rows from the outer
      edge inwards, the midrib, the right rows outwards, with their uv. */
  method BuildRows(points: seq<Vec3>, counts: seq<int>, res: int, size: real)
    returns (vertices: seq<Vec3>, uv: seq<Vec2>)
    requires |points| > 0 && res > 0
    ensures vertices == RawVertices(points, counts, res)
    ensures uv == Concat(UVRows(Rows(points, counts, res), res, size))
  {
    vertices, uv := LeftRows(points, counts, res, size);

    // midrib
    var row := SampleRow(points, counts, 0.0);
    RowStep(points, counts, res, size, res, row, vertices, uv);
    vertices := vertices + row;
    uv := uv + MidUVs(row, size);

    vertices, uv := RightRows(points, counts, res, size, vertices, uv);
    RowsAll(points, counts, res, size, 2 * res + 1, vertices, uv);
  }

  /** The left loop: rows 0 to res - 1, from the outer edge inwards. */
  method LeftRows(points: seq<Vec3>, counts: seq<int>, res: int, size: real)
    returns (vertices: seq<Vec3>, uv: seq<Vec2>)
    requires |points| > 0 && res > 0
    ensures RowsUpTo(points, counts, res, size, res, vertices, uv)
  {
    vertices, uv := [], [];
    RowsNone(points, counts, res, size);
    var i := 0;
    while i < res
      invariant 0 <= i <= res
      invariant RowsUpTo(points, counts, res, size, i, vertices, uv)
    {
      var r := LeftRatio(i, res);
      var row := SampleRow(points, counts, r);
      RowStep(points, counts, res, size, i, row, vertices, uv);
      vertices := vertices + row;
      uv := uv + SideUVs(row, size);
      i := i + 1;
    }
  }

  /** The right loop: rows res + 1 to 2 * res, from the midrib outwards,
      appended to the rows before them. */
  method RightRows(points: seq<Vec3>, counts: seq<int>, res: int, size: real,
                   vertices0: seq<Vec3>, uv0: seq<Vec2>)
    returns (vertices: seq<Vec3>, uv: seq<Vec2>)
    requires RowsUpTo(points, counts, res, size, res + 1, vertices0, uv0)
    ensures RowsUpTo(points, counts, res, size, 2 * res + 1, vertices, uv)
  {
    vertices, uv := vertices0, uv0;
    var k := res + 1;
    var i := 0;
    while i < res
      invariant 0 <= i <= res && k == res + 1 + i
      invariant RowsUpTo(points, counts, res, size, k, vertices, uv)
    {
      var r := RightRatio(i, res);
      var row := SampleRow(points, counts, r);
      RowStep(points, counts, res, size, k, row, vertices, uv);
      vertices := vertices + row;
      uv := uv + SideUVs(row, size);
      i, k := i + 1, k + 1;
    }
  }

  /** The vertices and uv hold the first k rows of the mesh. */
  ghost predicate RowsUpTo(points: seq<Vec3>, counts: seq<int>, res: int, size: real, k: int,
                           vertices: seq<Vec3>, uv: seq<Vec2>) {
    && |points| > 0 && res > 0 && 0 <= k <= 2 * res + 1
    && vertices == Concat(Rows(points, counts, res)[..k])
    && uv == Concat(UVRows(Rows(points, counts, res), res, size)[..k])
  }

  lemma RowsNone(points: seq<Vec3>, counts: seq<int>, res: int, size: real)
    requires |points| > 0 && res > 0
    ensures RowsUpTo(points, counts, res, size, 0, [], [])
  {
    assert Rows(points, counts, res)[..0] == [];
    assert UVRows(Rows(points, counts, res), res, size)[..0] == [];
  }

  /** Appending row k, sampled at its ratio, and its uv to the rows before it. */
  lemma RowStep(points: seq<Vec3>, counts: seq<int>, res: int, size: real, k: int,
                row: seq<Vec3>, vertices: seq<Vec3>, uv: seq<Vec2>)
    requires RowsUpTo(points, counts, res, size, k, vertices, uv) && k < 2 * res + 1
    requires row == Row(points, counts, RowRatio(k, res))
    ensures RowsUpTo(points, counts, res, size, k + 1, vertices + row,
                     uv + (if k == res then MidUVs(row, size) else SideUVs(row, size)))
  {
    var rows := Rows(points, counts, res);
    var uvRows := UVRows(Rows(points, counts, res), res, size);
    assert rows[k] == row;
    assert uvRows[k] == if k == res then MidUVs(row, size) else SideUVs(row, size);
    ConcatStep(rows, k);
    ConcatStep(uvRows, k);
  }

  lemma RowsAll(points: seq<Vec3>, counts: seq<int>, res: int, size: real, k: int,
                vertices: seq<Vec3>, uv: seq<Vec2>)
    requires RowsUpTo(points, counts, res, size, k, vertices, uv) && k == 2 * res + 1
    ensures vertices == RawVertices(points, counts, res)
    ensures uv == Concat(UVRows(Rows(points, counts, res), res, size))
  {
    ConcatUpTo(Rows(points, counts, res), k);
    ConcatUpTo(UVRows(Rows(points, counts, res), res, size), k);
  }

  /** One row: the segments of the outline, scaled in width by `ratio`,
      sampled one after another. */
  method SampleRow(points: seq<Vec3>, counts: seq<int>, ratio: real) returns (row: seq<Vec3>)
    requires |points| > 0
    ensures row == Row(points, counts, ratio)
  {
    row := [];
    var c := 0;
    while c < |counts|
      invariant 0 <= c <= |counts|
      invariant row == RowPrefix(points, counts, ratio, c)
    {
      var edge := SampleEdge(points, counts, c, ratio);
      row := row + edge;
      c := c + 1;
    }
  }

  /** One call of GetCatmullRomPositions on the four looped, width-scaled
      outline points around segment c. */
  method SampleEdge(points: seq<Vec3>, counts: seq<int>, c: int, ratio: real) returns (edge: seq<Vec3>)
    requires |points| > 0 && 0 <= c < |counts|
    ensures edge == Segment(points, counts, c, ratio)
    ensures |edge| == Max(counts[c], 0)
  {
    var q0 := GetLoopPoint(points, c - 1);
    var q1 := GetLoopPoint(points, c);
    var q2 := GetLoopPoint(points, c + 1);
    var q3 := GetLoopPoint(points, c + 2);
    edge := GetCatmullRomPositions(counts[c], Lift(GetEdge(q0, ratio)), Lift(GetEdge(q1, ratio)),
                                   Lift(GetEdge(q2, ratio)), Lift(GetEdge(q3, ratio)));
  }

  /** The two face loops of BuildMesh: a strip of quads between each pair
      of neighbouring rows, left side then right side. */
  method BuildFaces(countOnEdge: int, res: nat) returns (triangles: seq<int>)
    ensures triangles == MeshTriangles(countOnEdge, res)
  {
    triangles := [];
    StripsNone(countOnEdge, res, true);

    // left side faces
    var i := 0;
    while i < res
      invariant StripsUpTo(countOnEdge, res, true, i, triangles)
    {
      var strip := LeftStrip(i * countOnEdge, countOnEdge);
      StripStep(countOnEdge, res, true, i, triangles, strip);
      triangles := triangles + strip;
      i := i + 1;
    }
    StripsAll(countOnEdge, res, true, i, triangles);
    ghost var leftFaces := triangles;
    ghost var rightFaces := [];
    StripsNone(countOnEdge, res, false);

    // right side faces
    i := 0;
    while i < res
      invariant StripsUpTo(countOnEdge, res, false, i, rightFaces)
      invariant triangles == leftFaces + rightFaces
    {
      var strip := RightStrip((i + res) * countOnEdge, countOnEdge);
      StripStep(countOnEdge, res, false, i, rightFaces, strip);
      triangles := triangles + strip;
      rightFaces := rightFaces + strip;
      i := i + 1;
    }
    StripsAll(countOnEdge, res, false, i, rightFaces);
  }

  /** The triangles hold the first i strips of one side. */
  ghost predicate StripsUpTo(e: int, res: nat, left: bool, i: int, triangles: seq<int>) {
    0 <= i <= res && triangles == Concat(Strips(e, res, left)[..i])
  }

  lemma StripsNone(e: int, res: nat, left: bool)
    ensures StripsUpTo(e, res, left, 0, [])
  {
    assert Strips(e, res, left)[..0] == [];
  }

  /** Appending strip i of a side to the strips before it. */
  lemma StripStep(e: int, res: nat, left: bool, i: int, triangles: seq<int>, strip: seq<int>)
    requires StripsUpTo(e, res, left, i, triangles) && i < res
    requires strip == Concat(Quads(StripOffset(i, e, res, left), e, left))
    ensures StripsUpTo(e, res, left, i + 1, triangles + strip)
  {
    ConcatStep(Strips(e, res, left), i);
  }

  lemma StripsAll(e: int, res: nat, left: bool, i: int, triangles: seq<int>)
    requires StripsUpTo(e, res, left, i, triangles) && i >= res
    ensures triangles == Concat(Strips(e, res, left))
  {
    ConcatUpTo(Strips(e, res, left), i);
  }

  /** The inner loop of the left side faces. */
  method LeftStrip(offset: int, countOnEdge: int) returns (strip: seq<int>)
    ensures strip == Concat(Quads(offset, countOnEdge, true))
  {
    ghost var quads := Quads(offset, countOnEdge, true);
    strip := [];
    var j := 0;
    while j < countOnEdge - 1
      invariant 0 <= j <= Max(countOnEdge - 1, 0)
      invariant strip == Concat(quads[..j])
    {
      var a := j + offset;
      var b := a + 1;
      var c := a + countOnEdge;
      var d := b + countOnEdge;
      assert Concat(quads[..j + 1]) == strip + [a, b, c, b, d, c] by {
        ConcatStep(quads, j);
        assert quads[j] == Quad(offset + j, countOnEdge, true);
      }
      strip := strip + [a, b, c, b, d, c];
      j := j + 1;
    }
    ConcatAll(quads);
  }

  /** The inner loop of the right side faces. */
  method RightStrip(offset: int, countOnEdge: int) returns (strip: seq<int>)
    ensures strip == Concat(Quads(offset, countOnEdge, false))
  {
    ghost var quads := Quads(offset, countOnEdge, false);
    strip := [];
    var j := 0;
    while j < countOnEdge - 1
      invariant 0 <= j <= Max(countOnEdge - 1, 0)
      invariant strip == Concat(quads[..j])
    {
      var a := j + offset;
      var b := a + 1;
      var c := a + countOnEdge;
      var d := b + countOnEdge;
      assert Concat(quads[..j + 1]) == strip + [a, d, c, b, d, a] by {
        ConcatStep(quads, j);
        assert quads[j] == Quad(offset + j, countOnEdge, false);
      }
      strip := strip + [a, d, c, b, d, a];
      j := j + 1;
    }
    ConcatAll(quads);
  }
}
