/** What FlowerShape.BuildMesh guarantees about the blade it returns: the
    sizes of its arrays, triangle indices that stay inside the vertex
    array, rows on opposite sides of the midrib that mirror each other,
    and a flat blade when there is no noise. */
module BladeProperties {
  import opened UnityMath
  import opened ControlPoints
  import opened ShapeOutline
  import opened CatmullRom
  import opened Blocks
  import opened ShapeMesh
  import opened Errors

  // ---------------------------------------------------------------------
  // Sizes

  /** With no negative count, a row holds exactly the sum of the counts. */
  lemma {:induction false} SampleCountIsSum(counts: seq<int>)
    requires forall i :: 0 <= i < |counts| ==> counts[i] >= 0
    ensures SampleCount(counts) == SumInt(counts)
  {
    if counts != [] {
      SampleCountIsSum(counts[..|counts| - 1]);
    }
  }

  lemma UVRowLengths(points: seq<Vec3>, counts: seq<int>, res: int, size: real)
    requires |points| > 0 && res > 0
    ensures forall k :: 0 <= k < 2 * res + 1 ==> |UVRows(Rows(points, counts, res), res, size)[k]| == SampleCount(counts)
  {
  }

  lemma {:induction false} StripLengths(e: int, res: nat, left: bool)
    ensures forall i :: 0 <= i < res ==> |Strips(e, res, left)[i]| == BlockStart(Max(e - 1, 0), 6)
  {
    forall i | 0 <= i < res
      ensures |Strips(e, res, left)[i]| == BlockStart(Max(e - 1, 0), 6)
    {
      var quads := Quads(StripOffset(i, e, res, left), e, left);
      forall j | 0 <= j < |quads| ensures |quads[j]| == 6 {
        assert quads[j] == Quad(StripOffset(i, e, res, left) + j, e, left);
      }
      ConcatLength(quads, 6);
    }
  }

  lemma RawVertexCount(points: seq<Vec3>, counts: seq<int>, res: int)
    requires |points| > 0 && res > 0
    ensures |RawVertices(points, counts, res)| == BlockStart(2 * res + 1, SampleCount(counts))
  {
    ConcatLength(Rows(points, counts, res), SampleCount(counts));
  }

  lemma UVCount(points: seq<Vec3>, counts: seq<int>, res: int, size: real)
    requires |points| > 0 && res > 0
    ensures |Concat(UVRows(Rows(points, counts, res), res, size))| == BlockStart(2 * res + 1, SampleCount(counts))
  {
    UVRowLengths(points, counts, res, size);
    ConcatLength(UVRows(Rows(points, counts, res), res, size), SampleCount(counts));
  }

  lemma RawSizes(points: seq<Vec3>, counts: seq<int>, res: int, size: real)
    requires |points| > 0 && res > 0
    ensures |RawVertices(points, counts, res)| == (2 * res + 1) * SampleCount(counts)
    ensures |Concat(UVRows(Rows(points, counts, res), res, size))| == (2 * res + 1) * SampleCount(counts)
  {
    RawVertexCount(points, counts, res);
    UVCount(points, counts, res, size);
    BlockStartIsProduct(2 * res + 1, SampleCount(counts));
  }

  lemma SideTriangleCount(e: int, res: nat, left: bool)
    ensures |Concat(Strips(e, res, left))| == BlockStart(res, BlockStart(Max(e - 1, 0), 6))
  {
    StripLengths(e, res, left);
    ConcatLength(Strips(e, res, left), BlockStart(Max(e - 1, 0), 6));
  }

  lemma TwelveFold(res: int, quads: int, b: int)
    requires b == quads * 6
    ensures res * b + res * b == 12 * res * quads
  {
  }

  lemma TriangleCount(e: int, res: nat)
    ensures |MeshTriangles(e, res)| == 12 * res * Max(e - 1, 0)
  {
    var quads := Max(e - 1, 0);
    SideTriangleCount(e, res, true);
    SideTriangleCount(e, res, false);
    BlockStartIsProduct(quads, 6);
    BlockStartIsProduct(res, BlockStart(quads, 6));
    TwelveFold(res, quads, BlockStart(quads, 6));
  }

  /** The blade has (2 * resolution + 1) rows of SampleCount(counts)
      vertices, one uv per vertex, and two triangles per quad, one quad
      per neighbouring pair of samples on each of the 2 * resolution strips. */
  lemma BladeSizes(env: Env, size: real, controls: seq<ControlPoint>, n: int,
                   resolution: int, noiseDepth: real, noiseScale: Vec2, noiseOffset: Vec2)
    requires |controls| >= 1
    ensures var m := BladeMesh(env, size, controls, n, resolution, noiseDepth, noiseScale, noiseOffset).value;
            var res := Max(1, resolution);
            var counts := Counts(env, controls, n);
            && |m.vertices| == (2 * res + 1) * SampleCount(counts)
            && |m.uv| == |m.vertices|
            && |m.triangles| == 12 * res * Max(SumInt(counts) - 1, 0)
  {
    var res := Max(1, resolution);
    var counts := Counts(env, controls, n);
    var points := Mirror(controls, size, size);
    BladeOf(env, size, controls, n, resolution, noiseDepth, noiseScale, noiseOffset);
    RawSizes(points, counts, res, size);
    TriangleCount(SumInt(counts), res);
  }

  /** The fields of the blade, named by the pieces they are built from. */
  lemma BladeOf(env: Env, size: real, controls: seq<ControlPoint>, n: int,
                resolution: int, noiseDepth: real, noiseScale: Vec2, noiseOffset: Vec2)
    requires |controls| >= 1
    ensures var res := Max(1, resolution);
            var counts := Counts(env, controls, n);
            var points := Mirror(controls, size, size);
            BladeMesh(env, size, controls, n, resolution, noiseDepth, noiseScale, noiseOffset)
            == Ok(Mesh(DisplaceAll(env, RawVertices(points, counts, res), noiseDepth,
                                   Vec2(noiseOffset.x + size, noiseOffset.y + size), noiseScale),
                       Concat(UVRows(Rows(points, counts, res), res, size)),
                       MeshTriangles(SumInt(counts), res)))
  {
    var res := Max(1, resolution);
    var counts := Counts(env, controls, n);
    var points := Mirror(controls, size, size);
    BladeMeshParts(env, size, controls, n, resolution, noiseDepth, noiseScale, noiseOffset, counts, points,
                   RawVertices(points, counts, res), Concat(UVRows(Rows(points, counts, res), res, size)),
                   MeshTriangles(SumInt(counts), res));
  }

  /** BladeOf field by field. */
  lemma BladeFields(env: Env, size: real, controls: seq<ControlPoint>, n: int,
                    resolution: int, noiseDepth: real, noiseScale: Vec2, noiseOffset: Vec2)
    requires |controls| >= 1
    ensures var res := Max(1, resolution);
            var counts := Counts(env, controls, n);
            var points := Mirror(controls, size, size);
            var m := BladeMesh(env, size, controls, n, resolution, noiseDepth, noiseScale, noiseOffset);
            && m.Ok?
            && m.value.vertices == DisplaceAll(env, RawVertices(points, counts, res), noiseDepth,
                                               Vec2(noiseOffset.x + size, noiseOffset.y + size), noiseScale)
            && m.value.uv == Concat(UVRows(Rows(points, counts, res), res, size))
  {
    BladeOf(env, size, controls, n, resolution, noiseDepth, noiseScale, noiseOffset);
  }

  // ---------------------------------------------------------------------
  // Triangle indices

  lemma QuadBounds(a: int, e: int, left: bool, q: int)
    requires e >= 0 && 0 <= q < 6
    ensures a <= Quad(a, e, left)[q] <= a + 1 + e
  {
  }

  /** Every index in a strip lies between the strip's offset and the last
      vertex of the row after it. */
  lemma StripBounds(offset: int, e: int, left: bool, k: int)
    requires e >= 0 && 0 <= k < |Concat(Quads(offset, e, left))|
    ensures offset <= Concat(Quads(offset, e, left))[k] <= offset + 2 * e - 1
  {
    var quads := Quads(offset, e, left);
    var j, q := ConcatMember(quads, k);
    assert quads[j] == Quad(offset + j, e, left);
    QuadBounds(offset + j, e, left, q);
  }

  lemma OffsetBounds(i: int, e: int, res: int, left: bool)
    requires 0 <= i < res && e >= 0
    ensures 0 <= StripOffset(i, e, res, left)
    ensures StripOffset(i, e, res, left) + 2 * e <= (2 * res + 1) * e
  {
    var j := if left then i else i + res;
    assert StripOffset(i, e, res, left) == j * e;
    assert j + 2 <= 2 * res + 1;
    MulMono(0, j, e);
    MulMono(j + 2, 2 * res + 1, e);
    assert (j + 2) * e == j * e + 2 * e;
  }

  lemma SideInRange(e: int, res: nat, left: bool, k: int)
    requires e >= 0 && 0 <= k < |Concat(Strips(e, res, left))|
    ensures 0 <= Concat(Strips(e, res, left))[k] < (2 * res + 1) * e
  {
    var strips := Strips(e, res, left);
    var i, q := ConcatMember(strips, k);
    var offset := StripOffset(i, e, res, left);
    assert strips[i] == Concat(Quads(offset, e, left));
    StripBounds(offset, e, left, q);
    OffsetBounds(i, e, res, left);
  }

  lemma TrianglesInRange(e: int, res: nat)
    requires e >= 0
    ensures forall t :: 0 <= t < |MeshTriangles(e, res)| ==> 0 <= MeshTriangles(e, res)[t] < (2 * res + 1) * e
  {
    var left := Concat(Strips(e, res, true));
    var right := Concat(Strips(e, res, false));
    forall t | 0 <= t < |MeshTriangles(e, res)|
      ensures 0 <= MeshTriangles(e, res)[t] < (2 * res + 1) * e
    {
      if t < |left| {
        SideInRange(e, res, true, t);
      } else {
        SideInRange(e, res, false, t - |left|);
      }
    }
  }

  /** For a non-negative vertex budget every triangle index names a vertex
      of the mesh. */
  lemma BladeTrianglesInRange(env: Env, size: real, controls: seq<ControlPoint>, n: int,
                              resolution: int, noiseDepth: real, noiseScale: Vec2, noiseOffset: Vec2)
    requires ValidEnv(env) && |controls| >= 1 && n >= 0
    ensures var m := BladeMesh(env, size, controls, n, resolution, noiseDepth, noiseScale, noiseOffset).value;
            forall t :: 0 <= t < |m.triangles| ==> 0 <= m.triangles[t] < |m.vertices|
  {
    var res := Max(1, resolution);
    var counts := Counts(env, controls, n);
    CountsWithinBudget(env, controls, n);
    SampleCountIsSum(counts);
    BladeOf(env, size, controls, n, resolution, noiseDepth, noiseScale, noiseOffset);
    RawSizes(Mirror(controls, size, size), counts, res, size);
    TrianglesInRange(SumInt(counts), res);
  }

  // ---------------------------------------------------------------------
  // Mirror symmetry

  lemma EdgeControlScales(points: seq<Vec3>, index: int, ratio: real)
    requires |points| > 0
    ensures EdgeControl(points, index, ratio) == ScaleX(EdgeControl(points, index, 1.0), ratio)
  {
  }

  lemma ScaleXSeqAppend(a: seq<Vec3>, b: seq<Vec3>, f: real)
    ensures ScaleXSeq(a + b, f) == ScaleXSeq(a, f) + ScaleXSeq(b, f)
  {
  }

  lemma {:induction false} RowPrefixScales(points: seq<Vec3>, counts: seq<int>, ratio: real, c: int)
    requires |points| > 0 && 0 <= c <= |counts|
    ensures RowPrefix(points, counts, ratio, c) == ScaleXSeq(RowPrefix(points, counts, 1.0, c), ratio)
  {
    if c > 0 {
      RowPrefixScales(points, counts, ratio, c - 1);
      var i := c - 1;
      EdgeControlScales(points, i - 1, ratio);
      EdgeControlScales(points, i, ratio);
      EdgeControlScales(points, i + 1, ratio);
      EdgeControlScales(points, i + 2, ratio);
      SamplesScaleX(counts[i], ratio, EdgeControl(points, i - 1, 1.0), EdgeControl(points, i, 1.0),
                    EdgeControl(points, i + 1, 1.0), EdgeControl(points, i + 2, 1.0));
      ScaleXSeqAppend(RowPrefix(points, counts, 1.0, i), Segment(points, counts, i, 1.0), ratio);
    }
  }

  /** Every row is the full-width row with its x scaled by the row's ratio. */
  lemma RowScales(points: seq<Vec3>, counts: seq<int>, ratio: real)
    requires |points| > 0
    ensures Row(points, counts, ratio) == ScaleXSeq(Row(points, counts, 1.0), ratio)
  {
    RowPrefixScales(points, counts, ratio, |counts|);
  }

  /** Row 2 * res - i sits as far right of the midrib as row i sits left. */
  lemma MirrorRowRatio(i: int, res: int)
    requires res > 0 && 0 <= i <= res
    ensures RowRatio(2 * res - i, res) == -RowRatio(i, res)
  {
    if i < res {
      var k := res - i;
      assert RightRatio(res - 1 - i, res) == (-k as real) / (res as real);
    }
  }

  /** Scaling x by -r instead of r reflects each point in x = 0. */
  lemma ScaleMirror(full: seq<Vec3>, r: real, q: int)
    requires 0 <= q < |full|
    ensures var v := ScaleXSeq(full, r)[q];
            ScaleXSeq(full, -r)[q] == Vec3(-v.x, v.y, v.z)
    ensures ScaleXSeq(full, 0.0)[q].x == 0.0
  {
  }

  /** Row k is the full-width row with x scaled by its ratio. */
  lemma RowsScaled(points: seq<Vec3>, counts: seq<int>, res: int, k: int)
    requires |points| > 0 && res > 0 && 0 <= k < 2 * res + 1
    ensures Rows(points, counts, res)[k] == ScaleXSeq(Row(points, counts, 1.0), RowRatio(k, res))
  {
    RowScales(points, counts, RowRatio(k, res));
  }

  /** Mirror symmetry of any rows that are scalings of one row by RowRatio. */
  lemma ScaledRowsMirror(rows: seq<seq<Vec3>>, full: seq<Vec3>, res: int, i: int, q: int)
    requires res > 0 && |rows| == 2 * res + 1 && 0 <= i <= res && 0 <= q < |full|
    requires rows[i] == ScaleXSeq(full, RowRatio(i, res))
    requires rows[2 * res - i] == ScaleXSeq(full, RowRatio(2 * res - i, res))
    ensures rows[2 * res - i][q] == Vec3(-rows[i][q].x, rows[i][q].y, rows[i][q].z)
    ensures i == res ==> rows[i][q].x == 0.0
  {
    MirrorRowRatio(i, res);
    ScaleMirror(full, RowRatio(i, res), q);
  }

  /** Sample q of row 2 * res - i is sample q of row i reflected in x = 0;
      the midrib (row res) lies on x = 0. */
  lemma RowMirror(points: seq<Vec3>, counts: seq<int>, res: int, i: int, q: int)
    requires |points| > 0 && res > 0 && 0 <= i <= res && 0 <= q < SampleCount(counts)
    ensures var rows := Rows(points, counts, res);
            rows[2 * res - i][q] == Vec3(-rows[i][q].x, rows[i][q].y, rows[i][q].z)
    ensures i == res ==> Rows(points, counts, res)[i][q].x == 0.0
  {
    RowsScaled(points, counts, res, i);
    RowsScaled(points, counts, res, 2 * res - i);
    ScaledRowsMirror(Rows(points, counts, res), Row(points, counts, 1.0), res, i, q);
  }

  lemma DivNeg(a: real, b: real)
    ensures Div(-a, b) == -Div(a, b)
  {
  }

  /** The uv of sample q in row k, in terms of the sample itself. */
  lemma UVRowEntry(rows: seq<seq<Vec3>>, res: int, size: real, k: int, q: int)
    requires 0 <= k < |rows| && 0 <= q < |rows[k]|
    ensures UVRows(rows, res, size)[k][q]
            == if k == res then Vec2(0.0, Div(rows[k][q].y, size))
               else Vec2(Div(rows[k][q].x, size), Div(rows[k][q].y, size))
  {
  }

  /** The uv rows of mirror-symmetric rows are mirror-symmetric in u:
      opposite u, equal v, and u = 0 on the midrib. */
  lemma UVRowMirror(rows: seq<seq<Vec3>>, res: int, size: real, i: int, q: int)
    requires res > 0 && 0 <= i <= res && |rows| == 2 * res + 1
    requires 0 <= q < |rows[i]| && 0 <= q < |rows[2 * res - i]|
    requires rows[2 * res - i][q] == Vec3(-rows[i][q].x, rows[i][q].y, rows[i][q].z)
    requires i == res ==> rows[i][q].x == 0.0
    ensures var uvRows := UVRows(rows, res, size);
            && uvRows[2 * res - i][q] == Vec2(-uvRows[i][q].x, uvRows[i][q].y)
            && (i == res ==> uvRows[i][q].x == 0.0)
  {
    UVRowEntry(rows, res, size, i, q);
    UVRowEntry(rows, res, size, 2 * res - i, q);
    DivNeg(rows[i][q].x, size);
  }

  /** In vertices and uv laid out as 2 * res + 1 rows of l samples, sample q
      of row 2 * res - i is the mirror image in x = 0 of sample q of row i
      (the same y, opposite x, opposite u, the same v), and on the midrib
      (i == res) x and u are 0. Row k starts at BlockStart(k, l) = k * l
      (BlockStartIsProduct). */
  ghost predicate MirroredAt(vertices: seq<Vec3>, uv: seq<Vec2>, l: int, res: int, i: int, q: int)
    requires 0 <= i <= res
  {
    MirroredPair(vertices, uv, BlockStart(i, l) + q, BlockStart(2 * res - i, l) + q, i == res)
  }

  /** Entry b mirrors entry a, in the vertices and in the uv; on the midrib
      both lie on x = 0. */
  ghost predicate MirroredPair(vertices: seq<Vec3>, uv: seq<Vec2>, a: int, b: int, midrib: bool) {
    |uv| == |vertices| && VerticesMirrored(vertices, a, b, midrib) && UVMirrored(uv, a, b, midrib)
  }

  ghost predicate VerticesMirrored(vertices: seq<Vec3>, a: int, b: int, midrib: bool) {
    && 0 <= a < |vertices| && 0 <= b < |vertices|
    && vertices[b].x == -vertices[a].x && vertices[b].y == vertices[a].y
    && (midrib ==> vertices[a].x == 0.0)
  }

  ghost predicate UVMirrored(uv: seq<Vec2>, a: int, b: int, midrib: bool) {
    && 0 <= a < |uv| && 0 <= b < |uv|
    && uv[b] == Vec2(-uv[a].x, uv[a].y)
    && (midrib ==> uv[a].x == 0.0)
  }

  /** The finished blade is symmetric about its midrib in x and y (the
      noise moves vertices along z only), and so are its uv. */
  lemma BladeMirror(env: Env, size: real, controls: seq<ControlPoint>, n: int,
                    resolution: int, noiseDepth: real, noiseScale: Vec2, noiseOffset: Vec2, i: int, q: int)
    requires |controls| >= 1
    requires 0 <= i <= Max(1, resolution) && 0 <= q < SampleCount(Counts(env, controls, n))
    ensures var m := BladeMesh(env, size, controls, n, resolution, noiseDepth, noiseScale, noiseOffset).value;
            MirroredAt(m.vertices, m.uv, SampleCount(Counts(env, controls, n)), Max(1, resolution), i, q)
  {
    var res := Max(1, resolution);
    var counts := Counts(env, controls, n);
    var points := Mirror(controls, size, size);
    var m := BladeMesh(env, size, controls, n, resolution, noiseDepth, noiseScale, noiseOffset);
    BladeFields(env, size, controls, n, resolution, noiseDepth, noiseScale, noiseOffset);
    RowMirror(points, counts, res, i, q);
    FlatMirror(env, Rows(points, counts, res), SampleCount(counts), res, size,
               noiseDepth, Vec2(noiseOffset.x + size, noiseOffset.y + size), noiseScale,
               m.value.vertices, m.value.uv, i, q);
  }

  /** Laying mirror-symmetric rows of l samples one after the other puts
      the mirror image of entry BlockStart(i, l) + q at
      BlockStart(2 * res - i, l) + q, in the vertices and in the uv. */
  lemma FlatMirror(env: Env, rows: seq<seq<Vec3>>, l: int, res: int, size: real,
                   noiseDepth: real, offset: Vec2, scale: Vec2, vertices: seq<Vec3>, uvOut: seq<Vec2>,
                   i: int, q: int)
    requires res > 0 && |rows| == 2 * res + 1 && 0 <= i <= res && 0 <= q < l
    requires forall k :: 0 <= k < |rows| ==> |rows[k]| == l
    requires rows[2 * res - i][q] == Vec3(-rows[i][q].x, rows[i][q].y, rows[i][q].z)
    requires i == res ==> rows[i][q].x == 0.0
    requires vertices == DisplaceAll(env, Concat(rows), noiseDepth, offset, scale)
    requires uvOut == Concat(UVRows(rows, res, size))
    ensures MirroredAt(vertices, uvOut, l, res, i, q)
  {
    VertexFlatMirror(env, rows, l, res, noiseDepth, offset, scale, vertices, i, q);
    UVFlatMirror(rows, l, res, size, uvOut, i, q);
    FlatLengths(rows, l, res, size);
  }

  /** One uv per vertex when the rows are laid out one after the other. */
  lemma FlatLengths(rows: seq<seq<Vec3>>, l: int, res: int, size: real)
    requires res > 0 && |rows| == 2 * res + 1
    requires forall k :: 0 <= k < |rows| ==> |rows[k]| == l
    ensures |Concat(UVRows(rows, res, size))| == |Concat(rows)|
  {
    ConcatLength(rows, l);
    ConcatLength(UVRows(rows, res, size), l);
  }

  lemma VertexFlatMirror(env: Env, rows: seq<seq<Vec3>>, l: int, res: int,
                         noiseDepth: real, offset: Vec2, scale: Vec2, vertices: seq<Vec3>, i: int, q: int)
    requires res > 0 && |rows| == 2 * res + 1 && 0 <= i <= res && 0 <= q < l
    requires forall k :: 0 <= k < |rows| ==> |rows[k]| == l
    requires rows[2 * res - i][q] == Vec3(-rows[i][q].x, rows[i][q].y, rows[i][q].z)
    requires i == res ==> rows[i][q].x == 0.0
    requires vertices == DisplaceAll(env, Concat(rows), noiseDepth, offset, scale)
    ensures VerticesMirrored(vertices, BlockStart(i, l) + q, BlockStart(2 * res - i, l) + q, i == res)
  {
    ConcatIndex(rows, l, i, q);
    ConcatIndex(rows, l, 2 * res - i, q);
  }

  lemma UVFlatMirror(rows: seq<seq<Vec3>>, l: int, res: int, size: real, uvOut: seq<Vec2>, i: int, q: int)
    requires res > 0 && |rows| == 2 * res + 1 && 0 <= i <= res && 0 <= q < l
    requires forall k :: 0 <= k < |rows| ==> |rows[k]| == l
    requires rows[2 * res - i][q] == Vec3(-rows[i][q].x, rows[i][q].y, rows[i][q].z)
    requires i == res ==> rows[i][q].x == 0.0
    requires uvOut == Concat(UVRows(rows, res, size))
    ensures UVMirrored(uvOut, BlockStart(i, l) + q, BlockStart(2 * res - i, l) + q, i == res)
  {
    var uvRows := UVRows(rows, res, size);
    UVRowMirror(rows, res, size, i, q);
    ConcatIndex(uvRows, l, i, q);
    ConcatIndex(uvRows, l, 2 * res - i, q);
  }

  // ---------------------------------------------------------------------
  // Flatness

  lemma {:induction false} RowPrefixFlat(points: seq<Vec3>, counts: seq<int>, ratio: real, c: int)
    requires |points| > 0 && 0 <= c <= |counts|
    ensures forall k :: 0 <= k < |RowPrefix(points, counts, ratio, c)| ==> RowPrefix(points, counts, ratio, c)[k].z == 0.0
  {
    if c > 0 {
      RowPrefixFlat(points, counts, ratio, c - 1);
      var seg := Segment(points, counts, c - 1, ratio);
      forall k | 0 <= k < |seg| ensures seg[k].z == 0.0 {
        var t := Param(k, counts[c - 1]);
        assert seg[k].z == Cubic(t, 0.0, 0.0, 0.0, 0.0);
      }
    }
  }

  /** Without noise the blade is flat: it is the unperturbed rows, all in
      the plane z = 0. */
  lemma BladeFlatWithoutNoise(env: Env, size: real, controls: seq<ControlPoint>, n: int,
                              resolution: int, noiseScale: Vec2, noiseOffset: Vec2)
    requires |controls| >= 1
    ensures var m := BladeMesh(env, size, controls, n, resolution, 0.0, noiseScale, noiseOffset).value;
            && m.vertices == RawVertices(Mirror(controls, size, size), Counts(env, controls, n), Max(1, resolution))
            && forall k :: 0 <= k < |m.vertices| ==> m.vertices[k].z == 0.0
  {
    var res := Max(1, resolution);
    var counts := Counts(env, controls, n);
    var points := Mirror(controls, size, size);
    var rows: seq<seq<Vec3>> := Rows(points, counts, res);
    var raw := RawVertices(points, counts, res);
    var m := BladeMesh(env, size, controls, n, resolution, 0.0, noiseScale, noiseOffset).value;
    forall k | 0 <= k < |raw| ensures raw[k].z == 0.0 {
      var i, q := ConcatMember(rows, k);
      RowPrefixFlat(points, counts, RowRatio(i, res), |counts|);
      assert counts[..|counts|] == counts;
    }
    assert |m.vertices| == |raw|;
    forall k | 0 <= k < |raw| ensures m.vertices[k] == raw[k] {
    }
  }
}
