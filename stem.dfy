/** FlowerStem: builds the tube mesh of a stem along its control points and
    keeps, for the parts placed on the stem, the point and rotation of every
    ring but the last (Segments) and of the last (Tip). */
module Stem {
  import opened UnityMath
  import opened Errors
  import opened CatmullRom
  import opened Blocks
  import opened StemMesh
  import opened StemProperties

  /** The radius profile Build uses when none is given: 1 everywhere. */
  function UnitProfile(v: real): real { 1.0 }

  /** What Build does with the given settings: fewer than four controls
      and a non-positive hResolution fail before any state changes; a
      single core fails after the segments are cleared; otherwise the mesh,
      the segments and the tip are those of the sampled cores. */
  ghost predicate BuildOutcome(env: Env, controls: seq<Vec3>, w: int, h: int, radius: real, f: real -> real,
                               r: Result<Mesh>, segments0: seq<Point>, tip0: Option<Point>,
                               segments: seq<Point>, tip: Option<Point>)
  {
    if |controls| < 4 then
      r == Err(InsufficientControlPoints) && segments == segments0 && tip == tip0
    else if h <= 0 then
      r == Err(IndexOutOfRange) && segments == segments0 && tip == tip0
    else
      var cores := Cores(Extend(env, controls), h);
      if |cores| < 2 then
        r == Err(IndexOutOfRange) && segments == [] && tip == tip0
      else
        r == Ok(StemMeshOf(env, cores, Circle(env, w, radius), w, f))
        && segments == StemSegments(env, cores) && tip == Some(StemTip(env, cores))
  }

  // ---------------------------------------------------------------------
  // The steps of Build

  /** The core loop: window after window of the extended controls, every
      window after the first without its first sample. */
  method SampleCores(ext: seq<Vec3>, h: int) returns (r: Result<seq<Vec3>>)
    requires |ext| >= 6
    ensures h <= 0 ==> r == Err(IndexOutOfRange)
    ensures h >= 1 ==> r == Ok(Cores(ext, h))
  {
    var cores: seq<Vec3> := [];
    var i := 1;
    var n := |ext| - 2;
    while i < n
      invariant 1 <= i <= n
      invariant h <= 0 ==> i <= 2 && cores == []
      invariant h >= 1 ==> cores == Concat(CorePieces(ext, h)[..i - 1])
    {
      var tmp := GetCatmullRomPositions(h, ext[i - 1], ext[i], ext[i + 1], ext[i + 2]);
      if i != 1 {
        if |tmp| == 0 {
          // List.RemoveAt(0) on an empty list
          return Err(IndexOutOfRange);
        }
        tmp := tmp[1..];
      }
      if h >= 1 {
        PieceStep(ext, h, i, cores, tmp, cores + tmp);
      }
      cores := cores + tmp;
      i := i + 1;
    }
    if h <= 0 {
      assert false;
    }
    ConcatUpTo(CorePieces(ext, h), n - 1);
    return Ok(cores);
  }

  /** Appending window i - 1's piece to the pieces before it. */
  lemma PieceStep(ext: seq<Vec3>, h: int, i: int, cores: seq<Vec3>, piece: seq<Vec3>, cores': seq<Vec3>)
    requires h >= 1 && 1 <= i < |ext| - 2
    requires cores == Concat(CorePieces(ext, h)[..i - 1])
    requires piece == CorePiece(ext, h, i - 1) && cores' == cores + piece
    ensures cores' == Concat(CorePieces(ext, h)[..i])
  {
    ConcatStep(CorePieces(ext, h), i - 1);
  }

  lemma CirclePoint(env: Env, w: int, radius: real, i: int, r: real, cos: real, sin: real)
    requires 0 <= i < w
    requires r == (i as real) / (w as real) * (PI * 2.0)
    requires cos == env.cos(r) * radius && sin == env.sin(r) * radius
    ensures Circle(env, w, radius)[i] == Vec3(cos, sin, 0.0)
  {
    assert w as real > 0.0;
    assert Angle(i, w) == r;
  }

  /** The circle loop. */
  method MakeCircle(env: Env, w: int, radius: real) returns (circle: seq<Vec3>)
    ensures circle == Circle(env, w, radius)
  {
    circle := [];
    var i := 0;
    while i < w
      invariant 0 <= i <= Max(w, 0)
      invariant circle == Circle(env, w, radius)[..i]
    {
      var r := (i as real) / (w as real) * (PI * 2.0);
      var cos := env.cos(r) * radius;
      var sin := env.sin(r) * radius;
      CirclePoint(env, w, radius, i, r, cos, sin);
      AppendElement([], Circle(env, w, radius), i, circle, Vec3(cos, sin, 0.0), circle + [Vec3(cos, sin, 0.0)]);
      circle := circle + [Vec3(cos, sin, 0.0)];
      i := i + 1;
    }
    assert Circle(env, w, radius)[..i] == Circle(env, w, radius);
  }

  /** AddCircle: the rotation for dir and inverse, and the circle scaled,
      turned and moved to the core appended to the vertices. */
  method AddCircle(env: Env, vertices: seq<Vec3>, core: Vec3, circle: seq<Vec3>, radius: real, dir: Vec3, inverse: bool)
    returns (out: seq<Vec3>, q: Quat)
    ensures q == Rotation(env, dir, inverse)
    ensures out == vertices + Ring(env, core, circle, radius, q)
  {
    if inverse {
      q := env.compose(env.angleAxis(180.0, dir), env.lookRotation(dir));
    } else {
      q := env.lookRotation(dir);
    }
    out := vertices;
    var j := 0;
    while j < |circle|
      invariant 0 <= j <= |circle|
      invariant out == vertices + Ring(env, core, circle, radius, q)[..j]
    {
      AppendElement(vertices, Ring(env, core, circle, radius, q), j, out,
                    Add(core, env.rotate(q, Scale(circle[j], radius))), out + [Add(core, env.rotate(q, Scale(circle[j], radius)))]);
      out := out + [Add(core, env.rotate(q, Scale(circle[j], radius)))];
      j := j + 1;
    }
    assert Ring(env, core, circle, radius, q)[..j] == Ring(env, core, circle, radius, q);
  }

  /** The bottom fan loop at the first core. */
  method AddBottomCap(triangles: seq<int>, w: int) returns (out: seq<int>)
    ensures out == triangles + BottomCap(w)
  {
    out := triangles;
    var j := 0;
    while j < w
      invariant 0 <= j <= Max(w, 0)
      invariant out == triangles + Concat(BottomFan(w)[..j])
    {
      AppendBlock(triangles, BottomFan(w), j, out, [0, (j + 1) % w + 1, j + 1], out + [0, (j + 1) % w + 1, j + 1]);
      out := out + [0, (j + 1) % w + 1, j + 1];
      j := j + 1;
    }
    ConcatUpTo(BottomFan(w), j);
  }

  /** The band loop between ring i (vertices from offset) and ring i + 1,
      with ring i's uv. */
  method AddBand(triangles: seq<int>, uv: seq<Vec2>, offset: int, w: int, v: real)
    returns (outTriangles: seq<int>, outUV: seq<Vec2>)
    ensures outTriangles == triangles + Band(offset, w)
    ensures outUV == uv + UVRing(w, v)
  {
    outTriangles, outUV := triangles, uv;
    var j := 0;
    while j < w
      invariant 0 <= j <= Max(w, 0)
      invariant outTriangles == triangles + Concat(BandQuads(offset, w)[..j])
      invariant outUV == uv + UVRing(w, v)[..j]
    {
      var a := offset + j;
      var b := offset + (j + 1) % w;
      var c := a + w;
      var d := b + w;
      AppendBlock(triangles, BandQuads(offset, w), j, outTriangles, [a, b, c, c, b, d], outTriangles + [a, b, c, c, b, d]);
      outTriangles := outTriangles + [a, b, c, c, b, d];
      var u := Div(j as real, (w - 1) as real);
      UVStep(uv, w, v, j, outUV);
      outUV := outUV + [Vec2(u, v)];
      j := j + 1;
    }
    ConcatUpTo(BandQuads(offset, w), j);
    assert UVRing(w, v)[..j] == UVRing(w, v);
  }

  /** The top fan loop round vertex m at the last core, with the last
      ring's uv. */
  method AddTopCap(triangles: seq<int>, uv: seq<Vec2>, m: int, offset: int, w: int, v: real)
    returns (outTriangles: seq<int>, outUV: seq<Vec2>)
    ensures outTriangles == triangles + TopCap(m, offset, w)
    ensures outUV == uv + UVRing(w, v)
  {
    outTriangles, outUV := triangles, uv;
    var j := 0;
    while j < w
      invariant 0 <= j <= Max(w, 0)
      invariant outTriangles == triangles + Concat(TopFan(m, offset, w)[..j])
      invariant outUV == uv + UVRing(w, v)[..j]
    {
      TopFanStep(triangles, m, offset, w, j, outTriangles);
      outTriangles := outTriangles + [m, offset + j, offset + (j + 1) % w];
      var u := Div(j as real, (w - 1) as real);
      UVStep(uv, w, v, j, outUV);
      outUV := outUV + [Vec2(u, v)];
      j := j + 1;
    }
    ConcatUpTo(TopFan(m, offset, w), j);
    assert UVRing(w, v)[..j] == UVRing(w, v);
  }

  /** One more triangle of the top fan. */
  lemma TopFanStep(triangles: seq<int>, m: int, offset: int, w: int, j: int, acc: seq<int>)
    requires 0 <= j < w && acc == triangles + Concat(TopFan(m, offset, w)[..j])
    ensures acc + [m, offset + j, offset + (j + 1) % w] == triangles + Concat(TopFan(m, offset, w)[..j + 1])
  {
    AppendBlock(triangles, TopFan(m, offset, w), j, acc, [m, offset + j, offset + (j + 1) % w],
                acc + [m, offset + j, offset + (j + 1) % w]);
  }

  /** One more uv of a ring. */
  lemma UVStep(uv: seq<Vec2>, w: int, v: real, j: int, acc: seq<Vec2>)
    requires 0 <= j < w && acc == uv + UVRing(w, v)[..j]
    ensures acc + [Vec2(Div(j as real, (w - 1) as real), v)] == uv + UVRing(w, v)[..j + 1]
  {
    AppendElement(uv, UVRing(w, v), j, acc, Vec2(Div(j as real, (w - 1) as real), v),
                  acc + [Vec2(Div(j as real, (w - 1) as real), v)]);
  }

  // ---------------------------------------------------------------------
  // One step of the main loop

  /** The first core's extra work: the bottom fan, its uv (0.5, 0) and the
      first `right`. */
  method FirstCore(env: Env, cores: seq<Vec3>, w: int, triangles: seq<int>, uv: seq<Vec2>)
    returns (triangles': seq<int>, uv': seq<Vec2>, right: Vec3)
    requires |cores| >= 2
    ensures triangles' == triangles + BottomCap(w)
    ensures uv' == uv + [Vec2(0.5, 0.0)]
    ensures right == PrevRight(env, cores, 0)
  {
    triangles' := AddBottomCap(triangles, w);
    var core, next := cores[0], cores[1];
    var dir := Normalize(env, Sub(next, core));
    right := Normalize(env, env.rotate(env.lookRotation(dir), Right));
    uv' := uv + [Vec2(0.5, 0.0)];
  }

  /** `inverse` after the flip test at core i. */
  lemma InverseStep(env: Env, cores: seq<Vec3>, i: int, right: Vec3, cr: Vec3, inverse: bool, inverse': bool)
    requires |cores| >= 2 && 0 <= i < |cores|
    requires right == PrevRight(env, cores, i) && cr == RightOf(env, Dir(env, cores, i))
    requires inverse == (if i == 0 then false else Inverse(env, cores, i - 1))
    requires inverse' == (if Dot(right, cr) < 0.0 then !inverse else inverse)
    ensures inverse' == Inverse(env, cores, i)
  {
  }

  /** The ring at core i, with the flip test before it. */
  method TurnedRing(env: Env, cores: seq<Vec3>, circle: seq<Vec3>, f: real -> real, i: int, dir: Vec3,
                    vertices: seq<Vec3>, right: Vec3, inverse: bool)
    returns (vertices': seq<Vec3>, cr: Vec3, inverse': bool, q: Quat)
    requires |cores| >= 2 && 0 <= i < |cores|
    requires dir == Dir(env, cores, i)
    requires right == PrevRight(env, cores, i)
    requires inverse == (if i == 0 then false else Inverse(env, cores, i - 1))
    ensures vertices' == vertices + StemRing(env, cores, circle, f, i)
    ensures cr == RightOf(env, Dir(env, cores, i))
    ensures inverse' == Inverse(env, cores, i)
    ensures q == RingRotation(env, cores, i)
  {
    var n := |cores|;
    var v := (i as real) / ((n - 1) as real);
    cr := Normalize(env, env.rotate(env.lookRotation(dir), Right));
    inverse' := inverse;
    if Dot(right, cr) < 0.0 {
      inverse' := !inverse';
    }
    InverseStep(env, cores, i, right, cr, inverse, inverse');
    vertices', q := AddCircle(env, vertices, cores[i], circle, f(v), dir, inverse');
  }

  /** A core before the last: its ring, the band to the next ring and the
      ring's uv. */
  method InnerCore(env: Env, cores: seq<Vec3>, circle: seq<Vec3>, f: real -> real, w: int, i: int,
                   vertices: seq<Vec3>, uv: seq<Vec2>, triangles: seq<int>, right: Vec3, inverse: bool)
    returns (vertices': seq<Vec3>, uv': seq<Vec2>, triangles': seq<int>, right': Vec3, inverse': bool, q: Quat)
    requires |cores| >= 2 && 0 <= i < |cores| - 1
    requires right == PrevRight(env, cores, i)
    requires inverse == (if i == 0 then false else Inverse(env, cores, i - 1))
    ensures vertices' == vertices + StemRing(env, cores, circle, f, i)
    ensures uv' == uv + UVRing(w, RingParam(i, |cores|))
    ensures triangles' == triangles + Band(BlockStart(i, w) + 1, w)
    ensures right' == RightOf(env, Dir(env, cores, i)) && inverse' == Inverse(env, cores, i)
    ensures q == RingRotation(env, cores, i)
  {
    var core, next := cores[i], cores[i + 1];
    var dir := Normalize(env, Sub(next, core));
    vertices', right', inverse', q := TurnedRing(env, cores, circle, f, i, dir, vertices, right, inverse);
    triangles', uv' := RingBand(w, |cores|, i, triangles, uv);
  }

  /** The band from ring i to ring i + 1, starting at vertex i * w + 1,
      with ring i's uv. */
  method RingBand(w: int, n: int, i: int, triangles: seq<int>, uv: seq<Vec2>)
    returns (triangles': seq<int>, uv': seq<Vec2>)
    requires n >= 2 && 0 <= i < n - 1
    ensures triangles' == triangles + Band(BlockStart(i, w) + 1, w)
    ensures uv' == uv + UVRing(w, RingParam(i, n))
  {
    var v := (i as real) / ((n - 1) as real);
    var offset := i * w + 1;
    BlockStartIsProduct(i, w);
    triangles', uv' := AddBand(triangles, uv, offset, w, v);
  }

  /** The last core: its ring, then the core itself as the top vertex. */
  method LastRing(env: Env, cores: seq<Vec3>, circle: seq<Vec3>, f: real -> real,
                  vertices: seq<Vec3>, right: Vec3, inverse: bool)
    returns (vertices': seq<Vec3>, q: Quat)
    requires |cores| >= 2
    requires right == PrevRight(env, cores, |cores| - 1)
    requires inverse == Inverse(env, cores, |cores| - 2)
    ensures vertices' == vertices + VertexBlock(env, cores, circle, f, |cores| - 1)
    ensures |vertices'| == |vertices| + |circle| + 1
    ensures q == RingRotation(env, cores, |cores| - 1)
  {
    var n := |cores|;
    var i := n - 1;
    var core, prev := cores[i], cores[i - 1];
    var dir := Normalize(env, Sub(core, prev));
    var ring, cr, inverse';
    ring, cr, inverse', q := TurnedRing(env, cores, circle, f, i, dir, vertices, right, inverse);
    vertices' := ring + [cores[n - 1]];
    Regroup(vertices, StemRing(env, cores, circle, f, i), [cores[n - 1]], vertices');
    LastVertexBlock(env, cores, circle, f);
  }

  /** The last core's uv (0.5, 1), then the fan closing the top around
      vertex m, with the last ring's uv. */
  method LastCap(w: int, n: int, triangles: seq<int>, uv: seq<Vec2>, m: int)
    returns (triangles': seq<int>, uv': seq<Vec2>)
    requires n >= 2 && m == BlockStart(n, Max(w, 0)) + 1
    ensures triangles' == triangles + TriBlock(w, n, n - 1)
    ensures uv' == uv + UVBlock(w, n, n - 1)
  {
    var i := n - 1;
    var v := (i as real) / ((n - 1) as real);
    var offset := i * w + 1;
    BlockStartIsProduct(i, w);
    var uv1 := uv + [Vec2(0.5, 1.0)];
    triangles', uv' := AddTopCap(triangles, uv1, m, offset, w, v);
    Regroup(uv, [Vec2(0.5, 1.0)], UVRing(w, RingParam(i, n)), uv');
    LastUVBlock(w, n);
    LastTriBlock(w, n);
  }

  /** The index of the top vertex: one past the n rings and vertex 0. */
  lemma TopVertex(n: int, l: int, before: int, after: int)
    requires n >= 2 && l >= 0 && before == 1 + BlockStart(n - 1, l) && after == before + l + 1
    ensures after - 1 == BlockStart(n, l) + 1
  {
  }

  /** The blocks of the first core, of a middle core and of the last. */
  lemma FirstBlocks(w: int, n: int)
    requires n >= 2
    ensures UVBlock(w, n, 0) == [Vec2(0.5, 0.0)] + UVRing(w, RingParam(0, n))
    ensures TriBlock(w, n, 0) == BottomCap(w) + Band(BlockStart(0, w) + 1, w)
  {
  }

  lemma MiddleBlocks(w: int, n: int, i: int)
    requires n >= 2 && 0 < i < n - 1
    ensures UVBlock(w, n, i) == UVRing(w, RingParam(i, n))
    ensures TriBlock(w, n, i) == Band(BlockStart(i, w) + 1, w)
  {
    EmptyLeft(UVRing(w, RingParam(i, n)));
    EmptyLeft(Band(BlockStart(i, w) + 1, w));
  }

  lemma LastVertexBlock(env: Env, cores: seq<Vec3>, circle: seq<Vec3>, f: real -> real)
    requires |cores| >= 2
    ensures VertexBlock(env, cores, circle, f, |cores| - 1) == StemRing(env, cores, circle, f, |cores| - 1) + [cores[|cores| - 1]]
  {
  }

  lemma LastUVBlock(w: int, n: int)
    requires n >= 2
    ensures UVBlock(w, n, n - 1) == [Vec2(0.5, 1.0)] + UVRing(w, RingParam(n - 1, n))
  {
    EmptyLeft([Vec2(0.5, 1.0)] + UVRing(w, RingParam(n - 1, n)));
  }

  lemma LastTriBlock(w: int, n: int)
    requires n >= 2
    ensures TriBlock(w, n, n - 1) == TopCap(BlockStart(n, Max(w, 0)) + 1, BlockStart(n - 1, w) + 1, w)
  {
    EmptyLeft(TopCap(BlockStart(n, Max(w, 0)) + 1, BlockStart(n - 1, w) + 1, w));
  }

  /** What the main loop holds when it reaches core i: the first core and
      i rings of vertices, and `right` and `inverse` as the cores before
      left them. */
  ghost predicate CoreReady(env: Env, cores: seq<Vec3>, circle: seq<Vec3>, w: int, i: int,
                            vertices: seq<Vec3>, right: Vec3, inverse: bool)
  {
    && |cores| >= 2 && 0 <= i < |cores|
    && |circle| == Max(w, 0) && |vertices| == 1 + BlockStart(i, |circle|)
    && (i > 0 ==> right == PrevRight(env, cores, i))
    && inverse == (if i == 0 then false else Inverse(env, cores, i - 1))
  }

  /** What the step for core i appends to each list, and the rotation of
      its ring. */
  ghost predicate CoreStepped(env: Env, cores: seq<Vec3>, circle: seq<Vec3>, f: real -> real, w: int, i: int,
                              vertices: seq<Vec3>, uv: seq<Vec2>, triangles: seq<int>,
                              vertices': seq<Vec3>, uv': seq<Vec2>, triangles': seq<int>, q: Quat)
  {
    && |cores| >= 2 && 0 <= i < |cores|
    && vertices' == vertices + VertexBlock(env, cores, circle, f, i)
    && uv' == uv + UVBlock(w, |cores|, i)
    && triangles' == triangles + TriBlock(w, |cores|, i)
    && q == RingRotation(env, cores, i)
  }

  /** Everything the main loop does for core i, one block per list. */
  method CoreStep(env: Env, cores: seq<Vec3>, circle: seq<Vec3>, f: real -> real, w: int, i: int,
                  vertices: seq<Vec3>, uv: seq<Vec2>, triangles: seq<int>, right: Vec3, inverse: bool)
    returns (vertices': seq<Vec3>, uv': seq<Vec2>, triangles': seq<int>, right': Vec3, inverse': bool, q: Quat)
    requires CoreReady(env, cores, circle, w, i, vertices, right, inverse)
    ensures CoreStepped(env, cores, circle, f, w, i, vertices, uv, triangles, vertices', uv', triangles', q)
    ensures i < |cores| - 1 ==> CoreReady(env, cores, circle, w, i + 1, vertices', right', inverse')
  {
    if i == 0 {
      vertices', uv', triangles', right', inverse', q := FirstStep(env, cores, circle, f, w, vertices, uv, triangles);
    } else if i < |cores| - 1 {
      vertices', uv', triangles', right', inverse', q := MiddleStep(env, cores, circle, f, w, i, vertices, uv, triangles, right, inverse);
    } else {
      vertices', uv', triangles', q := LastStep(env, cores, circle, f, w, vertices, uv, triangles, right, inverse);
      right', inverse' := right, inverse;
    }
  }

  /** Core 0: the bottom fan and the uv (0.5, 0) come before its ring. */
  method FirstStep(env: Env, cores: seq<Vec3>, circle: seq<Vec3>, f: real -> real, w: int,
                   vertices: seq<Vec3>, uv: seq<Vec2>, triangles: seq<int>)
    returns (vertices': seq<Vec3>, uv': seq<Vec2>, triangles': seq<int>, right': Vec3, inverse': bool, q: Quat)
    requires |cores| >= 2 && |circle| == Max(w, 0) && |vertices| == 1
    ensures CoreStepped(env, cores, circle, f, w, 0, vertices, uv, triangles, vertices', uv', triangles', q)
    ensures CoreReady(env, cores, circle, w, 1, vertices', right', inverse')
  {
    var t, u, r := FirstCore(env, cores, w, triangles, uv);
    vertices', uv', triangles', right', inverse', q := InnerCore(env, cores, circle, f, w, 0, vertices, u, t, r, false);
    Regroup(uv, [Vec2(0.5, 0.0)], UVRing(w, RingParam(0, |cores|)), uv');
    Regroup(triangles, BottomCap(w), Band(BlockStart(0, w) + 1, w), triangles');
    FirstBlocks(w, |cores|);
  }

  /** A core strictly between the first and the last. */
  method MiddleStep(env: Env, cores: seq<Vec3>, circle: seq<Vec3>, f: real -> real, w: int, i: int,
                    vertices: seq<Vec3>, uv: seq<Vec2>, triangles: seq<int>, right: Vec3, inverse: bool)
    returns (vertices': seq<Vec3>, uv': seq<Vec2>, triangles': seq<int>, right': Vec3, inverse': bool, q: Quat)
    requires CoreReady(env, cores, circle, w, i, vertices, right, inverse) && 0 < i < |cores| - 1
    ensures CoreStepped(env, cores, circle, f, w, i, vertices, uv, triangles, vertices', uv', triangles', q)
    ensures CoreReady(env, cores, circle, w, i + 1, vertices', right', inverse')
  {
    vertices', uv', triangles', right', inverse', q := InnerCore(env, cores, circle, f, w, i, vertices, uv, triangles, right, inverse);
    MiddleBlocks(w, |cores|, i);
  }

  /** The last core. */
  method LastStep(env: Env, cores: seq<Vec3>, circle: seq<Vec3>, f: real -> real, w: int,
                  vertices: seq<Vec3>, uv: seq<Vec2>, triangles: seq<int>, right: Vec3, inverse: bool)
    returns (vertices': seq<Vec3>, uv': seq<Vec2>, triangles': seq<int>, q: Quat)
    requires CoreReady(env, cores, circle, w, |cores| - 1, vertices, right, inverse)
    ensures CoreStepped(env, cores, circle, f, w, |cores| - 1, vertices, uv, triangles, vertices', uv', triangles', q)
  {
    vertices', q := LastRing(env, cores, circle, f, vertices, right, inverse);
    var m := |vertices'| - 1;
    TopVertex(|cores|, |circle|, |vertices|, |vertices'|);
    triangles', uv' := LastCap(w, |cores|, triangles, uv, m);
  }

  // ---------------------------------------------------------------------
  // The state of the main loop

  /** The lists after the main loop has handled cores 0 .. i - 1. */
  ghost predicate StemUpTo(env: Env, cores: seq<Vec3>, circle: seq<Vec3>, f: real -> real, w: int, i: int,
                           vertices: seq<Vec3>, uv: seq<Vec2>, triangles: seq<int>, segments: seq<Point>)
  {
    |cores| >= 2 && 0 <= i <= |cores|
    && vertices == [cores[0]] + Concat(VertexBlocks(env, cores, circle, f)[..i])
    && uv == Concat(UVBlocks(w, |cores|)[..i])
    && triangles == Concat(TriBlocks(w, |cores|)[..i])
    && segments == StemSegments(env, cores)[..MinI(i, |cores| - 1)]
  }

  lemma StemStart(env: Env, cores: seq<Vec3>, circle: seq<Vec3>, f: real -> real, w: int)
    requires |cores| >= 2
    ensures StemUpTo(env, cores, circle, f, w, 0, [cores[0]], [], [], [])
  {
    assert VertexBlocks(env, cores, circle, f)[..0] == [];
    assert UVBlocks(w, |cores|)[..0] == [];
    assert TriBlocks(w, |cores|)[..0] == [];
  }

  lemma SegmentStep(env: Env, cores: seq<Vec3>, i: int, segments: seq<Point>, q: Quat, segments': seq<Point>)
    requires |cores| >= 2 && 0 <= i < |cores|
    requires segments == StemSegments(env, cores)[..MinI(i, |cores| - 1)]
    requires q == RingRotation(env, cores, i)
    requires segments' == if i < |cores| - 1 then segments + [Point(cores[i], q)] else segments
    ensures segments' == StemSegments(env, cores)[..MinI(i + 1, |cores| - 1)]
  {
    if i < |cores| - 1 {
      TakeAppend(StemSegments(env, cores), i, segments, Point(cores[i], q), segments');
    }
  }

  lemma StemStep(env: Env, cores: seq<Vec3>, circle: seq<Vec3>, f: real -> real, w: int, i: int,
                 vertices: seq<Vec3>, uv: seq<Vec2>, triangles: seq<int>, segments: seq<Point>,
                 vertices': seq<Vec3>, uv': seq<Vec2>, triangles': seq<int>, segments': seq<Point>, q: Quat)
    requires StemUpTo(env, cores, circle, f, w, i, vertices, uv, triangles, segments)
    requires CoreStepped(env, cores, circle, f, w, i, vertices, uv, triangles, vertices', uv', triangles', q)
    requires segments' == if i < |cores| - 1 then segments + [Point(cores[i], q)] else segments
    ensures StemUpTo(env, cores, circle, f, w, i + 1, vertices', uv', triangles', segments')
  {
    AppendBlock([cores[0]], VertexBlocks(env, cores, circle, f), i, vertices, VertexBlock(env, cores, circle, f, i), vertices');
    AppendBlock([], UVBlocks(w, |cores|), i, uv, UVBlock(w, |cores|, i), uv');
    AppendBlock([], TriBlocks(w, |cores|), i, triangles, TriBlock(w, |cores|, i), triangles');
    SegmentStep(env, cores, i, segments, q, segments');
  }

  lemma StemDone(env: Env, cores: seq<Vec3>, circle: seq<Vec3>, f: real -> real, w: int,
                 vertices: seq<Vec3>, uv: seq<Vec2>, triangles: seq<int>, segments: seq<Point>)
    requires StemUpTo(env, cores, circle, f, w, |cores|, vertices, uv, triangles, segments)
    ensures Mesh(vertices, uv, triangles) == StemMeshOf(env, cores, circle, w, f)
    ensures segments == StemSegments(env, cores)
  {
    ConcatUpTo(VertexBlocks(env, cores, circle, f), |cores|);
    ConcatUpTo(UVBlocks(w, |cores|), |cores|);
    ConcatUpTo(TriBlocks(w, |cores|), |cores|);
    assert StemSegments(env, cores)[..|cores| - 1] == StemSegments(env, cores);
    MeshEq(Mesh(vertices, uv, triangles), StemMeshOf(env, cores, circle, w, f));
  }

  class FlowerStem {
    const hResolution: int
    const radius: real
    const wResolution: int
    var segments: seq<Point>
    var tip: Option<Point>

    /** The default settings: 4 samples per window, radius 0.05, 10 points
        round the circle. */
    constructor ()
      ensures hResolution == 4 && radius == 0.05 && wResolution == 10
      ensures segments == [] && tip == None
    {
      hResolution := 4;
      radius := 0.05;
      wResolution := 10;
      segments := [];
      tip := None;
    }

    constructor WithResolution(hResolution: int, wResolution: int, radius: real)
      ensures this.hResolution == hResolution && this.wResolution == wResolution && this.radius == radius
      ensures segments == [] && tip == None
    {
      this.hResolution := hResolution;
      this.radius := radius;
      this.wResolution := wResolution;
      segments := [];
      tip := None;
    }

    /** Build with the stem's own settings and a constant radius. */
    method Build(env: Env, controls: seq<Vec3>) returns (mesh: Result<Mesh>)
      modifies this
      ensures BuildOutcome(env, controls, wResolution, hResolution, radius, UnitProfile, mesh,
                           old(segments), old(tip), segments, tip)
    {
      mesh := BuildStem(env, controls, wResolution, hResolution, radius, UnitProfile);
    }

    /** Build with the stem's own settings, the radius at v scaled by f(v). */
    method BuildWith(env: Env, controls: seq<Vec3>, f: real -> real) returns (mesh: Result<Mesh>)
      modifies this
      ensures BuildOutcome(env, controls, wResolution, hResolution, radius, f, mesh,
                           old(segments), old(tip), segments, tip)
    {
      mesh := BuildStem(env, controls, wResolution, hResolution, radius, f);
    }

    method BuildStem(env: Env, controls: seq<Vec3>, w: int, h: int, radius: real, f: real -> real)
      returns (mesh: Result<Mesh>)
      modifies this
      ensures BuildOutcome(env, controls, w, h, radius, f, mesh, old(segments), old(tip), segments, tip)
    {
      if |controls| < 4 {
        return Err(InsufficientControlPoints);
      }
      var first, second := controls[0], controls[1];
      var blast, last := controls[|controls| - 2], controls[|controls| - 1];
      var ext := [Add(first, Scale(Normalize(env, Sub(first, second)), 0.25))] + controls;
      ext := ext + [Add(last, Scale(Normalize(env, Sub(last, blast)), 0.25))];
      assert ext == Extend(env, controls);

      var sampled := SampleCores(ext, h);
      if sampled.Err? {
        return Err(sampled.error);
      }
      var cores := sampled.value;
      CoreCount(env, controls, h);
      var n := |cores|;

      var circle := MakeCircle(env, w, radius);

      segments := [];
      if n < 2 {
        // the first step reads cores[1], which does not exist
        return Err(IndexOutOfRange);
      }
      var built := BuildRings(env, cores, circle, w, f);
      return Ok(built);
    }

    /** The main loop, core by core, from an empty segment list. */
    method BuildRings(env: Env, cores: seq<Vec3>, circle: seq<Vec3>, w: int, f: real -> real) returns (mesh: Mesh)
      requires |cores| >= 2 && |circle| == Max(w, 0) && segments == []
      modifies this
      ensures mesh == StemMeshOf(env, cores, circle, w, f)
      ensures segments == StemSegments(env, cores) && tip == Some(StemTip(env, cores))
    {
      var n := |cores|;
      var vertices := [cores[0]];
      var uv: seq<Vec2> := [];
      var triangles: seq<int> := [];
      var right := Right;
      var inverse := false;
      StemStart(env, cores, circle, f, w);

      var i := 0;
      while i < n
        invariant 0 <= i <= n
        invariant StemUpTo(env, cores, circle, f, w, i, vertices, uv, triangles, segments)
        invariant i < n ==> CoreReady(env, cores, circle, w, i, vertices, right, inverse)
        invariant tip == if i == n then Some(StemTip(env, cores)) else old(tip)
      {
        var vertices', uv', triangles', q;
        vertices', uv', triangles', right, inverse, q :=
          CoreStep(env, cores, circle, f, w, i, vertices, uv, triangles, right, inverse);
        ghost var segments0 := segments;
        if i < n - 1 {
          segments := segments + [Point(cores[i], q)];
        } else {
          tip := Some(Point(cores[i], q));
        }
        StemStep(env, cores, circle, f, w, i, vertices, uv, triangles, segments0, vertices', uv', triangles', segments, q);
        vertices, uv, triangles := vertices', uv', triangles';
        i := i + 1;
      }
      StemDone(env, cores, circle, f, w, vertices, uv, triangles, segments);
      return Mesh(vertices, uv, triangles);
    }
  }

  // ---------------------------------------------------------------------
  // What a built stem is

  /** A stem built from at least four controls with hResolution >= 2 is a
      well-formed mesh (see StemMeshWellFormed) that starts at the first
      control and ends at the last, with a segment per core but the last. */
  lemma BuiltStemWellFormed(env: Env, controls: seq<Vec3>, w: int, h: int, radius: real, f: real -> real)
    requires |controls| >= 4 && h >= 2
    ensures |Cores(Extend(env, controls), h)| >= 2
    ensures WellFormedStemMesh(StemMeshOf(env, Cores(Extend(env, controls), h), Circle(env, w, radius), w, f),
                               Cores(Extend(env, controls), h), w)
    ensures Cores(Extend(env, controls), h)[0] == controls[0]
    ensures Cores(Extend(env, controls), h)[|Cores(Extend(env, controls), h)| - 1] == controls[|controls| - 1]
    ensures |StemSegments(env, Cores(Extend(env, controls), h))| == |Cores(Extend(env, controls), h)| - 1
  {
    var cores := Cores(Extend(env, controls), h);
    CoreCount(env, controls, h);
    CoresThroughControls(env, controls, h, 0);
    CoresThroughControls(env, controls, h, |controls| - 1);
    StemMeshWellFormed(env, cores, Circle(env, w, radius), w, f);
  }
}
