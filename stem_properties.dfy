/** What FlowerStem.Build promises about the stem it builds: how many cores
    the spline gives and that the stem passes through every control, how
    the rings turn, and the layout of the vertex, uv and triangle lists. */
module StemProperties {
  import opened UnityMath
  import opened CatmullRom
  import opened Blocks
  import opened StemMesh

  // ---------------------------------------------------------------------
  // Cores

  lemma {:induction false} CorePrefixLength(ext: seq<Vec3>, h: int, m: int)
    requires h >= 1 && |ext| >= 4 && 1 <= m <= |ext| - 3
    ensures |Concat(CorePieces(ext, h)[..m])| == 1 + BlockStart(m, h - 1)
  {
    var pieces := CorePieces(ext, h);
    ConcatStep(pieces, m - 1);
    if m == 1 {
      assert pieces[..0] == [];
    } else {
      CorePrefixLength(ext, h, m - 1);
    }
  }

  /** After window m - 1 the cores end at control m - 1 (ext[m]). */
  lemma CorePrefixEnd(ext: seq<Vec3>, h: int, m: int)
    requires h >= 2 && |ext| >= 4 && 1 <= m <= |ext| - 3
    ensures 0 <= BlockStart(m, h - 1) < |Concat(CorePieces(ext, h)[..m])|
    ensures Concat(CorePieces(ext, h)[..m])[BlockStart(m, h - 1)] == ext[m + 1]
  {
    var pieces := CorePieces(ext, h);
    CorePrefixLength(ext, h, m);
    BlockStartNonNegative(m, h - 1);
    ConcatStep(pieces, m - 1);
    SamplesEndpoints(h, ext[m - 1], ext[m], ext[m + 1], ext[m + 2]);
  }

  /** The spline gives one core, then hResolution - 1 more per control
      after the first; so there are two cores or more exactly when
      hResolution >= 2. */
  lemma CoreCount(env: Env, controls: seq<Vec3>, h: int)
    requires |controls| >= 4 && h >= 1
    ensures |Cores(Extend(env, controls), h)| == 1 + (|controls| - 1) * (h - 1)
    ensures |Cores(Extend(env, controls), h)| >= 2 <==> h >= 2
  {
    var ext := Extend(env, controls);
    CorePrefixLength(ext, h, |ext| - 3);
    ConcatUpTo(CorePieces(ext, h), |ext| - 3);
    BlockStartIsProduct(|controls| - 1, h - 1);
    if h >= 2 {
      MulMono(1, |controls| - 1, h - 1);
    }
  }

  /** The stem passes through every control: control j is core
      j * (hResolution - 1); the first and last cores are the first and
      last controls. */
  lemma CoresThroughControls(env: Env, controls: seq<Vec3>, h: int, j: int)
    requires |controls| >= 4 && h >= 2 && 0 <= j < |controls|
    ensures 0 <= j * (h - 1) < |Cores(Extend(env, controls), h)|
    ensures Cores(Extend(env, controls), h)[j * (h - 1)] == controls[j]
  {
    var ext := Extend(env, controls);
    var pieces := CorePieces(ext, h);
    assert ext[j + 1] == ext[1..|controls| + 1][j];
    if j == 0 {
      ConcatPrefix(pieces, 1);
      ConcatStep(pieces, 0);
      assert pieces[..0] == [];
      SamplesEndpoints(h, ext[0], ext[1], ext[2], ext[3]);
    } else {
      ConcatPrefix(pieces, j);
      CorePrefixEnd(ext, h, j);
      BlockStartIsProduct(j, h - 1);
    }
  }

  // ---------------------------------------------------------------------
  // Rings

  /** The first ring is never turned half round: `right` starts out as the
      first ring's own right vector. */
  lemma FirstRingUnturned(env: Env, cores: seq<Vec3>)
    requires |cores| >= 2
    ensures !Inverse(env, cores, 0)
    ensures RingRotation(env, cores, 0) == env.lookRotation(Dir(env, cores, 0))
  {
    var r := RightOf(env, Dir(env, cores, 0));
    assert Dot(r, r) >= 0.0;
  }

  /** From one ring to the next, `inverse` changes exactly when their right
      vectors point apart. */
  lemma InverseToggles(env: Env, cores: seq<Vec3>, i: int)
    requires |cores| >= 2 && 1 <= i < |cores|
    ensures Inverse(env, cores, i) != Inverse(env, cores, i - 1)
        <==> Dot(RightOf(env, Dir(env, cores, i - 1)), RightOf(env, Dir(env, cores, i))) < 0.0
  {
  }

  /** While no two neighbouring right vectors point apart, every ring is
      turned by LookRotation(dir) alone. */
  lemma {:induction false} NoFlipNoTurn(env: Env, cores: seq<Vec3>, i: int)
    requires |cores| >= 2 && 0 <= i < |cores|
    requires forall k :: 1 <= k <= i ==>
               Dot(RightOf(env, Dir(env, cores, k - 1)), RightOf(env, Dir(env, cores, k))) >= 0.0
    ensures !Inverse(env, cores, i)
    ensures RingRotation(env, cores, i) == env.lookRotation(Dir(env, cores, i))
  {
    if i == 0 {
      FirstRingUnturned(env, cores);
    } else {
      NoFlipNoTurn(env, cores, i - 1);
      InverseToggles(env, cores, i);
    }
  }

  // ---------------------------------------------------------------------
  // Vertices

  function StemRings(env: Env, cores: seq<Vec3>, circle: seq<Vec3>, f: real -> real): (r: seq<seq<Vec3>>)
    requires |cores| >= 2
    ensures |r| == |cores|
    ensures forall i :: 0 <= i < |cores| ==> |r[i]| == |circle|
  {
    seq(|cores|, i requires 0 <= i < |cores| => StemRing(env, cores, circle, f, i))
  }

  lemma VerticesAreRings(env: Env, cores: seq<Vec3>, circle: seq<Vec3>, f: real -> real)
    requires |cores| >= 2
    ensures Concat(VertexBlocks(env, cores, circle, f))
         == Concat(StemRings(env, cores, circle, f)) + [cores[|cores| - 1]]
  {
    ConcatLastTail(VertexBlocks(env, cores, circle, f), StemRings(env, cores, circle, f), [cores[|cores| - 1]]);
  }

  /** The vertices: the first core, n rings of |circle| vertices each, the
      last core. */
  lemma StemVertexCount(env: Env, cores: seq<Vec3>, circle: seq<Vec3>, w: int, f: real -> real)
    requires |cores| >= 2
    ensures |StemMeshOf(env, cores, circle, w, f).vertices| == |cores| * |circle| + 2
    ensures StemMeshOf(env, cores, circle, w, f).vertices[0] == cores[0]
    ensures StemMeshOf(env, cores, circle, w, f).vertices[|cores| * |circle| + 1] == cores[|cores| - 1]
  {
    VerticesAreRings(env, cores, circle, f);
    ConcatLength(StemRings(env, cores, circle, f), |circle|);
    BlockStartIsProduct(|cores|, |circle|);
  }

  /** Vertex 1 + i * |circle| + j is circle point j scaled by f(v), turned
      by ring i's rotation and moved to core i. */
  lemma StemRingVertex(env: Env, cores: seq<Vec3>, circle: seq<Vec3>, w: int, f: real -> real, i: int, j: int)
    requires |cores| >= 2 && 0 <= i < |cores| && 0 <= j < |circle|
    ensures 0 <= 1 + i * |circle| + j < |StemMeshOf(env, cores, circle, w, f).vertices|
    ensures StemMeshOf(env, cores, circle, w, f).vertices[1 + i * |circle| + j]
         == Add(cores[i], env.rotate(RingRotation(env, cores, i), Scale(circle[j], f(RingParam(i, |cores|)))))
  {
    var rings := StemRings(env, cores, circle, f);
    MulMono(0, i, |circle|);
    VerticesAreRings(env, cores, circle, f);
    ConcatIndex(rings, |circle|, i, j);
    BlockStartIsProduct(i, |circle|);
  }

  // ---------------------------------------------------------------------
  // Uv

  function UVRings(w: int, n: int): (r: seq<seq<Vec2>>)
    requires n >= 2
    ensures |r| == n
    ensures forall i :: 0 <= i < n ==> |r[i]| == Max(w, 0)
  {
    seq(n, i => UVRing(w, RingParam(i, n)))
  }

  lemma {:induction false} UVPrefix(w: int, n: int, m: int)
    requires n >= 2 && 1 <= m <= n - 1
    ensures Concat(UVBlocks(w, n)[..m]) == [Vec2(0.5, 0.0)] + Concat(UVRings(w, n)[..m])
  {
    var blocks := UVBlocks(w, n);
    var rings := UVRings(w, n);
    ConcatStep(blocks, m - 1);
    ConcatStep(rings, m - 1);
    if m == 1 {
      assert blocks[..0] == [] && rings[..0] == [];
    } else {
      UVPrefix(w, n, m - 1);
    }
  }

  /** The uv list: (0.5, 0) for the first core, the rings' uv, and
      (0.5, 1) for the last core placed before the last ring's uv rather
      than after it. */
  lemma UVAreRings(w: int, n: int)
    requires n >= 2
    ensures Concat(UVBlocks(w, n))
         == [Vec2(0.5, 0.0)] + Concat(UVRings(w, n)[..n - 1]) + [Vec2(0.5, 1.0)] + UVRings(w, n)[n - 1]
  {
    var blocks := UVBlocks(w, n);
    UVPrefix(w, n, n - 1);
    ConcatStep(blocks, n - 1);
    ConcatUpTo(blocks, n);
  }

  lemma LastRingParam(n: int)
    requires n >= 2
    ensures RingParam(n - 1, n) == 1.0
  {
  }

  /** As many uv as vertices: (0.5, 0) first, for the first core, and
      (0.5, 1), the last core's, at the index of the last ring's first
      vertex. */
  lemma StemUVCount(w: int, n: int)
    requires n >= 2
    ensures |Concat(UVBlocks(w, n))| == n * Max(w, 0) + 2
    ensures Concat(UVBlocks(w, n))[0] == Vec2(0.5, 0.0)
    ensures 1 + (n - 1) * Max(w, 0) < |Concat(UVBlocks(w, n))|
         && Concat(UVBlocks(w, n))[1 + (n - 1) * Max(w, 0)] == Vec2(0.5, 1.0)
  {
    var rings := UVRings(w, n);
    var l := Max(w, 0);
    UVAreRings(w, n);
    ConcatLength(rings[..n - 1], l);
    BlockStartIsProduct(n - 1, l);
    MulSucc(n - 1, l);
  }

  /** The uv of every ring but the last sits at its vertex's index
      1 + i * wResolution + j; the last ring's sit one later, after the
      last core's. */
  lemma StemUVRing(w: int, n: int, i: int, j: int)
    requires n >= 2 && 0 <= i < n && 0 <= j < Max(w, 0)
    ensures i < n - 1 ==>
              0 <= 1 + i * Max(w, 0) + j < |Concat(UVBlocks(w, n))|
              && Concat(UVBlocks(w, n))[1 + i * Max(w, 0) + j] == Vec2(Div(j as real, (w - 1) as real), RingParam(i, n))
    ensures 2 + (n - 1) * Max(w, 0) + j < |Concat(UVBlocks(w, n))|
         && Concat(UVBlocks(w, n))[2 + (n - 1) * Max(w, 0) + j] == Vec2(Div(j as real, (w - 1) as real), 1.0)
  {
    var rings := UVRings(w, n);
    var init := rings[..n - 1];
    var l := Max(w, 0);
    UVAreRings(w, n);
    ConcatLength(init, l);
    BlockStartIsProduct(n - 1, l);
    LastRingParam(n);
    if i < n - 1 {
      ConcatIndex(init, l, i, j);
      BlockStartIsProduct(i, l);
    }
  }

  // ---------------------------------------------------------------------
  // Triangles

  lemma FanLengths(w: int, m: int, offset: int)
    ensures |BottomCap(w)| == 3 * Max(w, 0)
    ensures |TopCap(m, offset, w)| == 3 * Max(w, 0)
    ensures |Band(offset, w)| == 6 * Max(w, 0)
  {
    ConcatLength(BottomFan(w), 3);
    ConcatLength(TopFan(m, offset, w), 3);
    ConcatLength(BandQuads(offset, w), 6);
    BlockStartIsProduct(Max(w, 0), 3);
    BlockStartIsProduct(Max(w, 0), 6);
  }

  lemma TriBlockLength(w: int, n: int, i: int)
    requires n >= 2 && 0 <= i < n
    ensures |TriBlocks(w, n)[i]| == (if i == 0 then 3 * Max(w, 0) else 0) + (if i < n - 1 then 6 * Max(w, 0) else 3 * Max(w, 0))
  {
    FanLengths(w, BlockStart(n, Max(w, 0)) + 1, BlockStart(i, w) + 1);
  }

  lemma SixFold(total: int, n: int, l: int)
    requires n >= 2
    requires total == 9 * l + BlockStart(n - 2, 6 * l) + 3 * l
    ensures total == 6 * n * l
  {
    BlockStartIsProduct(n - 2, 6 * l);
    SixFoldProduct(n, l);
  }

  lemma SixFoldProduct(n: int, l: int)
    ensures (n - 2) * (6 * l) + 12 * l == 6 * n * l
  {
  }

  /** Every block between the first and the last is one band. */
  lemma BandBlockLengths(w: int, n: int)
    requires n >= 2
    ensures forall k :: 1 <= k < n - 1 ==> |TriBlocks(w, n)[k]| == 6 * Max(w, 0)
  {
    forall k | 1 <= k < n - 1
      ensures |TriBlocks(w, n)[k]| == 6 * Max(w, 0)
    {
      TriBlockLength(w, n, k);
    }
  }

  /** Two triangles per side of every ring: 6 * wResolution * n indices. */
  lemma StemTriangleCount(w: int, n: int)
    requires n >= 2
    ensures |Concat(TriBlocks(w, n))| == 6 * n * Max(w, 0)
  {
    BandBlockLengths(w, n);
    TriBlockLength(w, n, 0);
    TriBlockLength(w, n, n - 1);
    ConcatLengthEnds(TriBlocks(w, n), n, 9 * Max(w, 0), 6 * Max(w, 0), 3 * Max(w, 0));
    SixFold(|Concat(TriBlocks(w, n))|, n, Max(w, 0));
  }

  lemma BottomCapIn(w: int, hi: int)
    requires w < hi
    ensures AllIn(BottomCap(w), 0, hi)
  {
    var fan := BottomFan(w);
    forall j | 0 <= j < |fan|
      ensures AllIn(fan[j], 0, hi)
    {
      assert fan[j] == [0, (j + 1) % w + 1, j + 1];
    }
    ConcatAllIn(fan, 0, hi);
  }

  lemma BandIn(offset: int, w: int, hi: int)
    requires w <= 0 || (0 <= offset && offset + 2 * w <= hi)
    ensures AllIn(Band(offset, w), 0, hi)
  {
    var quads := BandQuads(offset, w);
    forall j | 0 <= j < |quads|
      ensures AllIn(quads[j], 0, hi)
    {
      assert quads[j] == BandQuad(offset, w, j);
    }
    ConcatAllIn(quads, 0, hi);
  }

  lemma TopCapIn(m: int, offset: int, w: int, hi: int)
    requires 0 <= m < hi
    requires w <= 0 || (0 <= offset && offset + w <= hi)
    ensures AllIn(TopCap(m, offset, w), 0, hi)
  {
    var fan := TopFan(m, offset, w);
    forall j | 0 <= j < |fan|
      ensures AllIn(fan[j], 0, hi)
    {
      assert fan[j] == [m, offset + j, offset + (j + 1) % w];
    }
    ConcatAllIn(fan, 0, hi);
  }

  /** Where ring i's band and the top fan reach: never past vertex
      n * wResolution + 1. */
  lemma RingOffsets(w: int, n: int, i: int)
    requires n >= 2 && 0 <= i < n
    ensures 0 <= BlockStart(n, Max(w, 0))
    ensures w > 0 ==> 0 <= BlockStart(i, w) + 1
    ensures w > 0 && i < n - 1 ==> BlockStart(i, w) + 1 + 2 * w <= BlockStart(n, Max(w, 0)) + 2
    ensures w > 0 ==> BlockStart(i, w) + 1 + w <= BlockStart(n, Max(w, 0)) + 2
    ensures w < BlockStart(n, Max(w, 0)) + 2
  {
    BlockStartIsProduct(n, Max(w, 0));
    if w > 0 {
      BlockStartIsProduct(i, w);
      MulMono(0, i, w);
      MulMono(1, n, w);
      MulSucc(i, w);
      MulSucc(i + 1, w);
      if i < n - 1 {
        MulMono(i + 2, n, w);
      } else {
        MulMono(i + 1, n, w);
      }
    } else {
      MulMono(0, n, 0);
    }
  }

  /** The bottom fan of block i (block 0 only) stays within the vertices. */
  lemma TriHeadIn(w: int, n: int, i: int)
    requires n >= 2 && 0 <= i < n
    ensures AllIn(if i == 0 then BottomCap(w) else [], 0, BlockStart(n, Max(w, 0)) + 2)
  {
    RingOffsets(w, n, i);
    BottomCapIn(w, BlockStart(n, Max(w, 0)) + 2);
  }

  /** The band from every ring but the last stays within the vertices. */
  lemma TriBandIn(w: int, n: int, i: int)
    requires n >= 2 && 0 <= i < n - 1
    ensures AllIn(Band(BlockStart(i, w) + 1, w), 0, BlockStart(n, Max(w, 0)) + 2)
  {
    RingOffsets(w, n, i);
    BandIn(BlockStart(i, w) + 1, w, BlockStart(n, Max(w, 0)) + 2);
  }

  /** The top fan at the last ring stays within the vertices. */
  lemma TriTopIn(w: int, n: int)
    requires n >= 2
    ensures AllIn(TopCap(BlockStart(n, Max(w, 0)) + 1, BlockStart(n - 1, w) + 1, w), 0, BlockStart(n, Max(w, 0)) + 2)
  {
    RingOffsets(w, n, n - 1);
    TopCapIn(BlockStart(n, Max(w, 0)) + 1, BlockStart(n - 1, w) + 1, w, BlockStart(n, Max(w, 0)) + 2);
  }

  lemma TriBlockIn(w: int, n: int, i: int)
    requires n >= 2 && 0 <= i < n
    ensures AllIn(TriBlock(w, n, i), 0, BlockStart(n, Max(w, 0)) + 2)
  {
    var head := if i == 0 then BottomCap(w) else [];
    var tail := if i < n - 1 then Band(BlockStart(i, w) + 1, w)
                else TopCap(BlockStart(n, Max(w, 0)) + 1, BlockStart(i, w) + 1, w);
    TriHeadIn(w, n, i);
    if i < n - 1 {
      TriBandIn(w, n, i);
    } else {
      TriTopIn(w, n);
    }
    AllInAppend(head, tail, 0, BlockStart(n, Max(w, 0)) + 2);
    assert TriBlock(w, n, i) == head + tail;
  }

  /** Every triangle index names one of the n * wResolution + 2 vertices. */
  lemma StemTrianglesInRange(w: int, n: int)
    requires n >= 2
    ensures AllIn(Concat(TriBlocks(w, n)), 0, n * Max(w, 0) + 2)
  {
    var blocks := TriBlocks(w, n);
    var hi := BlockStart(n, Max(w, 0)) + 2;
    forall i | 0 <= i < n
      ensures AllIn(blocks[i], 0, hi)
    {
      TriBlockIn(w, n, i);
      assert blocks[i] == TriBlock(w, n, i);
    }
    ConcatAllIn(blocks, 0, hi);
    BlockStartIsProduct(n, Max(w, 0));
  }

  // ---------------------------------------------------------------------
  // The whole mesh

  /** A stem mesh over the given cores: the two end vertices plus one
      ring per core, one uv per vertex, 6 * wResolution * n triangle
      indices, each naming a vertex; it starts at the first core and
      ends at the last. */
  ghost predicate WellFormedStemMesh(m: Mesh, cores: seq<Vec3>, w: int)
    requires |cores| >= 2
  {
    && |m.vertices| == |cores| * Max(w, 0) + 2
    && |m.uv| == |m.vertices|
    && |m.triangles| == 6 * |cores| * Max(w, 0)
    && AllIn(m.triangles, 0, |m.vertices|)
    && m.vertices[0] == cores[0]
    && m.vertices[|m.vertices| - 1] == cores[|cores| - 1]
  }

  /** The mesh the stem builds is well formed. */
  lemma StemMeshWellFormed(env: Env, cores: seq<Vec3>, circle: seq<Vec3>, w: int, f: real -> real)
    requires |cores| >= 2 && |circle| == Max(w, 0)
    ensures WellFormedStemMesh(StemMeshOf(env, cores, circle, w, f), cores, w)
  {
    StemVertexCount(env, cores, circle, w, f);
    StemUVCount(w, |cores|);
    StemTriangleCount(w, |cores|);
    StemTrianglesInRange(w, |cores|);
  }
}
