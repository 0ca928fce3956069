/** FlowerStem.Build as values: the control list with a phantom point at
    each end, the cores sampled along it window by window, the circle, one
    ring of the circle per core, and the vertex, uv and triangle lists the
    main loop appends to, one block per core. */
module StemMesh {
  import opened UnityMath
  import opened CatmullRom
  import opened Blocks

  /** Point: where a ring sits on the stem and how it is turned. */
  datatype Point = Point(position: Vec3, rotation: Quat)

  // ---------------------------------------------------------------------
  // Controls and cores

  /** The phantom point beyond `end`, a quarter unit further along the
      direction from `neighbour` to `end`. */
  function Phantom(env: Env, end: Vec3, neighbour: Vec3): Vec3 {
    Add(end, Scale(Normalize(env, Sub(end, neighbour)), 0.25))
  }

  /** The copied control list with a phantom point inserted before the
      first control and appended after the last. */
  function Extend(env: Env, controls: seq<Vec3>): (ext: seq<Vec3>)
    requires |controls| >= 2
    ensures |ext| == |controls| + 2
    ensures ext[1..|controls| + 1] == controls
    ensures ext[0] == Phantom(env, controls[0], controls[1])
    ensures ext[|controls| + 1] == Phantom(env, controls[|controls| - 1], controls[|controls| - 2])
  {
    [Phantom(env, controls[0], controls[1])] + controls
    + [Phantom(env, controls[|controls| - 1], controls[|controls| - 2])]
  }

  /** Spline window k (the source's i = k + 1): hResolution samples of the
      segment between ext[k + 1] and ext[k + 2]. */
  function Window(ext: seq<Vec3>, hResolution: int, k: int): seq<Vec3>
    requires 0 <= k && k + 3 < |ext|
  {
    Samples(hResolution, ext[k], ext[k + 1], ext[k + 2], ext[k + 3])
  }

  /** What window k adds to the cores: all of the first window, every later
      window without its first sample (the end of the window before). */
  function CorePiece(ext: seq<Vec3>, hResolution: int, k: int): seq<Vec3>
    requires hResolution >= 1 && 0 <= k && k + 3 < |ext|
  {
    if k == 0 then Window(ext, hResolution, k) else Window(ext, hResolution, k)[1..]
  }

  function CorePieces(ext: seq<Vec3>, hResolution: int): (r: seq<seq<Vec3>>)
    requires hResolution >= 1 && |ext| >= 3
    ensures |r| == |ext| - 3
  {
    seq(|ext| - 3, k requires 0 <= k < |ext| - 3 => CorePiece(ext, hResolution, k))
  }

  /** The cores: the pieces one after the other. */
  function Cores(ext: seq<Vec3>, hResolution: int): seq<Vec3>
    requires hResolution >= 1 && |ext| >= 3
  {
    Concat(CorePieces(ext, hResolution))
  }

  // ---------------------------------------------------------------------
  // The circle and the rings

  /** The angle of circle point i: i / wResolution of a full turn. */
  function Angle(i: int, wResolution: int): real {
    Div(i as real, wResolution as real) * (PI * 2.0)
  }

  /** The circle: wResolution points of the given radius in the plane z = 0. */
  function Circle(env: Env, wResolution: int, radius: real): (r: seq<Vec3>)
    ensures |r| == Max(wResolution, 0)
  {
    seq(Max(wResolution, 0), i =>
      Vec3(env.cos(Angle(i, wResolution)) * radius, env.sin(Angle(i, wResolution)) * radius, 0.0))
  }

  /** The direction of the stem at core i: towards the next core, and at
      the last core from the one before. */
  function Dir(env: Env, cores: seq<Vec3>, i: int): Vec3
    requires |cores| >= 2 && 0 <= i < |cores|
  {
    if i < |cores| - 1 then Normalize(env, Sub(cores[i + 1], cores[i]))
    else Normalize(env, Sub(cores[i], cores[i - 1]))
  }

  /** The `right` vector of a direction: LookRotation(dir) * Vector3.right,
      normalized. */
  function RightOf(env: Env, dir: Vec3): Vec3 {
    Normalize(env, env.rotate(env.lookRotation(dir), Right))
  }

  /** The `right` vector the loop holds when it reaches core i: seeded from
      the first direction, then the previous core's. */
  function PrevRight(env: Env, cores: seq<Vec3>, i: int): Vec3
    requires |cores| >= 2 && 0 <= i < |cores|
  {
    RightOf(env, Dir(env, cores, if i == 0 then 0 else i - 1))
  }

  /** Whether `inverse` toggles at core i. */
  predicate Flip(env: Env, cores: seq<Vec3>, i: int)
    requires |cores| >= 2 && 0 <= i < |cores|
  {
    Dot(PrevRight(env, cores, i), RightOf(env, Dir(env, cores, i))) < 0.0
  }

  /** The `inverse` flag at core i: false before the loop, toggled at
      every flip. */
  predicate Inverse(env: Env, cores: seq<Vec3>, i: int)
    requires |cores| >= 2 && 0 <= i < |cores|
    decreases i
  {
    (if i == 0 then false else Inverse(env, cores, i - 1)) != Flip(env, cores, i)
  }

  /** The rotation AddCircle uses: LookRotation(dir), turned half a turn
      about dir when inverse is set. */
  function Rotation(env: Env, dir: Vec3, inverse: bool): Quat {
    if inverse then env.compose(env.angleAxis(180.0, dir), env.lookRotation(dir))
    else env.lookRotation(dir)
  }

  function RingRotation(env: Env, cores: seq<Vec3>, i: int): Quat
    requires |cores| >= 2 && 0 <= i < |cores|
  {
    Rotation(env, Dir(env, cores, i), Inverse(env, cores, i))
  }

  /** v of core i: its position along the stem, from 0 to 1. */
  function RingParam(i: int, n: int): real
    requires n >= 2
  {
    (i as real) / ((n - 1) as real)
  }

  /** AddCircle's output: the circle scaled by `radius`, turned by q and
      moved to the core. */
  function Ring(env: Env, core: Vec3, circle: seq<Vec3>, radius: real, q: Quat): (r: seq<Vec3>)
    ensures |r| == |circle|
  {
    seq(|circle|, j requires 0 <= j < |circle| => Add(core, env.rotate(q, Scale(circle[j], radius))))
  }

  /** The ring at core i, scaled by f(v). */
  function StemRing(env: Env, cores: seq<Vec3>, circle: seq<Vec3>, f: real -> real, i: int): (r: seq<Vec3>)
    requires |cores| >= 2 && 0 <= i < |cores|
    ensures |r| == |circle|
  {
    Ring(env, cores[i], circle, f(RingParam(i, |cores|)), RingRotation(env, cores, i))
  }

  // ---------------------------------------------------------------------
  // What each step of the main loop appends

  /** Vertices: the ring, and after the last ring the last core. */
  function VertexBlock(env: Env, cores: seq<Vec3>, circle: seq<Vec3>, f: real -> real, i: int): seq<Vec3>
    requires |cores| >= 2 && 0 <= i < |cores|
  {
    if i == |cores| - 1 then StemRing(env, cores, circle, f, i) + [cores[i]]
    else StemRing(env, cores, circle, f, i)
  }

  function VertexBlocks(env: Env, cores: seq<Vec3>, circle: seq<Vec3>, f: real -> real): (r: seq<seq<Vec3>>)
    requires |cores| >= 2
    ensures |r| == |cores|
  {
    seq(|cores|, i requires 0 <= i < |cores| => VertexBlock(env, cores, circle, f, i))
  }

  /** The uv of one ring: u = j / (wResolution - 1) around it, v along the stem. */
  function UVRing(wResolution: int, v: real): (r: seq<Vec2>)
    ensures |r| == Max(wResolution, 0)
  {
    seq(Max(wResolution, 0), j => Vec2(Div(j as real, (wResolution - 1) as real), v))
  }

  /** Uv: (0.5, 0) before the first ring's; (0.5, 1) before, not after, the
      last ring's. */
  function UVBlock(wResolution: int, n: int, i: int): seq<Vec2>
    requires n >= 2
  {
    (if i == 0 then [Vec2(0.5, 0.0)] else [])
    + if i < n - 1 then UVRing(wResolution, RingParam(i, n))
      else [Vec2(0.5, 1.0)] + UVRing(wResolution, RingParam(i, n))
  }

  function UVBlocks(wResolution: int, n: int): (r: seq<seq<Vec2>>)
    requires n >= 2
    ensures |r| == n
  {
    seq(n, i => UVBlock(wResolution, n, i))
  }

  /** The fan closing the bottom: vertex 0 with each pair of neighbours on
      ring 0, neighbours wrapping around modulo wResolution. */
  function BottomFan(wResolution: int): (r: seq<seq<int>>)
    ensures |r| == Max(wResolution, 0)
  {
    seq(Max(wResolution, 0), j requires 0 <= j < Max(wResolution, 0) => [0, (j + 1) % wResolution + 1, j + 1])
  }

  function BottomCap(wResolution: int): seq<int> {
    Concat(BottomFan(wResolution))
  }

  /** The two triangles joining side j of the ring at `offset` to the ring
      after it: (a, b, c) and (c, b, d). */
  function BandQuad(offset: int, wResolution: int, j: int): seq<int>
    requires wResolution > 0
  {
    var a := offset + j;
    var b := offset + (j + 1) % wResolution;
    [a, b, a + wResolution, a + wResolution, b, b + wResolution]
  }

  function BandQuads(offset: int, wResolution: int): (r: seq<seq<int>>)
    ensures |r| == Max(wResolution, 0)
  {
    seq(Max(wResolution, 0), j requires 0 <= j < Max(wResolution, 0) => BandQuad(offset, wResolution, j))
  }

  function Band(offset: int, wResolution: int): seq<int> {
    Concat(BandQuads(offset, wResolution))
  }

  /** The fan closing the top: vertex m (the last core) with each pair of
      neighbours on the last ring. */
  function TopFan(m: int, offset: int, wResolution: int): (r: seq<seq<int>>)
    ensures |r| == Max(wResolution, 0)
  {
    seq(Max(wResolution, 0), j requires 0 <= j < Max(wResolution, 0) =>
          [m, offset + j, offset + (j + 1) % wResolution])
  }

  function TopCap(m: int, offset: int, wResolution: int): seq<int> {
    Concat(TopFan(m, offset, wResolution))
  }

  /** Triangles: the bottom fan at the first core, a band from every ring
      but the last to the next, the top fan at the last. Ring i starts at
      vertex i * wResolution + 1, and the last core is vertex
      n * |circle| + 1 (both written with BlockStart). */
  function TriBlock(wResolution: int, n: nat, i: nat): seq<int> {
    (if i == 0 then BottomCap(wResolution) else [])
    + if i < n - 1 then Band(BlockStart(i, wResolution) + 1, wResolution)
      else TopCap(BlockStart(n, Max(wResolution, 0)) + 1, BlockStart(i, wResolution) + 1, wResolution)
  }

  function TriBlocks(wResolution: int, n: nat): (r: seq<seq<int>>)
    ensures |r| == n
  {
    seq(n, i requires 0 <= i < n => TriBlock(wResolution, n, i))
  }

  /** The mesh Build returns for the given cores and circle. */
  function StemMeshOf(env: Env, cores: seq<Vec3>, circle: seq<Vec3>, wResolution: int, f: real -> real): Mesh
    requires |cores| >= 2
  {
    Mesh([cores[0]] + Concat(VertexBlocks(env, cores, circle, f)),
         Concat(UVBlocks(wResolution, |cores|)),
         Concat(TriBlocks(wResolution, |cores|)))
  }

  /** Segments: a point per core but the last, where its ring sits. */
  function StemSegments(env: Env, cores: seq<Vec3>): (r: seq<Point>)
    requires |cores| >= 2
    ensures |r| == |cores| - 1
    ensures forall i :: 0 <= i < |r| ==> r[i].position == cores[i]
  {
    seq(|cores| - 1, i requires 0 <= i < |cores| - 1 => Point(cores[i], RingRotation(env, cores, i)))
  }

  /** Tip: the point of the last core. */
  function StemTip(env: Env, cores: seq<Vec3>): (p: Point)
    requires |cores| >= 2
    ensures p.position == cores[|cores| - 1]
  {
    Point(cores[|cores| - 1], RingRotation(env, cores, |cores| - 1))
  }
}
