/** FlowerData: the assembly of a whole flower. A main stem is built from
    four random controls; leaves are hung on its segments, each a short
    stalk of its own with a blade at the end; a head of florets sits at the
    tip. Every random value comes from one seeded stream, in a fixed order.
    The GameObjects, meshes, materials and transforms are not modelled:
    what is kept is the part tree, the numbers each step computes, and the
    order of the draws. */
module Assembly {
  import opened UnityMath
  import opened Errors
  import opened Rand
  import opened Part
  import opened StemMesh
  import opened StemProperties
  import opened Stem

  // ---------------------------------------------------------------------
  // GetControls

  /** Control i of the n controls of GetControls: a point of the unit
      circle sampler scaled by radius, at height i / (n - 1) * height; the
      two draws for control i are at p + 2 * i and p + 2 * i + 1. */
  function ControlAt(s: Stream, p: nat, i: nat, n: int, height: real, radius: real): Vec3
    requires n >= 2
  {
    var circle := UnitCircle(s(p + 2 * i), s(p + 2 * i + 1));
    Vec3(circle.x * radius, (i as real) / ((n - 1) as real) * height, circle.y * radius)
  }

  /** GetControls(count, height, radius): max(4, count) controls from draw
      p on. */
  function Controls(s: Stream, p: nat, count: int, height: real, radius: real): (r: seq<Vec3>)
    ensures |r| == Max(4, count)
    ensures forall i :: 0 <= i < |r| ==> r[i] == ControlAt(s, p, i, |r|, height, radius)
  {
    var n := Max(4, count);
    seq(n, i requires 0 <= i < n => ControlAt(s, p, i, n, height, radius))
  }

  /** The controls climb evenly from height 0 to `height`. */
  lemma ControlsHeights(s: Stream, p: nat, count: int, height: real, radius: real)
    ensures var r := Controls(s, p, count, height, radius);
            && |r| == Max(4, count)
            && r[0].y == 0.0 && r[|r| - 1].y == height
            && forall i :: 0 <= i < |r| ==> r[i].y == (i as real) / ((|r| - 1) as real) * height
  {
    var r := Controls(s, p, count, height, radius);
    var d := (|r| - 1) as real;
    assert d > 0.0;
    assert d / d == 1.0;
    assert r[|r| - 1] == ControlAt(s, p, |r| - 1, |r|, height, radius);
  }

  /** With draws in [0,1) and a non-negative radius, every control lies
      within `radius` of the axis in x and in z. */
  lemma ControlsWithinRadius(s: Stream, p: nat, count: int, height: real, radius: real, i: int)
    requires UnitStream(s) && radius >= 0.0 && 0 <= i < Max(4, count)
    ensures var c := Controls(s, p, count, height, radius)[i];
            -radius <= c.x <= radius && -radius <= c.z <= radius
  {
    var circle := UnitCircle(s(p + 2 * i), s(p + 2 * i + 1));
    UnitCircleBounds(s, p + 2 * i);
    var c := Controls(s, p, count, height, radius)[i];
    assert c == ControlAt(s, p, i, Max(4, count), height, radius);
    ScaledWithin(circle.x, radius, c.x);
    ScaledWithin(circle.y, radius, c.z);
  }

  /** A value in [-1,1] scaled by a non-negative radius stays within it. */
  lemma ScaledWithin(v: real, radius: real, w: real)
    requires -1.0 <= v <= 1.0 && radius >= 0.0 && w == v * radius
    ensures -radius <= w <= radius
  {
    if v >= 0.0 {
      assert v * radius <= 1.0 * radius;
    } else {
      assert v * radius >= -1.0 * radius;
    }
  }

  // ---------------------------------------------------------------------
  // The leaves

  /** Leaf i of leafCount hangs at ratio (i + 1) / (leafCount + 1). */
  function LeafRatio(i: int, leafCount: int): real
    requires 0 <= i < leafCount
  {
    ((i + 1) as real) / ((leafCount + 1) as real)
  }

  /** The segment leaf i hangs from: its ratio of the stretch
      leafSegmentRange.x .. leafSegmentRange.y of the segment list, rounded
      down, and at most the last but one segment. */
  function LeafIndex(i: int, leafCount: int, count: int, range: Vec2): int
    requires 0 <= i < leafCount
  {
    var segmentOffset := range.x * (count as real);
    var len := (range.y - range.x) * (count as real);
    MinI(FloorToInt(len * LeafRatio(i, leafCount) + segmentOffset), count - 2)
  }

  /** The ratios climb strictly from leaf to leaf and stay inside (0,1). */
  lemma LeafRatiosIncrease(i: int, j: int, leafCount: int)
    requires 0 <= i < j < leafCount
    ensures 0.0 < LeafRatio(i, leafCount) < LeafRatio(j, leafCount) < 1.0
  {
    var d := (leafCount + 1) as real;
    assert ((i + 1) as real) / d < ((j + 1) as real) / d;
    assert ((j + 1) as real) < d;
  }

  /** The leaf's segment and the one after it both exist whenever the
      index is not negative, and it is not when the range starts at or
      above 0 and does not run backwards. */
  lemma LeafIndexBounds(i: int, leafCount: int, count: int, range: Vec2)
    requires 0 <= i < leafCount
    ensures LeafIndex(i, leafCount, count, range) <= count - 2
    ensures 0.0 <= range.x <= range.y && count >= 2 ==> LeafIndex(i, leafCount, count, range) >= 0
  {
    if 0.0 <= range.x <= range.y && count >= 2 {
      var n := count as real;
      var r := LeafRatio(i, leafCount);
      LeafRatiosPositive(i, leafCount);
      NonNegativeProduct(range.y - range.x, n);
      NonNegativeProduct((range.y - range.x) * n, r);
      NonNegativeProduct(range.x, n);
    }
  }

  lemma LeafRatiosPositive(i: int, leafCount: int)
    requires 0 <= i < leafCount
    ensures 0.0 < LeafRatio(i, leafCount) < 1.0
  {
  }

  lemma NonNegativeProduct(a: real, b: real)
    requires a >= 0.0 && b >= 0.0
    ensures a * b >= 0.0
  {
  }

  /** What leaf i is made of. `anchor` is the segment it hangs from and
      `dir` the direction to the next segment; `angle` turns it about the
      stem; `stalkControls` are the controls of its stalk (the blade sits
      at its tip, see StalkTip); `tilt` turns the blade on the stalk; `size` is the threaded size and `scale` the leaf's scale
      factor. */
  datatype LeafPlan = LeafPlan(ratio: real, index: int, anchor: Point, dir: Vec3, angle: real,
                               stalkControls: seq<Vec3>, tilt: real, size: real, scale: real)

  /** A leaf's stalk: FlowerStem(10, 2, 0.01), hResolution 10, wResolution
      2, radius 0.01, thinning from the base as max(1 - v, 0.2). */
  const StalkH: int := 10
  const StalkW: int := 2
  const StalkRadius: real := 0.01
  function StalkProfile(v: real): real { MaxR(1.0 - v, 0.2) }

  /** The position of the tip of the stalk built on `controls`. */
  function StalkTip(env: Env, controls: seq<Vec3>): Vec3
    requires |controls| >= 4
  {
    CoreCount(env, controls, StalkH);
    StemTip(env, Cores(Extend(env, controls), StalkH)).position
  }

  /** A stalk on four controls always builds, and its tip is StalkTip. */
  lemma StalkBuilds(env: Env, controls: seq<Vec3>, mesh: Result<Mesh>, segments0: seq<Point>, tip0: Option<Point>,
                    segments: seq<Point>, tip: Option<Point>)
    requires |controls| == 4
    requires BuildOutcome(env, controls, StalkW, StalkH, StalkRadius, StalkProfile, mesh, segments0, tip0, segments, tip)
    ensures mesh.Ok? && tip.Some? && tip.value.position == StalkTip(env, controls)
  {
    CoreCount(env, controls, StalkH);
  }

  /** The stalk's controls all lie on its axis (radius 0), so its tip, and
      the blade, is the point 0.05 straight above the leaf's anchor. */
  lemma BladeAtStalkTop(env: Env, s: Stream, p: nat)
    ensures StalkTip(env, Controls(s, p, 4, 0.05, 0.0)) == Vec3(0.0, 0.05, 0.0)
  {
    var controls := Controls(s, p, 4, 0.05, 0.0);
    BuiltStemWellFormed(env, controls, StalkW, StalkH, StalkRadius, StalkProfile);
    ControlsHeights(s, p, 4, 0.05, 0.0);
    assert controls[3] == ControlAt(s, p, 3, 4, 0.05, 0.0);
  }

  /** The eleven draws of leaf i, from draw p on: the angle, eight for the
      stalk's controls, the tilt, the size. The size is drawn between the
      previous leaf's size and 1 - ratio / 2. */
  function LeafAt(env: Env, s: Stream, p: nat, i: int, leafCount: int, segments: seq<Point>,
                  range: Vec2, scaleRange: Vec2, previous: real): LeafPlan
    requires 0 <= i < leafCount && 0 <= LeafIndex(i, leafCount, |segments|, range)
  {
    var r := LeafRatio(i, leafCount);
    var index := LeafIndex(i, leafCount, |segments|, range);
    var from, to := segments[index], segments[index + 1];
    var size := RangeReal(previous, 1.0 - r * 0.5, s(p + 10));
    LeafPlan(r, index, from, Normalize(env, Sub(to.position, from.position)),
             ((i % 4) as real) * 90.0 + RangeReal(-20.0, 20.0, s(p)),
             Controls(s, p + 1, 4, 0.05, 0.0),
             RangeReal(0.0, 30.0, s(p + 9)),
             size, Lerp(scaleRange.x, scaleRange.y, size))
  }

  /** The size the leaf loop threads, and the leaves so far. */
  datatype LeafRun = LeafRun(size: real, plans: seq<LeafPlan>)

  /** The first k leaves, from draw p on; the loop fails at the first leaf
      whose segment index is negative. */
  function Leaves(env: Env, s: Stream, p: nat, k: nat, leafCount: int, segments: seq<Point>,
                  range: Vec2, scaleRange: Vec2): Result<LeafRun>
    requires k <= Max(leafCount, 0)
    decreases k, 0
  {
    if k == 0 then Ok(LeafRun(1.0, []))
    else LeavesThrough(env, s, p, k - 1, leafCount, segments, range, scaleRange)
  }

  /** The run through leaf i: the run before it, failed for good, or
      extended by leaf i unless leaf i's index is negative. */
  function LeavesThrough(env: Env, s: Stream, p: nat, i: nat, leafCount: int, segments: seq<Point>,
                         range: Vec2, scaleRange: Vec2): Result<LeafRun>
    requires i < Max(leafCount, 0)
    decreases i, 1
  {
    match Leaves(env, s, p, i, leafCount, segments, range, scaleRange)
    case Err(e) => Err(e)
    case Ok(run) =>
      if LeafIndex(i, leafCount, |segments|, range) < 0 then Err(IndexOutOfRange)
      else
        var leaf := LeafAt(env, s, p + 11 * i, i, leafCount, segments, range, scaleRange, run.size);
        Ok(LeafRun(leaf.size, run.plans + [leaf]))
  }

  /** k leaves, leaf i at ratio (i + 1) / (leafCount + 1) on segment
      LeafIndex(i), the run's size that of the last leaf. */
  predicate LeavesInOrder(run: LeafRun, k: nat, leafCount: int, count: int, range: Vec2)
    requires k <= Max(leafCount, 0)
  {
    && |run.plans| == k
    && (forall i :: 0 <= i < k ==>
          run.plans[i].ratio == LeafRatio(i, leafCount) && run.plans[i].index == LeafIndex(i, leafCount, count, range))
    && (k > 0 ==> run.size == run.plans[k - 1].size)
  }

  /** The leaf loop succeeds exactly when no leaf's index is negative; then
      it has one leaf per step, in order, leaf i at ratio
      (i + 1) / (leafCount + 1) on segment LeafIndex(i), and every size is
      drawn from the one before. */
  lemma {:induction false} LeavesShape(env: Env, s: Stream, p: nat, k: nat, leafCount: int, segments: seq<Point>,
                                       range: Vec2, scaleRange: Vec2)
    requires k <= Max(leafCount, 0)
    ensures var r := Leaves(env, s, p, k, leafCount, segments, range, scaleRange);
            && (r.Ok? <==> forall i :: 0 <= i < k ==> LeafIndex(i, leafCount, |segments|, range) >= 0)
            && (r.Ok? ==> LeavesInOrder(r.value, k, leafCount, |segments|, range))
  {
    LeavesSucceed(env, s, p, k, leafCount, segments, range, scaleRange);
    LeavesPlaced(env, s, p, k, leafCount, segments, range, scaleRange);
  }

  /** The leaf loop succeeds exactly when no leaf's index is negative. */
  lemma {:induction false} LeavesSucceed(env: Env, s: Stream, p: nat, k: nat, leafCount: int, segments: seq<Point>,
                                         range: Vec2, scaleRange: Vec2)
    requires k <= Max(leafCount, 0)
    ensures Leaves(env, s, p, k, leafCount, segments, range, scaleRange).Ok?
            <==> forall i :: 0 <= i < k ==> LeafIndex(i, leafCount, |segments|, range) >= 0
  {
    if k > 0 {
      LeavesSucceed(env, s, p, k - 1, leafCount, segments, range, scaleRange);
    }
  }

  /** A successful leaf loop places its leaves in order. */
  lemma {:induction false} LeavesPlaced(env: Env, s: Stream, p: nat, k: nat, leafCount: int, segments: seq<Point>,
                                        range: Vec2, scaleRange: Vec2)
    requires k <= Max(leafCount, 0)
    ensures var r := Leaves(env, s, p, k, leafCount, segments, range, scaleRange);
            r.Ok? ==> LeavesInOrder(r.value, k, leafCount, |segments|, range)
  {
    if k > 0 {
      LeavesPlaced(env, s, p, k - 1, leafCount, segments, range, scaleRange);
    }
  }

  /** Lower leaves are bigger: with draws in [0,1), each leaf's size lies
      between 1 - ratio / 2 and the size of the leaf below it (1 for the
      first), so the sizes never grow up the stem and stay in (1/2, 1]. */
  predicate SizesDescend(run: LeafRun, leafCount: int) {
    && |run.plans| <= Max(leafCount, 0)
    && (forall i :: 0 <= i < |run.plans| ==>
          && 1.0 - LeafRatio(i, leafCount) * 0.5 <= run.plans[i].size <= 1.0
          && (i > 0 ==> run.plans[i].size <= run.plans[i - 1].size))
    && (|run.plans| == 0 ==> run.size == 1.0)
    && (|run.plans| > 0 ==> run.size == run.plans[|run.plans| - 1].size)
  }

  lemma {:induction false} LeafSizesDescend(env: Env, s: Stream, p: nat, k: nat, leafCount: int, segments: seq<Point>,
                                            range: Vec2, scaleRange: Vec2)
    requires UnitStream(s) && k <= Max(leafCount, 0)
    ensures var r := Leaves(env, s, p, k, leafCount, segments, range, scaleRange);
            r.Ok? ==> |r.value.plans| == k && SizesDescend(r.value, leafCount)
  {
    if k > 0 {
      LeafSizesDescend(env, s, p, k - 1, leafCount, segments, range, scaleRange);
      var run := Leaves(env, s, p, k, leafCount, segments, range, scaleRange);
      if run.Ok? {
        var prev := LeafStep(env, s, p, k, leafCount, segments, range, scaleRange);
        DrawInUnit(s, p + 11 * (k - 1) + 10);
        SizeStep(prev, run.value.plans[k - 1], leafCount, s(p + 11 * (k - 1) + 10));
        assert run.value == LeafRun(run.value.plans[k - 1].size, prev.plans + [run.value.plans[k - 1]]);
      }
    }
  }

  /** A successful run of k leaves is the run of k - 1 leaves and one more,
      whose size is drawn between the run's size and 1 - ratio / 2. */
  lemma LeafStep(env: Env, s: Stream, p: nat, k: nat, leafCount: int, segments: seq<Point>,
                 range: Vec2, scaleRange: Vec2) returns (prev: LeafRun)
    requires 0 < k <= Max(leafCount, 0)
    requires Leaves(env, s, p, k, leafCount, segments, range, scaleRange).Ok?
    ensures Leaves(env, s, p, k - 1, leafCount, segments, range, scaleRange) == Ok(prev)
    ensures var run := Leaves(env, s, p, k, leafCount, segments, range, scaleRange).value;
            && |run.plans| == |prev.plans| + 1
            && run.plans[..|prev.plans|] == prev.plans
            && run.size == run.plans[|prev.plans|].size
            && run.plans[|prev.plans|].size
               == RangeReal(prev.size, 1.0 - LeafRatio(k - 1, leafCount) * 0.5, s(p + 11 * (k - 1) + 10))
  {
    prev := Leaves(env, s, p, k - 1, leafCount, segments, range, scaleRange).value;
  }

  /** One more leaf keeps the sizes descending. */
  lemma SizeStep(run: LeafRun, leaf: LeafPlan, leafCount: int, t: real)
    requires SizesDescend(run, leafCount) && |run.plans| < leafCount && 0.0 <= t < 1.0
    requires leaf.size == RangeReal(run.size, 1.0 - LeafRatio(|run.plans|, leafCount) * 0.5, t)
    ensures SizesDescend(LeafRun(leaf.size, run.plans + [leaf]), leafCount)
  {
    var k := |run.plans|;
    var b := 1.0 - LeafRatio(k, leafCount) * 0.5;
    LeafRatiosPositive(k, leafCount);
    if k > 0 {
      LeafRatiosIncrease(k - 1, k, leafCount);
    }
    assert b <= run.size;
    RangeRealBetween(run.size, b, t);
    var plans := run.plans + [leaf];
    assert forall i :: 0 <= i < k ==> plans[i] == run.plans[i];
  }

  /** So each leaf's scale factor lies within leafScaleRange. */
  lemma LeafScaleInRange(env: Env, s: Stream, p: nat, k: nat, leafCount: int, segments: seq<Point>,
                         range: Vec2, scaleRange: Vec2, i: int)
    requires UnitStream(s) && k <= Max(leafCount, 0) && scaleRange.x <= scaleRange.y
    requires Leaves(env, s, p, k, leafCount, segments, range, scaleRange).Ok? && 0 <= i < k
    ensures var run := Leaves(env, s, p, k, leafCount, segments, range, scaleRange).value;
            i < |run.plans| && scaleRange.x <= run.plans[i].scale <= scaleRange.y
  {
    var run := Leaves(env, s, p, k, leafCount, segments, range, scaleRange).value;
    LeafSizesDescend(env, s, p, k, leafCount, segments, range, scaleRange);
    LeafScaleStep(env, s, p, k, leafCount, segments, range, scaleRange, i);
    LerpWithin(scaleRange.x, scaleRange.y, run.plans[i].size);
  }

  /** Lerp stays between its ends. */
  lemma LerpWithin(a: real, b: real, t: real)
    requires a <= b
    ensures a <= Lerp(a, b, t) <= b
  {
    var c := Clamp01(t);
    NonNegativeProduct(b - a, c);
    NonNegativeProduct(b - a, 1.0 - c);
  }

  /** Leaf i of a successful run has the scale its size gives. */
  lemma {:induction false} LeafScaleStep(env: Env, s: Stream, p: nat, k: nat, leafCount: int, segments: seq<Point>,
                                         range: Vec2, scaleRange: Vec2, i: int)
    requires k <= Max(leafCount, 0)
    requires Leaves(env, s, p, k, leafCount, segments, range, scaleRange).Ok? && 0 <= i < k
    ensures var run := Leaves(env, s, p, k, leafCount, segments, range, scaleRange).value;
            i < |run.plans| && run.plans[i].scale == Lerp(scaleRange.x, scaleRange.y, run.plans[i].size)
  {
    var prev := Leaves(env, s, p, k - 1, leafCount, segments, range, scaleRange);
    assert prev.Ok?;
    LeavesShape(env, s, p, k - 1, leafCount, segments, range, scaleRange);
    if i < k - 1 {
      LeafScaleStep(env, s, p, k - 1, leafCount, segments, range, scaleRange, i);
    }
  }

  /** A plan whose fields are those LeafAt computes is LeafAt. */
  lemma LeafAtFields(env: Env, s: Stream, q: nat, i: int, leafCount: int, segments: seq<Point>,
                     range: Vec2, scaleRange: Vec2, previous: real, plan: LeafPlan)
    requires 0 <= i < leafCount && 0 <= LeafIndex(i, leafCount, |segments|, range) == plan.index
    requires plan.ratio == LeafRatio(i, leafCount) && plan.index + 1 < |segments|
    requires plan.anchor == segments[plan.index]
    requires plan.dir == Normalize(env, Sub(segments[plan.index + 1].position, segments[plan.index].position))
    requires plan.angle == ((i % 4) as real) * 90.0 + RangeReal(-20.0, 20.0, s(q))
    requires plan.stalkControls == Controls(s, q + 1, 4, 0.05, 0.0)
    requires plan.tilt == RangeReal(0.0, 30.0, s(q + 9))
    requires plan.size == RangeReal(previous, 1.0 - plan.ratio * 0.5, s(q + 10))
    requires plan.scale == Lerp(scaleRange.x, scaleRange.y, plan.size)
    ensures plan == LeafAt(env, s, q, i, leafCount, segments, range, scaleRange, previous)
  {
  }

  /** One leaf more: the run goes on with LeafAt on its size. */
  lemma LeavesNext(env: Env, s: Stream, p: nat, k: nat, leafCount: int, segments: seq<Point>,
                   range: Vec2, scaleRange: Vec2, run: LeafRun)
    requires k < leafCount && Leaves(env, s, p, k, leafCount, segments, range, scaleRange) == Ok(run)
    requires LeafIndex(k, leafCount, |segments|, range) >= 0
    ensures var leaf := LeafAt(env, s, p + 11 * k, k, leafCount, segments, range, scaleRange, run.size);
            Leaves(env, s, p, k + 1, leafCount, segments, range, scaleRange) == Ok(LeafRun(leaf.size, run.plans + [leaf]))
  {
  }

  /** Once a leaf's index is negative the run has failed for good. */
  lemma {:induction false} LeavesFail(env: Env, s: Stream, p: nat, k: nat, n: nat, leafCount: int, segments: seq<Point>,
                                      range: Vec2, scaleRange: Vec2)
    requires k < n <= Max(leafCount, 0) && Leaves(env, s, p, k, leafCount, segments, range, scaleRange).Ok?
    requires LeafIndex(k, leafCount, |segments|, range) < 0
    ensures Leaves(env, s, p, n, leafCount, segments, range, scaleRange) == Err(IndexOutOfRange)
    decreases n
  {
    if n > k + 1 {
      LeavesFail(env, s, p, k, n - 1, leafCount, segments, range, scaleRange);
    }
  }

  // ---------------------------------------------------------------------
  // The head

  /** Florets.Get(n, c, alpha): floret n of a sunflower spiral, at angle
      n * alpha degrees and distance c * sqrt(n) from the centre, in the
      plane y = 0. */
  function FloretPosition(env: Env, n: int, c: real, alpha: real): (v: Vec3)
    ensures v.y == 0.0
  {
    var phi := (n as real) * alpha * Deg2Rad;
    var r := c * env.sqrt(n as real);
    Vec3(env.cos(phi) * r, 0.0, env.sin(phi) * r)
  }

  /** The head's settings: c, n florets, the first m of them buds, scale,
      min, angle, angleScale, offset. */
  datatype HeadSettings = HeadSettings(c: real, n: int, m: int, scale: real, min: real,
                                       angle: real, angleScale: real, offset: real)

  /** The fade a new part starts with: 1 + Epsilon when visible, else 0. */
  function FadeValue(visible: bool): real {
    if visible then 1.0 + Epsilon else 0.0
  }

  /** What floret slot i is made of. */
  datatype FloretPlan = FloretPlan(bud: bool, ratio: real, position: Vec3, rotation: Quat, scale: real,
                                   color: Color, bend: real, fade: real)

  /** Slot i with the three colour draws from p on: bud for i < m, at ratio
      i * (1 / n), scaled by (1 + max(min, |position|)) * scale and by 0.75
      more for a bud, bent by 1 - ratio. */
  function FloretAt(env: Env, s: Stream, p: nat, i: int, head: HeadSettings, visible: bool): FloretPlan {
    var r := SlotRatio(i, head.n);
    var position := FloretPosition(env, i + 1, head.c, 137.5);
    var size := FloretSize(env, position, head);
    FloretPlan(i < head.m, r,
               Add(position, Scale(Scale(Down, r), head.offset)),
               env.compose(env.lookRotationUp(Up, Normalize(env, position)), env.angleAxis(FloretTilt(r, head), Right)),
               if i < head.m then size * 0.75 else size,
               FloretColor(s, p),
               1.0 - r, FadeValue(visible))
  }

  /** The colour drawn from draw p on: red, green and blue each in
      [0.5, 1), in that order; alpha 1. */
  function FloretColor(s: Stream, p: nat): Color {
    Color(RangeReal(0.5, 1.0, s(p)), RangeReal(0.5, 1.0, s(p + 1)), RangeReal(0.5, 1.0, s(p + 2)), 1.0)
  }

  /** The ratio of slot i of n: i * (1 / n). */
  function SlotRatio(i: int, n: int): real {
    (i as real) * Div(1.0, n as real)
  }

  /** A floret's size before the bud factor: (1 + max(min, |p|)) * scale. */
  function FloretSize(env: Env, position: Vec3, head: HeadSettings): real {
    (1.0 + MaxR(head.min, Magnitude(env, position))) * head.scale
  }

  /** A floret's turn about the x axis, in degrees: it leans less the
      further out its slot. */
  function FloretTilt(r: real, head: HeadSettings): real {
    (1.0 - r * head.angleScale) * head.angle
  }

  /** A plan whose fields are those FloretAt computes is FloretAt. */
  lemma FloretAtFields(env: Env, s: Stream, p: nat, i: int, head: HeadSettings, visible: bool, plan: FloretPlan)
    requires plan.bud == (i < head.m) && plan.ratio == SlotRatio(i, head.n)
    requires plan.position == Add(FloretPosition(env, i + 1, head.c, 137.5), Scale(Scale(Down, plan.ratio), head.offset))
    requires plan.rotation == env.compose(env.lookRotationUp(Up, Normalize(env, FloretPosition(env, i + 1, head.c, 137.5))),
                                          env.angleAxis(FloretTilt(plan.ratio, head), Right))
    requires var size := FloretSize(env, FloretPosition(env, i + 1, head.c, 137.5), head);
             plan.scale == if i < head.m then size * 0.75 else size
    requires plan.color == FloretColor(s, p)
    requires plan.bend == 1.0 - plan.ratio && plan.fade == FadeValue(visible)
    ensures plan == FloretAt(env, s, p, i, head, visible)
  {
  }

  /** The n florets, from draw p on. */
  function Florets(env: Env, s: Stream, p: nat, head: HeadSettings, visible: bool): (r: seq<FloretPlan>)
    ensures |r| == Max(head.n, 0)
  {
    seq(Max(head.n, 0), i requires 0 <= i < Max(head.n, 0) => FloretAt(env, s, p + 3 * i, i, head, visible))
  }

  /** The florets of the first |florets| slots, from draw p on. */
  predicate FloretsUpTo(env: Env, s: Stream, p: nat, head: HeadSettings, visible: bool, florets: seq<FloretPlan>) {
    forall j :: 0 <= j < |florets| ==> florets[j] == FloretAt(env, s, p + 3 * j, j, head, visible)
  }

  /** Slot |florets| added to the florets of the slots before it. */
  lemma FloretsNext(env: Env, s: Stream, p: nat, q: nat, head: HeadSettings, visible: bool, florets: seq<FloretPlan>, plan: FloretPlan)
    requires FloretsUpTo(env, s, p, head, visible, florets)
    requires q == p + 3 * |florets| && plan == FloretAt(env, s, q, |florets|, head, visible)
    ensures FloretsUpTo(env, s, p, head, visible, florets + [plan])
  {
    var florets' := florets + [plan];
    forall j | 0 <= j < |florets'|
      ensures florets'[j] == FloretAt(env, s, p + 3 * j, j, head, visible)
    {
      if j < |florets| {
        assert florets'[j] == florets[j];
      } else {
        assert florets'[j] == plan && p + 3 * j == q;
      }
    }
  }

  lemma FloretsComplete(env: Env, s: Stream, p: nat, head: HeadSettings, visible: bool, florets: seq<FloretPlan>)
    requires FloretsUpTo(env, s, p, head, visible, florets) && |florets| == Max(head.n, 0)
    ensures florets == Florets(env, s, p, head, visible)
  {
  }

  /** Slot i of n is a bud exactly when i < m; its ratio is i / n, in
      [0,1), and its bend 1 - i / n; a bud is three quarters the size a
      petal in its slot would be. */
  lemma FloretSlots(env: Env, s: Stream, p: nat, head: HeadSettings, visible: bool, i: int)
    requires 0 <= i < head.n
    ensures var f := Florets(env, s, p, head, visible)[i];
            && (f.bud <==> i < head.m)
            && f.ratio == (i as real) / (head.n as real) && 0.0 <= f.ratio < 1.0
            && f.bend == 1.0 - (i as real) / (head.n as real)
            && f.scale == (if i < head.m then 0.75 else 1.0)
                          * ((1.0 + MaxR(head.min, Magnitude(env, FloretPosition(env, i + 1, head.c, 137.5)))) * head.scale)
            && f.fade == FadeValue(visible)
  {
    var n := head.n as real;
    assert (i as real) * (1.0 / n) == (i as real) / n;
    assert (i as real) / n < n / n;
  }

  // ---------------------------------------------------------------------
  // The whole plan

  /** The FlowerData fields Build reads. */
  datatype FlowerSettings = FlowerSettings(height: real, leafCount: int, leafScaleRange: Vec2,
                               leafSegmentRange: Vec2, head: HeadSettings)

  /** What Build computes when it succeeds: the main stem's controls, its
      segments and tip (where the head sits), the leaves and the
      florets. */
  datatype FlowerPlan = FlowerPlan(stemControls: seq<Vec3>, segments: seq<Point>, tip: Point,
                                   leaves: seq<LeafPlan>, florets: seq<FloretPlan>)

  /** The draws Build takes: 8 for the main stem, 11 per leaf, 3 per floret. */
  function DrawCount(settings: FlowerSettings): int {
    8 + 11 * Max(settings.leafCount, 0) + 3 * Max(settings.head.n, 0)
  }

  /** Build on the stream s, with h the main stem's height resolution and
      bend the radius of its controls (its width resolution and radius
      shape only its mesh, which the plan does not carry): the stem fails
      as FlowerStem.Build does (see BuildOutcome), the leaves as Leaves
      does. */
  function Plan(env: Env, s: Stream, settings: FlowerSettings, h: int, bend: real, visible: bool): Result<FlowerPlan> {
    var controls := Controls(s, 0, 4, settings.height, bend);
    if h <= 0 then Err(IndexOutOfRange)
    else
      var cores := Cores(Extend(env, controls), h);
      if |cores| < 2 then Err(IndexOutOfRange)
      else GrowthPlan(env, s, settings, visible, controls, StemSegments(env, cores), StemTip(env, cores))
  }

  /** Build past its main stem, on the stem's segments and tip: it fails
      as the leaf loop does, from draw 8 on; otherwise the florets follow
      the leaves' draws. */
  function GrowthPlan(env: Env, s: Stream, settings: FlowerSettings, visible: bool,
                      controls: seq<Vec3>, segments: seq<Point>, tip: Point): Result<FlowerPlan> {
    var leafCount := Max(settings.leafCount, 0);
    match Leaves(env, s, 8, leafCount, settings.leafCount, segments, settings.leafSegmentRange, settings.leafScaleRange)
    case Err(e) => Err(e)
    case Ok(run) => Ok(FlowerPlan(controls, segments, tip, run.plans, Florets(env, s, 8 + 11 * leafCount, settings.head, visible)))
  }

  /** A main stem with hResolution below 2 makes Build fail: no segment,
      or none but one core. */
  lemma PlanStemFails(env: Env, s: Stream, settings: FlowerSettings, h: int, bend: real, visible: bool)
    requires h < 2
    ensures Plan(env, s, settings, h, bend, visible) == Err(IndexOutOfRange)
  {
    if h >= 1 {
      CoreCount(env, Controls(s, 0, 4, settings.height, bend), h);
    }
  }

  /** With hResolution 2 or more the main stem has at least two cores,
      and Build goes on past it. */
  lemma PlanBuilt(env: Env, s: Stream, settings: FlowerSettings, h: int, bend: real, visible: bool)
    requires h >= 2
    ensures var controls := Controls(s, 0, 4, settings.height, bend);
            var cores := Cores(Extend(env, controls), h);
            && |cores| >= 2
            && Plan(env, s, settings, h, bend, visible)
               == GrowthPlan(env, s, settings, visible, controls, StemSegments(env, cores), StemTip(env, cores))
  {
    CoreCount(env, Controls(s, 0, 4, settings.height, bend), h);
  }

  // ---------------------------------------------------------------------
  // The parts Build creates

  /** The block a part made by CreateBase starts with: the initial fade,
      unless the type is None, on which Fade writes nothing. */
  function FadeBlock(tp: FlowerPartType, visible: bool): (b: map<Property, PropertyValue>)
    ensures tp != FlowerPartType.None ==> b == map[PropT := FloatValue(FadeValue(visible))]
    ensures tp == FlowerPartType.None ==> b == map[]
  {
    if tp == FlowerPartType.None then map[] else map[PropT := FloatValue(FadeValue(visible))]
  }

  /** The state of a new part of type tp: no children, stopped, both speeds
      1, ticker 0. */
  predicate BasePart(p: FlowerPart, tp: FlowerPartType, visible: bool)
    reads p
  {
    p.partType == tp && p.children == [] && p.State() == AnimState(false, 0.0, 1.0, 1.0)
    && p.block == FadeBlock(tp, visible)
  }

  /** A leaf: a Stover stalk running at 5 times its speed, with the blade,
      a Stover part of its own, as its only child at ratio 1. */
  predicate LeafPart(leaf: FlowerPart, blade: FlowerPart, visible: bool)
    reads leaf, blade
  {
    && leaf.partType == Stover && leaf.block == FadeBlock(Stover, visible)
    && leaf.State() == AnimState(false, 0.0, 1.0, 5.0)
    && |leaf.children| == 1 && leaf.children[0].part == blade && leaf.children[0].ratio == 1.0
    && blade != leaf && BasePart(blade, Stover, visible)
  }

  /** The parts a list of edges leads to. */
  ghost function EdgeParts(edges: seq<FlowerSegment>): set<object> {
    set j | 0 <= j < |edges| :: edges[j].part as object
  }

  /** The parts of a list, as a set. */
  ghost function PartSet(parts: seq<FlowerPart>): set<object> {
    set j | 0 <= j < |parts| :: parts[j] as object
  }

  lemma EdgePartsStep(edges: seq<FlowerSegment>, edge: FlowerSegment)
    ensures EdgeParts(edges + [edge]) == EdgeParts(edges) + {edge.part}
  {
    var edges' := edges + [edge];
    assert edges'[|edges|] == edge;
    forall o | o in EdgeParts(edges) ensures o in EdgeParts(edges') {
      var j :| 0 <= j < |edges| && o == edges[j].part;
      assert edges'[j] == edges[j];
    }
  }

  lemma PartSetStep(parts: seq<FlowerPart>, part: FlowerPart)
    ensures PartSet(parts + [part]) == PartSet(parts) + {part}
  {
    var parts' := parts + [part];
    assert parts'[|parts|] == part;
    forall o | o in PartSet(parts) ensures o in PartSet(parts') {
      var j :| 0 <= j < |parts| && o == parts[j];
      assert parts'[j] == parts[j];
    }
  }

  /** The fields of a part that hanging children below it leaves alone. */
  datatype Look = Look(state: AnimState, partType: FlowerPartType, block: map<Property, PropertyValue>)

  function LookOf(part: FlowerPart): Look
    reads part
  {
    Look(part.State(), part.partType, part.block)
  }

  /** The edges the leaf loop added: edge j carries leaf j's ratio and a
      leaf part whose blade is blades[j]. */
  ghost predicate LeavesHung(edges: seq<FlowerSegment>, blades: seq<FlowerPart>, plans: seq<LeafPlan>, visible: bool)
    reads EdgeParts(edges), PartSet(blades)
  {
    && |edges| == |plans| && |blades| == |plans|
    && forall j :: 0 <= j < |plans| ==> edges[j].ratio == plans[j].ratio && LeafPart(edges[j].part, blades[j], visible)
  }

  /** One more leaf hung keeps the edges in step with the plans. */
  lemma HungStep(edges: seq<FlowerSegment>, blades: seq<FlowerPart>, plans: seq<LeafPlan>,
                 edge: FlowerSegment, blade: FlowerPart, plan: LeafPlan, visible: bool)
    requires LeavesHung(edges, blades, plans, visible)
    requires edge.ratio == plan.ratio && LeafPart(edge.part, blade, visible)
    ensures LeavesHung(edges + [edge], blades + [blade], plans + [plan], visible)
  {
    var edges', blades', plans' := edges + [edge], blades + [blade], plans + [plan];
    forall j | 0 <= j < |plans'|
      ensures edges'[j].ratio == plans'[j].ratio && LeafPart(edges'[j].part, blades'[j], visible)
    {
      if j < |plans| {
        assert edges'[j] == edges[j] && blades'[j] == blades[j] && plans'[j] == plans[j];
      }
    }
  }

  /** A floret: a Petal part with its colour, bend and fade written. */
  predicate FloretPart(p: FlowerPart, f: FloretPlan)
    reads p
  {
    PaintedPetal(p, f.color, f.bend, f.fade)
  }

  predicate PaintedPetal(p: FlowerPart, color: Color, bend: real, fade: real)
    reads p
  {
    p.partType == Petal && p.children == [] && p.State() == AnimState(false, 0.0, 1.0, 1.0)
    && p.block == map[PropT := FloatValue(fade), PropColor2 := ColorValue(color), PropBend := FloatValue(bend)]
  }

  /** The head: a stopped part of type None, nothing written to its
      renderer. */
  predicate HeadPart(head: FlowerPart)
    reads head
  {
    && head.partType == FlowerPartType.None && head.block == map[]
    && head.State() == AnimState(false, 0.0, 1.0, 1.0)
  }

  /** The edges the floret loop added: edge j carries floret j's ratio and
      its painted part. */
  ghost predicate FloretsHung(edges: seq<FlowerSegment>, florets: seq<FloretPlan>)
    reads EdgeParts(edges)
  {
    && |edges| == |florets|
    && forall j :: 0 <= j < |florets| ==> edges[j].ratio == florets[j].ratio && FloretPart(edges[j].part, florets[j])
  }

  /** One more floret added keeps the edges in step with the plans. */
  lemma FloretHungStep(edges: seq<FlowerSegment>, florets: seq<FloretPlan>, edge: FlowerSegment, plan: FloretPlan)
    requires FloretsHung(edges, florets)
    requires edge.ratio == plan.ratio && FloretPart(edge.part, plan)
    ensures FloretsHung(edges + [edge], florets + [plan])
  {
    var edges', florets' := edges + [edge], florets + [plan];
    forall j | 0 <= j < |florets'|
      ensures edges'[j].ratio == florets'[j].ratio && FloretPart(edges'[j].part, florets'[j])
    {
      if j < |florets| {
        assert edges'[j] == edges[j] && florets'[j] == florets[j];
      }
    }
  }

  /** The block of a floret: the fade CreateBase wrote, then the colour,
      the bend and the fade again. */
  lemma FloretBlock(fade: real, color: Color, bend: real)
    ensures map[PropT := FloatValue(fade)][PropColor2 := ColorValue(color)][PropBend := FloatValue(bend)][PropT := FloatValue(fade)]
            == map[PropT := FloatValue(fade), PropColor2 := ColorValue(color), PropBend := FloatValue(bend)]
  {
  }

  /** The main stem's own part: a Stover part, stopped at its initial
      speeds, showing the initial fade. */
  predicate StemRoot(root: FlowerPart, visible: bool)
    reads root
  {
    && root.partType == Stover && root.block == FadeBlock(Stover, visible)
    && root.State() == AnimState(false, 0.0, 1.0, 1.0)
  }

  /** What Build hangs below the main stem's part: the leaf edges in
      order, each to a leaf holding its blade, then the head at ratio 1
      holding the florets. */
  ghost predicate Grown(root: FlowerPart, leafEdges: seq<FlowerSegment>, blades: seq<FlowerPart>, head: FlowerPart,
                        floretEdges: seq<FlowerSegment>, leaves: seq<LeafPlan>, florets: seq<FloretPlan>, visible: bool)
    reads root, head, EdgeParts(leafEdges), PartSet(blades), EdgeParts(floretEdges)
  {
    && |root.children| == |leafEdges| + 1 && root.children[..|leafEdges|] == leafEdges
    && LeavesHung(leafEdges, blades, leaves, visible)
    && root.children[|leafEdges|].ratio == 1.0 && root.children[|leafEdges|].part == head
    && HeadPart(head) && head.children == floretEdges && FloretsHung(floretEdges, florets)
  }

  lemma GrownIntro(root: FlowerPart, leafEdges: seq<FlowerSegment>, blades: seq<FlowerPart>, head: FlowerPart,
                   floretEdges: seq<FlowerSegment>, leaves: seq<LeafPlan>, florets: seq<FloretPlan>, visible: bool)
    requires |root.children| == |leafEdges| + 1 && root.children[..|leafEdges|] == leafEdges
    requires LeavesHung(leafEdges, blades, leaves, visible)
    requires root.children[|leafEdges|].ratio == 1.0 && root.children[|leafEdges|].part == head
    requires HeadPart(head) && head.children == floretEdges && FloretsHung(floretEdges, florets)
    ensures Grown(root, leafEdges, blades, head, floretEdges, leaves, florets, visible)
  {
  }

  class FlowerData {
    var height: real
    var leafCount: int
    var leafScaleRange: Vec2
    var leafSegmentRange: Vec2
    var c: real
    var n: int
    var m: int
    var scale: real
    var min: real
    var angle: real
    var angleScale: real
    var offset: real
    var seed: int
    var rand: RandomUtil?

    /** The asset's defaults. */
    constructor (seed: int)
      ensures Settings() == FlowerSettings(2.0, 6, Vec2(0.2, 0.825), Vec2(0.2, 0.92),
                                     HeadSettings(0.01, 70, 8, 0.328, 0.1, 87.0, 0.92, 0.0))
      ensures this.seed == seed && rand == null
    {
      height := 2.0;
      leafCount := 6;
      leafScaleRange := Vec2(0.2, 0.825);
      leafSegmentRange := Vec2(0.2, 0.92);
      c := 0.01;
      n := 70;
      m := 8;
      scale := 0.328;
      min := 0.1;
      angle := 87.0;
      angleScale := 0.92;
      offset := 0.0;
      this.seed := seed;
      rand := null;
    }

    function Head(): HeadSettings
      reads this
    {
      HeadSettings(c, n, m, scale, min, angle, angleScale, offset)
    }

    function Settings(): FlowerSettings
      reads this
    {
      FlowerSettings(height, leafCount, leafScaleRange, leafSegmentRange, Head())
    }

    /** max(4, count) controls, two draws each. */
    method GetControls(count: int, height: real, radius: real) returns (controls: seq<Vec3>)
      requires rand != null
      modifies rand
      ensures controls == Controls(rand.stream, old(rand.position), count, height, radius)
      ensures rand.position == old(rand.position) + 2 * Max(4, count)
    {
      var n := Max(4, count);
      controls := [];
      ghost var p := rand.position;
      var i := 0;
      while i < n
        invariant 0 <= i <= n
        invariant rand.position == p + 2 * i
        invariant |controls| == i
        invariant forall j :: 0 <= j < i ==> controls[j] == ControlAt(rand.stream, p, j, n, height, radius)
      {
        var r := (i as real) / ((n - 1) as real);
        var circle := rand.SampleUnitCircle();
        controls := controls + [Vec3(circle.x * radius, r * height, circle.y * radius)];
        i := i + 1;
      }
    }

    /** A new part of the given type showing the initial fade. */
    static method CreateBase(tp: FlowerPartType, visible: bool) returns (part: FlowerPart)
      ensures fresh(part) && BasePart(part, tp, visible)
    {
      part := new FlowerPart();
      part.SetType(tp);
      part.Fade(FadeValue(visible));
    }

    /** Builds `stem` on four controls of the given height and radius (8
        draws); the part exists only when the stem builds. */
    method CreateStem(env: Env, stem: FlowerStem, f: real -> real, height: real, bend: real, visible: bool)
      returns (part: Result<FlowerPart>, mesh: Result<Mesh>, controls: seq<Vec3>)
      requires rand != null
      modifies rand, stem
      ensures controls == Controls(rand.stream, old(rand.position), 4, height, bend)
      ensures rand.position == old(rand.position) + 8
      ensures BuildOutcome(env, controls, stem.wResolution, stem.hResolution, stem.radius, f, mesh,
                           old(stem.segments), old(stem.tip), stem.segments, stem.tip)
      ensures part.Ok? <==> mesh.Ok?
      ensures part.Err? ==> part.error == mesh.error
      ensures part.Ok? ==> fresh(part.value) && BasePart(part.value, Stover, visible)
    {
      controls := GetControls(4, height, bend);
      mesh := stem.BuildWith(env, controls, f);
      if mesh.Err? {
        return Err(mesh.error), mesh, controls;
      }
      var p := CreateBase(Stover, visible);
      part := Ok(p);
    }

    /** A leaf: a stalk FlowerStem(10, 2, 0.01) on four controls of height
        0.05 and radius 0 (8 draws), the blade at its tip, the tilt (one
        draw), speed multiplier 5, the blade added at ratio 1. The stalk
        always builds. */
    method CreateLeaf(env: Env, visible: bool)
      returns (leaf: FlowerPart, ghost blade: FlowerPart, controls: seq<Vec3>, tilt: real, bladeAt: Vec3)
      requires rand != null
      modifies rand
      ensures controls == Controls(rand.stream, old(rand.position), 4, 0.05, 0.0)
      ensures tilt == RangeReal(0.0, 30.0, rand.stream(old(rand.position) + 8))
      ensures bladeAt == Vec3(0.0, 0.05, 0.0)
      ensures rand.position == old(rand.position) + 9
      ensures fresh(leaf) && fresh(blade) && LeafPart(leaf, blade, visible)
    {
      var stem := new FlowerStem.WithResolution(StalkH, StalkW, StalkRadius);
      ghost var segments0, tip0 := stem.segments, stem.tip;
      var part, mesh;
      part, mesh, controls := CreateStem(env, stem, StalkProfile, 0.05, 0.0, visible);
      StalkBuilds(env, controls, mesh, segments0, tip0, stem.segments, stem.tip);
      leaf := part.value;
      bladeAt := stem.tip.value.position;
      BladeAtStalkTop(env, rand.stream, old(rand.position));
      var shape := CreateBase(Stover, visible);
      tilt := rand.SampleRange(0.0, 30.0);
      leaf.SetSpeed(5.0);
      leaf.Add(shape, 1.0);
      blade := shape;
    }

    /** The eleven draws of a leaf, in order: the turn about the stem, the
        stalk and the tilt (CreateLeaf), the size between `previous` and
        `top`. */
    method DrawLeaf(env: Env, previous: real, top: real, visible: bool)
      returns (turn: real, leaf: FlowerPart, ghost blade: FlowerPart, controls: seq<Vec3>, tilt: real, size: real)
      requires rand != null
      modifies rand
      ensures turn == RangeReal(-20.0, 20.0, rand.stream(old(rand.position)))
      ensures controls == Controls(rand.stream, old(rand.position) + 1, 4, 0.05, 0.0)
      ensures tilt == RangeReal(0.0, 30.0, rand.stream(old(rand.position) + 9))
      ensures size == RangeReal(previous, top, rand.stream(old(rand.position) + 10))
      ensures rand.position == old(rand.position) + 11
      ensures fresh(leaf) && fresh(blade) && LeafPart(leaf, blade, visible)
    {
      turn := rand.SampleRange(-20.0, 20.0);
      var bladeAt;
      leaf, blade, controls, tilt, bladeAt := CreateLeaf(env, visible);
      size := rand.SampleRange(previous, top);
    }

    /** Leaf i, from the draw the generator is at (see DrawLeaf), added to
        the root at its ratio. */
    method HangLeaf(env: Env, root: FlowerPart, segments: seq<Point>, i: int, r: real, index: int,
                    previous: real, visible: bool) returns (plan: LeafPlan, ghost blade: FlowerPart)
      requires rand != null && 0 <= i < leafCount
      requires r == LeafRatio(i, leafCount) && index == LeafIndex(i, leafCount, |segments|, leafSegmentRange) >= 0
      modifies rand, root
      ensures plan == LeafAt(env, rand.stream, old(rand.position), i, leafCount, segments,
                             leafSegmentRange, leafScaleRange, previous)
      ensures rand.position == old(rand.position) + 11
      ensures |root.children| == |old(root.children)| + 1 && root.children[..|old(root.children)|] == old(root.children)
      ensures root.children[|old(root.children)|].ratio == r
      ensures LeafPart(root.children[|old(root.children)|].part, blade, visible)
      ensures fresh(root.children[|old(root.children)|].part) && fresh(blade)
      ensures root.State() == old(root.State()) && root.partType == old(root.partType) && root.block == old(root.block)
    {
      LeafIndexBounds(i, leafCount, |segments|, leafSegmentRange);
      var from, to := segments[index], segments[index + 1];
      var dir := Normalize(env, Sub(to.position, from.position));
      var turn, leaf, controls, tilt, size;
      turn, leaf, blade, controls, tilt, size := DrawLeaf(env, previous, 1.0 - r * 0.5, visible);
      var angle := ((i % 4) as real) * 90.0 + turn;
      var leafScale := Lerp(leafScaleRange.x, leafScaleRange.y, size);
      root.Add(leaf, r);
      plan := LeafPlan(r, index, from, dir, angle, controls, tilt, size, leafScale);
      LeafAtFields(env, rand.stream, old(rand.position), i, leafCount, segments, leafSegmentRange, leafScaleRange,
                   previous, plan);
    }

    /** One round of the leaf loop: leaf i hung as HangLeaf does, the
        leaves hung before left as they were. */
    method NextLeaf(env: Env, root: FlowerPart, segments: seq<Point>, i: int, size: real, visible: bool,
                    ghost s: Stream, ghost p: nat, ghost plans: seq<LeafPlan>,
                    ghost edges: seq<FlowerSegment>, ghost blades: seq<FlowerPart>)
      returns (plan: LeafPlan, ghost edge: FlowerSegment, ghost blade: FlowerPart)
      requires rand != null && 0 <= i < leafCount && rand.stream == s && rand.position == p + 11 * i
      requires LeafIndex(i, leafCount, |segments|, leafSegmentRange) >= 0
      requires LeavesHung(edges, blades, plans, visible) && root !in EdgeParts(edges) && root !in PartSet(blades)
      modifies rand, root
      ensures plan == LeafAt(env, s, p + 11 * i, i, leafCount, segments, leafSegmentRange, leafScaleRange, size)
      ensures rand.stream == s && rand.position == p + 11 * (i + 1)
      ensures root.children == old(root.children) + [edge]
      ensures LeavesHung(edges + [edge], blades + [blade], plans + [plan], visible)
      ensures fresh(edge.part) && fresh(blade)
      ensures root.State() == old(root.State()) && root.partType == old(root.partType) && root.block == old(root.block)
    {
      var r := LeafRatio(i, leafCount);
      var index := LeafIndex(i, leafCount, |segments|, leafSegmentRange);
      plan, blade := HangLeaf(env, root, segments, i, r, index, size, visible);
      edge := root.children[|old(root.children)|];
      assert LeavesHung(edges, blades, plans, visible);
      HungStep(edges, blades, plans, edge, blade, plan, visible);
    }

    /** The leaf loop before leaf i: the first i leaves of Leaves drawn
        from draw p on, the generator at the draw after them, and the
        leaves hung below `root` after the children it had before, its own
        fields as they were. */
    ghost predicate LeafLoop(env: Env, root: FlowerPart, segments: seq<Point>, visible: bool, s: Stream, p: nat,
                             i: int, size: real, plans: seq<LeafPlan>, before: seq<FlowerSegment>, look: Look,
                             edges: seq<FlowerSegment>, blades: seq<FlowerPart>)
      reads this, rand, root, EdgeParts(edges), PartSet(blades)
    {
      && rand != null && 0 <= i <= Max(leafCount, 0)
      && Leaves(env, s, p, i, leafCount, segments, leafSegmentRange, leafScaleRange) == Ok(LeafRun(size, plans))
      && rand.stream == s && rand.position == p + 11 * i
      && LookOf(root) == look && root.children == before + edges
      && LeavesHung(edges, blades, plans, visible) && root !in EdgeParts(edges) && root !in PartSet(blades)
    }

    /** One round of the leaf loop, leaf i: the run stops for good when
        the leaf's index is negative; otherwise leaf i is hung as NextLeaf
        does and the run goes on with it. */
    method LeafTurn(env: Env, root: FlowerPart, segments: seq<Point>, i: int, size: real, visible: bool,
                    ghost s: Stream, ghost p: nat, ghost plans: seq<LeafPlan>, ghost before: seq<FlowerSegment>,
                    ghost look: Look, ghost edges: seq<FlowerSegment>, ghost blades: seq<FlowerPart>)
      returns (next: Result<LeafPlan>, ghost edge: FlowerSegment?, ghost blade: FlowerPart?)
      requires i < leafCount && LeafLoop(env, root, segments, visible, s, p, i, size, plans, before, look, edges, blades)
      modifies rand, root
      ensures LookOf(root) == look
      ensures next.Err? ==> next.error == IndexOutOfRange
                            && Leaves(env, s, p, Max(leafCount, 0), leafCount, segments, leafSegmentRange, leafScaleRange)
                               == Err(IndexOutOfRange)
      ensures next.Ok? ==> edge != null && blade != null && fresh(edge.part) && fresh(blade)
      ensures next.Ok? ==> LeafLoop(env, root, segments, visible, s, p, i + 1, next.value.size, plans + [next.value],
                                    before, look, edges + [edge], blades + [blade])
    {
      if LeafIndex(i, leafCount, |segments|, leafSegmentRange) < 0 {
        LeavesFail(env, s, p, i, Max(leafCount, 0), leafCount, segments, leafSegmentRange, leafScaleRange);
        return Err(IndexOutOfRange), null, null;
      }
      var plan;
      plan, edge, blade := NextLeaf(env, root, segments, i, size, visible, s, p, plans, edges, blades);
      LeavesNext(env, s, p, i, leafCount, segments, leafSegmentRange, leafScaleRange, LeafRun(size, plans));
      EdgePartsStep(edges, edge);
      PartSetStep(blades, blade);
      next := Ok(plan);
    }

    /** The leaf loop of Build: leaf i of leafCount is hung from segment
        LeafIndex(i) at ratio LeafRatio(i) (see HangLeaf). The loop stops
        with an error at the first leaf whose index is negative, where
        segments[index] is out of range. */
    method AddLeaves(env: Env, root: FlowerPart, segments: seq<Point>, visible: bool, ghost s: Stream, ghost p: nat)
      returns (result: Result<LeafRun>, ghost edges: seq<FlowerSegment>, ghost blades: seq<FlowerPart>)
      requires rand != null && rand.stream == s && rand.position == p
      modifies rand, root
      ensures result == Leaves(env, s, p, Max(leafCount, 0), leafCount, segments, leafSegmentRange, leafScaleRange)
      ensures LookOf(root) == old(LookOf(root))
      ensures result.Ok? ==> rand.position == p + 11 * Max(leafCount, 0)
      ensures result.Ok? ==> root.children == old(root.children) + edges
      ensures result.Ok? ==> LeavesHung(edges, blades, result.value.plans, visible)
      ensures result.Ok? ==> fresh(EdgeParts(edges)) && fresh(PartSet(blades))
    {
      edges, blades := [], [];
      var size := 1.0;
      var plans: seq<LeafPlan> := [];
      var i := 0;
      ghost var before, look := root.children, LookOf(root);
      while i < leafCount
        invariant LeafLoop(env, root, segments, visible, s, p, i, size, plans, before, look, edges, blades)
        invariant fresh(EdgeParts(edges)) && fresh(PartSet(blades))
      {
        var next;
        ghost var edge, blade;
        next, edge, blade := LeafTurn(env, root, segments, i, size, visible, s, p, plans, before, look, edges, blades);
        if next.Err? {
          return Err(next.error), edges, blades;
        }
        EdgePartsStep(edges, edge);
        PartSetStep(blades, blade);
        edges, blades := edges + [edge], blades + [blade];
        size := next.value.size;
        plans := plans + [next.value];
        i := i + 1;
      }
      return Ok(LeafRun(size, plans)), edges, blades;
    }

    /** The colour of a floret, on three draws. */
    method DrawColor() returns (color: Color)
      requires rand != null
      modifies rand
      ensures color == FloretColor(rand.stream, old(rand.position))
      ensures rand.position == old(rand.position) + 3
    {
      var red := rand.SampleRange(0.5, 1.0);
      var green := rand.SampleRange(0.5, 1.0);
      var blue := rand.SampleRange(0.5, 1.0);
      color := Color(red, green, blue, 1.0);
    }

    /** A floret's part: Instantiate(bud) or Instantiate(petal), both
        templates being Petal parts made by CreateBase, then coloured, bent
        and faded. */
    static method PaintFloret(color: Color, bend: real, visible: bool) returns (part: FlowerPart)
      ensures fresh(part) && PaintedPetal(part, color, bend, FadeValue(visible))
    {
      part := CreateBase(Petal, visible);
      part.Colorize(color);
      part.Bend(bend);
      part.Fade(FadeValue(visible));
      FloretBlock(FadeValue(visible), color, bend);
    }

    /** Floret slot i of the head: a bud for i < m, a petal otherwise (a
        new Petal part in either case), coloured, bent by 1 - ratio,
        faded in, and added to the head at its ratio i * inv. */
    method AddFloret(env: Env, head: FlowerPart, i: int, inv: real, visible: bool) returns (plan: FloretPlan)
      requires rand != null && inv == Div(1.0, n as real)
      modifies rand, head
      ensures plan == FloretAt(env, rand.stream, old(rand.position), i, Head(), visible)
      ensures rand.position == old(rand.position) + 3
      ensures |head.children| == |old(head.children)| + 1 && head.children[..|old(head.children)|] == old(head.children)
      ensures head.children[|old(head.children)|].ratio == plan.ratio
      ensures FloretPart(head.children[|old(head.children)|].part, plan)
      ensures fresh(head.children[|old(head.children)|].part)
      ensures head.State() == old(head.State()) && head.partType == old(head.partType) && head.block == old(head.block)
    {
      var r := (i as real) * inv;
      assert r == SlotRatio(i, n);
      var p := FloretPosition(env, i + 1, c, 137.5);
      var size := FloretSize(env, p, Head());
      var partScale := if i < m then size * 0.75 else size;
      var color := DrawColor();
      var part := PaintFloret(color, 1.0 - r, visible);
      var position := Add(p, Scale(Scale(Down, r), offset));
      var rotation := env.compose(env.lookRotationUp(Up, Normalize(env, p)),
                                  env.angleAxis(FloretTilt(r, Head()), Right));
      head.Add(part, r);
      plan := FloretPlan(i < m, r, position, rotation, partScale, color, 1.0 - r, FadeValue(visible));
      FloretAtFields(env, rand.stream, old(rand.position), i, Head(), visible, plan);
    }

    /** The floret loop before slot i: the florets of the first i slots
        drawn from draw p on, the generator at the draw after them, the
        head as CreateFlower made it with their edges as its children. */
    ghost predicate FloretLoop(env: Env, head: FlowerPart, visible: bool, s: Stream, p: nat, i: int,
                               florets: seq<FloretPlan>, edges: seq<FlowerSegment>)
      reads this, rand, head, EdgeParts(edges)
    {
      && rand != null && 0 <= i <= Max(n, 0) && |florets| == i
      && rand.stream == s && rand.position == p + 3 * i
      && FloretsUpTo(env, s, p, Head(), visible, florets)
      && HeadPart(head) && head.children == edges && FloretsHung(edges, florets) && head !in EdgeParts(edges)
    }

    /** One turn of the floret loop: slot i added as AddFloret does, the
        florets added before left as they were. */
    method NextFloret(env: Env, head: FlowerPart, i: int, inv: real, visible: bool, ghost s: Stream, ghost p: nat,
                      ghost florets: seq<FloretPlan>, ghost edges: seq<FlowerSegment>)
      returns (plan: FloretPlan, ghost edge: FlowerSegment)
      requires i < n && inv == Div(1.0, n as real) && FloretLoop(env, head, visible, s, p, i, florets, edges)
      modifies rand, head
      ensures fresh(edge.part)
      ensures FloretLoop(env, head, visible, s, p, i + 1, florets + [plan], edges + [edge])
    {
      ghost var q := rand.position;
      plan := AddFloret(env, head, i, inv, visible);
      edge := head.children[|old(head.children)|];
      assert head.children == edges + [edge];
      FloretAdded(env, head, visible, s, p, q, i, florets, edges, plan, edge);
    }

    /** The floret loop's step, on the state AddFloret leaves. */
    lemma FloretAdded(env: Env, head: FlowerPart, visible: bool, s: Stream, p: nat, q: nat, i: int,
                      florets: seq<FloretPlan>, edges: seq<FlowerSegment>, plan: FloretPlan, edge: FlowerSegment)
      requires rand != null && 0 <= i < n && |florets| == i && rand.stream == s && q == p + 3 * i && rand.position == q + 3
      requires FloretsUpTo(env, s, p, Head(), visible, florets) && plan == FloretAt(env, s, q, i, Head(), visible)
      requires HeadPart(head) && head.children == edges + [edge] && FloretsHung(edges, florets)
      requires edge.ratio == plan.ratio && FloretPart(edge.part, plan) && head !in EdgeParts(edges) && edge.part != head
      ensures FloretLoop(env, head, visible, s, p, i + 1, florets + [plan], edges + [edge])
    {
      FloretHungStep(edges, florets, edge, plan);
      FloretsNext(env, s, p, q, Head(), visible, florets, plan);
      EdgePartsStep(edges, edge);
    }

    /** The head: a part of type None with the n florets as children. */
    method CreateFlower(env: Env, visible: bool) returns (head: FlowerPart, florets: seq<FloretPlan>, ghost edges: seq<FlowerSegment>)
      requires rand != null
      modifies rand
      ensures florets == Florets(env, rand.stream, old(rand.position), Head(), visible)
      ensures rand.position == old(rand.position) + 3 * Max(n, 0)
      ensures fresh(head) && HeadPart(head) && head.children == edges && FloretsHung(edges, florets)
      ensures fresh(EdgeParts(edges)) && head !in EdgeParts(edges)
    {
      ghost var s, p := rand.stream, rand.position;
      head := new FlowerPart();
      head.SetType(FlowerPartType.None);
      var inv := Div(1.0, n as real);
      florets, edges := [], [];
      var i := 0;
      while i < n
        invariant FloretLoop(env, head, visible, s, p, i, florets, edges)
        invariant fresh(EdgeParts(edges))
      {
        var plan, edge := NextFloret(env, head, i, inv, visible, s, p, florets, edges);
        EdgePartsStep(edges, edge);
        florets, edges := florets + [plan], edges + [edge];
        i := i + 1;
      }
      FloretsComplete(env, s, p, Head(), visible, florets);
    }

    /** The main stem of Build: CreateStem with thickness profile 1 on
        four controls of height `height` and radius `bend`. It builds
        exactly when hResolution is 2 or more. */
    method CreateMainStem(env: Env, stem: FlowerStem, bend: real, visible: bool,
                          ghost s: Stream, ghost p: nat, ghost settings: FlowerSettings, ghost h: int)
      returns (part: Result<FlowerPart>, controls: seq<Vec3>)
      requires rand != null && rand.stream == s && rand.position == p
      requires settings == Settings() && stem.hResolution == h
      modifies rand, stem
      ensures controls == Controls(s, p, 4, settings.height, bend)
      ensures rand.position == p + 8 && stem.hResolution == h
      ensures part.Ok? <==> h >= 2
      ensures part.Err? ==> part.error == IndexOutOfRange
      ensures part.Ok? ==> var cores := Cores(Extend(env, controls), h);
                           |cores| >= 2 && stem.segments == StemSegments(env, cores) && stem.tip == Some(StemTip(env, cores))
      ensures part.Ok? ==> fresh(part.value) && BasePart(part.value, Stover, visible)
    {
      var mesh;
      part, mesh, controls := CreateStem(env, stem, UnitProfile, height, bend, visible);
      if stem.hResolution >= 1 {
        CoreCount(env, controls, stem.hResolution);
      }
    }

    /** The rest of Build on the main stem's part: the leaf loop, then the
        head added at ratio 1. */
    method Grow(env: Env, stemRoot: FlowerPart, segments: seq<Point>, visible: bool,
                ghost s: Stream, ghost p: nat, ghost settings: FlowerSettings)
      returns (leaves: Result<LeafRun>, florets: seq<FloretPlan>,
               ghost leafEdges: seq<FlowerSegment>, ghost blades: seq<FlowerPart>, ghost head: FlowerPart,
               ghost floretEdges: seq<FlowerSegment>)
      requires rand != null && rand.stream == s && rand.position == p && settings == Settings()
      requires stemRoot.children == []
      modifies rand, stemRoot
      ensures leaves == Leaves(env, s, p, Max(settings.leafCount, 0), settings.leafCount, segments,
                               settings.leafSegmentRange, settings.leafScaleRange)
      ensures leaves.Ok? ==> florets == Florets(env, s, p + 11 * Max(settings.leafCount, 0), settings.head, visible)
      ensures leaves.Ok? ==> rand.position == p + 11 * Max(settings.leafCount, 0) + 3 * Max(settings.head.n, 0)
      ensures LookOf(stemRoot) == old(LookOf(stemRoot))
      ensures leaves.Ok? ==> Grown(stemRoot, leafEdges, blades, head, floretEdges, leaves.value.plans, florets, visible)
      ensures leaves.Ok? ==> fresh(EdgeParts(leafEdges)) && fresh(PartSet(blades)) && fresh(head) && fresh(EdgeParts(floretEdges))
    {
      leaves, leafEdges, blades := AddLeaves(env, stemRoot, segments, visible, s, p);
      if leaves.Err? {
        return leaves, [], leafEdges, blades, stemRoot, [];
      }
      var flower;
      flower, florets, floretEdges := CreateFlower(env, visible);
      stemRoot.Add(flower, 1.0);
      head := flower;
      GrownIntro(stemRoot, leafEdges, blades, head, floretEdges, leaves.value.plans, florets, visible);
    }

    /** Build past the main stem, on its part, segments and tip: the leaf
        loop and the head, with the plan GrowthPlan. */
    method Flourish(env: Env, stemRoot: FlowerPart, controls: seq<Vec3>, segments: seq<Point>, tip: Point, visible: bool,
                    ghost s: Stream, ghost settings: FlowerSettings)
      returns (plan: Result<FlowerPlan>, ghost leafEdges: seq<FlowerSegment>, ghost blades: seq<FlowerPart>,
               ghost head: FlowerPart, ghost floretEdges: seq<FlowerSegment>)
      requires rand != null && rand.stream == s && rand.position == 8 && settings == Settings()
      requires stemRoot.children == []
      modifies rand, stemRoot
      ensures plan == GrowthPlan(env, s, settings, visible, controls, segments, tip)
      ensures plan.Ok? ==> rand.position == DrawCount(settings)
      ensures LookOf(stemRoot) == old(LookOf(stemRoot))
      ensures plan.Ok? ==> Grown(stemRoot, leafEdges, blades, head, floretEdges, plan.value.leaves, plan.value.florets, visible)
      ensures plan.Ok? ==> fresh(EdgeParts(leafEdges)) && fresh(PartSet(blades)) && fresh(head) && fresh(EdgeParts(floretEdges))
    {
      var leaves, florets;
      leaves, florets, leafEdges, blades, head, floretEdges := Grow(env, stemRoot, segments, visible, s, 8, settings);
      if leaves.Err? {
        return Err(leaves.error), leafEdges, blades, head, floretEdges;
      }
      plan := Ok(FlowerPlan(controls, segments, tip, leaves.value.plans, florets));
    }

    /** Build(visible): a generator made from the seed; the main stem on
        four controls of height `height` and radius `bend`, thickness
        profile 1; the leaf loop; the head, set on the stem's tip, added at
        ratio 1. It fails where the main stem's Build or the leaf loop
        throws. */
    method Build(env: Env, seeded: int -> Stream, stem: FlowerStem, bend: real, visible: bool)
      returns (root: Result<FlowerPart>, plan: Result<FlowerPlan>,
               ghost leafEdges: seq<FlowerSegment>, ghost blades: seq<FlowerPart>, ghost head: FlowerPart?,
               ghost floretEdges: seq<FlowerSegment>)
      modifies this, stem
      ensures Settings() == old(Settings()) && seed == old(seed)
      ensures fresh(rand) && rand.stream == seeded(seed)
      ensures plan == Plan(env, seeded(seed), Settings(), stem.hResolution, bend, visible)
      ensures root.Ok? <==> plan.Ok?
      ensures plan.Ok? ==> rand.position == DrawCount(Settings())
      ensures plan.Ok? ==> stem.segments == plan.value.segments && stem.tip == Some(plan.value.tip)
      ensures root.Ok? ==> fresh(root.value) && StemRoot(root.value, visible)
      ensures root.Ok? ==> head != null && Grown(root.value, leafEdges, blades, head, floretEdges, plan.value.leaves, plan.value.florets, visible)
      ensures root.Ok? ==> fresh(EdgeParts(leafEdges)) && fresh(PartSet(blades)) && fresh(head) && fresh(EdgeParts(floretEdges))
    {
      rand := new RandomUtil(seed, seeded);
      ghost var s, settings, h := rand.stream, Settings(), stem.hResolution;
      var stemPart, controls := CreateMainStem(env, stem, bend, visible, s, 0, settings, h);
      if stemPart.Err? {
        PlanStemFails(env, s, settings, h, bend, visible);
        return Err(stemPart.error), Err(stemPart.error), [], [], null, [];
      }
      var segments, tip := stem.segments, stem.tip.value;
      ghost var top;
      plan, leafEdges, blades, top, floretEdges := Flourish(env, stemPart.value, controls, segments, tip, visible, s, settings);
      PlanBuilt(env, s, settings, h, bend, visible);
      head := top;
      root := if plan.Ok? then Ok(stemPart.value) else Err(plan.error);
    }
  }
}
