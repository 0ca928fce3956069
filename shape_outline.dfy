/** FlowerShape, outline part: the closed outline built by mirroring the
    control points, circular indexing into it, the width scaling of one
    layer, and the split of a vertex budget across outline segments in
    proportion to their lengths. */
module ShapeOutline {
  import opened UnityMath
  import opened ControlPoints

  /** Mirror: origin, the controls scaled, the top, then the controls in
      reverse order with x negated. */
  function Mirror(controls: seq<ControlPoint>, height: real, width: real): (r: seq<Vec3>)
    ensures |r| == 2 * |controls| + 2
  {
    [Zero3] + ScaledControls(controls, height, width) + [Vec3(0.0, height, 0.0)]
    + MirroredControls(controls, height, width)
  }

  function Scaled(c: ControlPoint, height: real, width: real): Vec3 {
    Vec3(c.width * width, c.height * height, 0.0)
  }

  function Mirrored(c: ControlPoint, height: real, width: real): Vec3 {
    Vec3(-c.width * width, c.height * height, 0.0)
  }

  /** The first loop of Mirror: every control, scaled. */
  function ScaledControls(controls: seq<ControlPoint>, height: real, width: real): (r: seq<Vec3>)
    ensures |r| == |controls|
  {
    seq(|controls|, i requires 0 <= i < |controls| => Scaled(controls[i], height, width))
  }

  /** The second loop of Mirror: the controls from last to first, scaled,
      x negated. */
  function MirroredControls(controls: seq<ControlPoint>, height: real, width: real): (r: seq<Vec3>)
    ensures |r| == |controls|
  {
    var k := |controls|;
    seq(k, i requires 0 <= i < k => Mirrored(controls[k - 1 - i], height, width))
  }

  /** The outline runs from the origin up the right-hand half to the top
      and back down the left-hand half, which is the right-hand half
      reflected in x = 0; it lies in the plane z = 0. */
  lemma MirrorShape(controls: seq<ControlPoint>, height: real, width: real)
    ensures Mirror(controls, height, width)[0] == Zero3
    ensures Mirror(controls, height, width)[|controls| + 1] == Vec3(0.0, height, 0.0)
    ensures forall j :: 1 <= j <= |controls| ==>
              Mirror(controls, height, width)[j]
              == Vec3(controls[j - 1].width * width, controls[j - 1].height * height, 0.0)
    ensures forall j :: 1 <= j <= |controls| ==>
              Mirror(controls, height, width)[2 * |controls| + 2 - j]
              == Vec3(-Mirror(controls, height, width)[j].x, Mirror(controls, height, width)[j].y, 0.0)
    ensures forall j :: 0 <= j < 2 * |controls| + 2 ==> Mirror(controls, height, width)[j].z == 0.0
  {
    var k := |controls|;
    var r := Mirror(controls, height, width);
    var left, right := ScaledControls(controls, height, width), MirroredControls(controls, height, width);
    forall j | 1 <= j <= k
      ensures r[j] == Scaled(controls[j - 1], height, width)
      ensures r[2 * k + 2 - j] == Vec3(-r[j].x, r[j].y, 0.0)
    {
      assert r[j] == left[j - 1] == Scaled(controls[j - 1], height, width);
      assert r[2 * k + 2 - j] == right[k - j] == Mirrored(controls[j - 1], height, width);
    }
    forall j | k + 2 <= j < 2 * k + 2 ensures r[j].z == 0.0 {
      assert r[j] == right[j - k - 2] == Mirrored(controls[2 * k + 1 - j], height, width);
    }
  }

  /** GetEdge: scale the width of an outline point, keep its height. */
  function GetEdge(p: Vec2, ratio: real): Vec2 {
    Vec2(p.x * ratio, p.y)
  }

  /** The outline point at any integer index, wrapping around (Euclidean
      remainder, so negative indices count from the end). */
  function LoopPoint(points: seq<Vec3>, index: int): Vec2
    requires |points| > 0
  {
    Flat(points[index % |points|])
  }

  /** The Euclidean remainder is the unique r in [0,n) with a == q * n + r. */
  lemma ModUnique(a: int, n: int, q: int, r: int)
    requires n > 0 && a == q * n + r && 0 <= r < n
    ensures a % n == r
  {
    var q', r' := a / n, a % n;
    assert a == q' * n + r' && 0 <= r' < n;
    assert (q - q') * n == r' - r;
    MulBounds(q - q', n);
  }

  lemma MulBounds(d: int, n: int)
    requires n > 0
    ensures d >= 1 ==> d * n >= n
    ensures d <= -1 ==> d * n <= -n
  {
  }

  lemma ModStep(index: int, n: int)
    requires n > 0
    ensures (index + n) % n == index % n
    ensures (index - n) % n == index % n
  {
    var q, r := index / n, index % n;
    assert index == q * n + r;
    ModUnique(index + n, n, q + 1, r);
    ModUnique(index - n, n, q - 1, r);
  }

  /** GetLoopPoint: add or subtract the length until the index is in range.
      An empty list makes the source loop forever; callers always pass an
      outline, which has at least two points. */
  method GetLoopPoint(points: seq<Vec3>, index: int) returns (p: Vec2)
    requires |points| > 0
    ensures p == Flat(points[index % |points|])
    ensures p == LoopPoint(points, index)
  {
    var n := |points|;
    var i := index;
    while true
      invariant i % n == index % n
      decreases if i < 0 then -i else 0, if i >= 0 then i else 0
    {
      if i < 0 {
        ModStep(i, n);
        i := n + i;
        continue;
      }
      if i < n {
        ModUnique(i, n, 0, i);
        return Flat(points[i]);
      }
      ModStep(i, n);
      i := i - n;
    }
  }

  /** The control points as plain 2D vectors, unscaled. */
  function ControlVectors(controls: seq<ControlPoint>): (r: seq<Vec2>)
    ensures |r| == |controls|
  {
    seq(|controls|, i requires 0 <= i < |controls| => Vec2(controls[i].width, controls[i].height))
  }

  function Sub2(a: Vec2, b: Vec2): Vec2 { Vec2(a.x - b.x, a.y - b.y) }

  /** Segment i of the outline half: origin to the first point, between
      consecutive points, and the last point to (0,1). */
  function SegmentLength(env: Env, pts: seq<Vec2>, i: int): real
    requires 0 < |pts| && 0 <= i <= |pts|
  {
    if i == 0 then Magnitude2(env, pts[0])
    else if i < |pts| then Magnitude2(env, Sub2(pts[i], pts[i - 1]))
    else Magnitude2(env, Sub2(Vec2(0.0, 1.0), pts[i - 1]))
  }

  function Lengths(env: Env, pts: seq<Vec2>): (r: seq<real>)
    requires 0 < |pts|
    ensures |r| == |pts| + 1
  {
    seq(|pts| + 1, i requires 0 <= i <= |pts| => SegmentLength(env, pts, i))
  }

  function Sum(s: seq<real>): real {
    if s == [] then 0.0 else Sum(s[..|s| - 1]) + s[|s| - 1]
  }

  function SumInt(s: seq<int>): int {
    if s == [] then 0 else SumInt(s[..|s| - 1]) + s[|s| - 1]
  }

  /** Each segment's share of the budget: floor(length / total * count). */
  function FloorShares(ls: seq<real>, total: real, count: int): (r: seq<int>)
    ensures |r| == |ls|
  {
    seq(|ls|, i requires 0 <= i < |ls| => Share(ls[i], total, count))
  }

  function Share(l: real, total: real, count: int): int {
    FloorToInt(Div(l, total) * (count as real))
  }

  /** The counts GetCounts returns, as a value. */
  function Counts(env: Env, controls: seq<ControlPoint>, count: int): (r: seq<int>)
    requires 0 < |controls|
    ensures |r| == |controls| + 1
  {
    var ls := Lengths(env, ControlVectors(controls));
    FloorShares(ls, Sum(ls), count)
  }

  lemma MagnitudeZero(env: Env, v: Vec2)
    requires ValidEnv(env)
    ensures Magnitude2(env, v) >= 0.0
    ensures Magnitude2(env, v) == 0.0 ==> v == Vec2(0.0, 0.0)
  {
  }

  lemma SumNonNegative(s: seq<real>)
    requires forall i :: 0 <= i < |s| ==> s[i] >= 0.0
    ensures Sum(s) >= 0.0
  {
    if s != [] {
      SumNonNegative(s[..|s| - 1]);
    }
  }

  lemma {:induction false} SumAtLeastElement(s: seq<real>, k: int)
    requires forall i :: 0 <= i < |s| ==> s[i] >= 0.0
    requires 0 <= k < |s|
    ensures Sum(s) >= s[k]
  {
    var init := s[..|s| - 1];
    if k == |s| - 1 {
      SumNonNegative(init);
    } else {
      SumAtLeastElement(init, k);
    }
  }

  lemma UnitLength(env: Env)
    requires ValidEnv(env)
    ensures Magnitude2(env, Vec2(0.0, 1.0)) > 0.0
  {
    assert Magnitude2(env, Vec2(0.0, 1.0)) == env.sqrt(1.0);
  }

  lemma LastSegmentPositive(env: Env, pts: seq<Vec2>)
    requires ValidEnv(env) && 0 < |pts| && pts[|pts| - 1] == Vec2(0.0, 0.0)
    ensures Lengths(env, pts)[|pts|] > 0.0
  {
    var d := Sub2(Vec2(0.0, 1.0), pts[|pts| - 1]);
    assert d == Vec2(0.0, 1.0);
    UnitLength(env);
    assert Lengths(env, pts)[|pts|] == Magnitude2(env, d);
  }

  /** Some segment of the outline half is longer than zero: the points
      cannot all sit at the origin and also reach (0,1). */
  lemma SomeSegmentPositive(env: Env, pts: seq<Vec2>) returns (k: int)
    requires ValidEnv(env) && 0 < |pts|
    ensures 0 <= k <= |pts| && Lengths(env, pts)[k] > 0.0
  {
    var ls := Lengths(env, pts);
    assert ls[0] == Magnitude2(env, pts[0]);
    MagnitudeZero(env, pts[0]);
    if ls[0] > 0.0 {
      return 0;
    }
    var j := 0;
    while j < |pts| - 1
      invariant 0 <= j < |pts|
      invariant pts[j] == Vec2(0.0, 0.0)
    {
      var d := Sub2(pts[j + 1], pts[j]);
      assert ls[j + 1] == Magnitude2(env, d);
      MagnitudeZero(env, d);
      if ls[j + 1] > 0.0 {
        return j + 1;
      }
      assert d == Vec2(0.0, 0.0);
      j := j + 1;
    }
    LastSegmentPositive(env, pts);
    return |pts|;
  }

  /** Every segment length is non-negative and their total is positive, so
      GetCounts never divides by zero. */
  lemma LengthsWellFormed(env: Env, pts: seq<Vec2>)
    requires ValidEnv(env) && 0 < |pts|
    ensures forall i :: 0 <= i < |pts| + 1 ==> Lengths(env, pts)[i] >= 0.0
    ensures Sum(Lengths(env, pts)) > 0.0
  {
    var ls := Lengths(env, pts);
    forall i | 0 <= i < |pts| + 1 ensures ls[i] >= 0.0 {
      if i == 0 {
        MagnitudeZero(env, pts[0]);
      } else if i < |pts| {
        MagnitudeZero(env, Sub2(pts[i], pts[i - 1]));
      } else {
        MagnitudeZero(env, Sub2(Vec2(0.0, 1.0), pts[i - 1]));
      }
    }
    var k := SomeSegmentPositive(env, pts);
    SumAtLeastElement(ls, k);
  }

  /** GetCounts: accumulate the segment lengths into an array and their
      total, then give each segment floor(length / total * count). */
  method GetCounts(env: Env, controls: seq<ControlPoint>, count: int) returns (counts: seq<int>)
    requires ValidEnv(env) && 0 < |controls|
    ensures |counts| == |controls| + 1
    ensures counts == Counts(env, controls, count)
  {
    var controlSize := |controls|;
    var points := ControlVectors(controls);
    ghost var ls := Lengths(env, points);
    var acc := 0.0;
    var lengthArray := new real[controlSize + 1];
    var i, n := 0, |points|;
    while i <= n
      invariant 0 <= i <= n + 1
      invariant lengthArray[..i] == ls[..i]
      invariant acc == Sum(ls[..i])
    {
      var l: real;
      if i == 0 {
        l := Magnitude2(env, points[0]);
      } else if i < n {
        l := Magnitude2(env, Sub2(points[i], points[i - 1]));
      } else {
        l := Magnitude2(env, Sub2(Vec2(0.0, 1.0), points[i - 1]));
      }
      assert l == ls[i];
      assert ls[..i + 1][..i] == ls[..i];
      acc := acc + l;
      lengthArray[i] := l;
      i := i + 1;
    }
    assert ls[..n + 1] == ls;
    LengthsWellFormed(env, points);
    assert acc == Sum(ls) && acc > 0.0;
    var lens := lengthArray[..];
    assert lens == ls;
    // the closing Select: each length's share of the total, floored
    counts := FloorShares(lens, acc, count);
  }

  lemma {:induction false} FloorSharesPrefix(ls: seq<real>, total: real, count: int)
    requires ls != []
    ensures FloorShares(ls[..|ls| - 1], total, count) == FloorShares(ls, total, count)[..|ls| - 1]
  {
    var a := FloorShares(ls[..|ls| - 1], total, count);
    var b := FloorShares(ls, total, count)[..|ls| - 1];
    assert |a| == |b|;
    forall i | 0 <= i < |a| ensures a[i] == b[i] {
      assert ls[..|ls| - 1][i] == ls[i];
      assert a[i] == Share(ls[i], total, count);
    }
  }

  lemma {:induction false} FloorSharesBelow(ls: seq<real>, total: real, count: int)
    requires total > 0.0 && count >= 0
    ensures (SumInt(FloorShares(ls, total, count)) as real) <= Sum(ls) / total * (count as real)
  {
    if ls != [] {
      var init := ls[..|ls| - 1];
      var last := ls[|ls| - 1];
      var shares := FloorShares(ls, total, count);
      FloorSharesBelow(init, total, count);
      FloorSharesPrefix(ls, total, count);
      assert shares[..|shares| - 1] == FloorShares(init, total, count);
      assert shares[|shares| - 1] == Share(last, total, count);
      assert Div(last, total) == last / total;
      assert (shares[|shares| - 1] as real) <= last / total * (count as real);
      assert Sum(ls) / total * (count as real)
          == Sum(init) / total * (count as real) + last / total * (count as real);
    }
  }

  lemma SharesNonNegative(ls: seq<real>, total: real, count: int)
    requires total > 0.0 && count >= 0
    requires forall i :: 0 <= i < |ls| ==> ls[i] >= 0.0
    ensures forall i :: 0 <= i < |ls| ==> FloorShares(ls, total, count)[i] >= 0
  {
    forall i | 0 <= i < |ls| ensures FloorShares(ls, total, count)[i] >= 0 {
      assert FloorShares(ls, total, count)[i] == Share(ls[i], total, count);
      assert Div(ls[i], total) == ls[i] / total;
      assert ls[i] / total >= 0.0;
      assert ls[i] / total * (count as real) >= 0.0;
    }
  }

  /** For a non-negative budget every share is non-negative and the shares
      add up to at most the budget. */
  lemma CountsWithinBudget(env: Env, controls: seq<ControlPoint>, count: int)
    requires ValidEnv(env) && 0 < |controls| && count >= 0
    ensures forall i :: 0 <= i < |controls| + 1 ==> Counts(env, controls, count)[i] >= 0
    ensures 0 <= SumInt(Counts(env, controls, count)) <= count
  {
    var pts := ControlVectors(controls);
    var ls := Lengths(env, pts);
    var total := Sum(ls);
    LengthsWellFormed(env, pts);
    var counts := Counts(env, controls, count);
    assert counts == FloorShares(ls, total, count);
    SharesNonNegative(ls, total, count);
    FloorSharesBelow(ls, total, count);
    assert total / total * (count as real) == count as real by {
      assert total / total == 1.0;
    }
    SumIntNonNegative(counts);
  }

  lemma SumIntNonNegative(s: seq<int>)
    requires forall i :: 0 <= i < |s| ==> s[i] >= 0
    ensures SumInt(s) >= 0
  {
    if s != [] {
      SumIntNonNegative(s[..|s| - 1]);
    }
  }
}
