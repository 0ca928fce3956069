/** FlowerCatmullRomSpline: the cubic Catmull-Rom basis, fixed-count
    sampling of one segment, and the `Loop` index helper. */
module CatmullRom {
  import opened UnityMath

  /** Loop(index, length): a negative index becomes length - 1, an index
      past length becomes 1, index == length becomes 0. */
  function Loop(index: int, length: int): (r: int)
    ensures 0 <= index < length ==> r == index
    ensures index < 0 ==> r == length - 1
    ensures index >= 0 && index == length ==> r == 0
    ensures index >= 0 && index > length ==> r == 1
    ensures length >= 2 ==> 0 <= r < length
  {
    var i := if index < 0 then length - 1 else index;
    if i > length then 1 else if i > length - 1 then 0 else i
  }

  /** Loop agrees with true modular indexing on [-1, length + 1] only. */
  lemma LoopAgreesWithModNearRange(index: int, length: int)
    requires length >= 2 && -1 <= index <= length + 1
    ensures Loop(index, length) == index % length
  {
    if index == -1 {
      assert index % length == length - 1;
    } else if index == length {
      assert index % length == 0;
    } else if index == length + 1 {
      assert index % length == 1;
    }
  }

  /** Further out it does not: length + 2 maps to 1, not to 2. */
  lemma LoopDiffersFromModFarOut(length: int)
    requires length >= 3
    ensures Loop(length + 2, length) == 1 != (length + 2) % length
  {
    assert (length + 2) % length == 2;
  }

  /** One coordinate of the cubic 0.5 * (a + b t + c t^2 + d t^3). */
  function Cubic(t: real, p0: real, p1: real, p2: real, p3: real): real {
    var a := 2.0 * p1;
    var b := p2 - p0;
    var c := 2.0 * p0 - 5.0 * p1 + 4.0 * p2 - p3;
    var d := -p0 + 3.0 * p1 - 3.0 * p2 + p3;
    0.5 * (a + b * t + c * t * t + d * t * t * t)
  }

  /** GetCatmullRomPosition: the cubic applied coordinate by coordinate. */
  function Position(t: real, p0: Vec3, p1: Vec3, p2: Vec3, p3: Vec3): Vec3 {
    Vec3(Cubic(t, p0.x, p1.x, p2.x, p3.x),
         Cubic(t, p0.y, p1.y, p2.y, p3.y),
         Cubic(t, p0.z, p1.z, p2.z, p3.z))
  }

  /** The curve starts at p1 and ends at p2, whatever p0 and p3 are. */
  lemma PositionEndpoints(p0: Vec3, p1: Vec3, p2: Vec3, p3: Vec3)
    ensures Position(0.0, p0, p1, p2, p3) == p1
    ensures Position(1.0, p0, p1, p2, p3) == p2
  {
  }

  /** Four equal control points give a constant curve. */
  lemma PositionConstant(t: real, p: Vec3)
    ensures Position(t, p, p, p, p) == p
  {
  }

  lemma CubicScales(t: real, s: real, p0: real, p1: real, p2: real, p3: real,
                     q0: real, q1: real, q2: real, q3: real)
    requires q0 == s * p0 && q1 == s * p1 && q2 == s * p2 && q3 == s * p3
    ensures Cubic(t, q0, q1, q2, q3) == s * Cubic(t, p0, p1, p2, p3)
  {
    var tt := t * t;
    var ttt := tt * t;
    calc {
      Cubic(t, s * p0, s * p1, s * p2, s * p3);
      0.5 * (2.0 * (s * p1) + (s * p2 - s * p0) * t
             + (2.0 * (s * p0) - 5.0 * (s * p1) + 4.0 * (s * p2) - s * p3) * tt
             + (-(s * p0) + 3.0 * (s * p1) - 3.0 * (s * p2) + s * p3) * ttt);
      { assert (s * p2 - s * p0) * t == s * ((p2 - p0) * t);
        assert (2.0 * (s * p0) - 5.0 * (s * p1) + 4.0 * (s * p2) - s * p3) * tt
            == s * ((2.0 * p0 - 5.0 * p1 + 4.0 * p2 - p3) * tt);
        assert (-(s * p0) + 3.0 * (s * p1) - 3.0 * (s * p2) + s * p3) * ttt
            == s * ((-p0 + 3.0 * p1 - 3.0 * p2 + p3) * ttt); }
      s * (0.5 * (2.0 * p1 + (p2 - p0) * t + (2.0 * p0 - 5.0 * p1 + 4.0 * p2 - p3) * tt
                  + (-p0 + 3.0 * p1 - 3.0 * p2 + p3) * ttt));
    }
  }

  function ScaleX(v: Vec3, s: real): Vec3 { Vec3(s * v.x, v.y, v.z) }

  lemma PositionXScales(t: real, s: real, p0: Vec3, p1: Vec3, p2: Vec3, p3: Vec3,
                         q0: Vec3, q1: Vec3, q2: Vec3, q3: Vec3)
    requires q0.x == s * p0.x && q1.x == s * p1.x && q2.x == s * p2.x && q3.x == s * p3.x
    ensures Position(t, q0, q1, q2, q3).x == s * Position(t, p0, p1, p2, p3).x
  {
    CubicScales(t, s, p0.x, p1.x, p2.x, p3.x, q0.x, q1.x, q2.x, q3.x);
    var a, b := Cubic(t, q0.x, q1.x, q2.x, q3.x), Cubic(t, p0.x, p1.x, p2.x, p3.x);
    assert Position(t, q0, q1, q2, q3).x == a && Position(t, p0, p1, p2, p3).x == b;
  }

  /** The formula is linear in each coordinate: scaling the x of all four
      control points by s scales the x of the result by s and leaves y and z. */
  lemma PositionScalesX(t: real, s: real, p0: Vec3, p1: Vec3, p2: Vec3, p3: Vec3)
    ensures Position(t, ScaleX(p0, s), ScaleX(p1, s), ScaleX(p2, s), ScaleX(p3, s))
         == ScaleX(Position(t, p0, p1, p2, p3), s)
  {
    PositionXScales(t, s, p0, p1, p2, p3, ScaleX(p0, s), ScaleX(p1, s), ScaleX(p2, s), ScaleX(p3, s));
  }

  /** The parameter of sample i: i * (1 / (count - 1)). */
  function Param(i: int, count: int): real {
    (i as real) * Div(1.0, (count - 1) as real)
  }

  /** The samples GetCatmullRomPositions returns, as a value. */
  function Samples(count: int, p0: Vec3, p1: Vec3, p2: Vec3, p3: Vec3): (r: seq<Vec3>)
    ensures |r| == Max(count, 0)
  {
    seq(Max(count, 0), i => Position(Param(i, count), p0, p1, p2, p3))
  }

  /** GetCatmullRomPositions: count points, sample i at parameter
      i / (count - 1). */
  method GetCatmullRomPositions(count: int, p0: Vec3, p1: Vec3, p2: Vec3, p3: Vec3)
    returns (points: seq<Vec3>)
    ensures |points| == Max(count, 0)
    ensures forall i :: 0 <= i < |points| ==> points[i] == Position(Param(i, count), p0, p1, p2, p3)
    ensures points == Samples(count, p0, p1, p2, p3)
  {
    points := [];
    var inv := Div(1.0, (count - 1) as real);
    var i := 0;
    while i < count
      invariant 0 <= i <= Max(count, 0)
      invariant |points| == i
      invariant forall k :: 0 <= k < i ==> points[k] == Position(Param(k, count), p0, p1, p2, p3)
    {
      assert (i as real) * inv == Param(i, count);
      var p := Position((i as real) * inv, p0, p1, p2, p3);
      points := points + [p];
      i := i + 1;
    }
  }

  /** For count >= 2 the first sample is p1 and the last is p2. */
  lemma SamplesEndpoints(count: int, p0: Vec3, p1: Vec3, p2: Vec3, p3: Vec3)
    requires count >= 2
    ensures Samples(count, p0, p1, p2, p3)[0] == p1
    ensures Samples(count, p0, p1, p2, p3)[count - 1] == p2
  {
    var s := Samples(count, p0, p1, p2, p3);
    assert Param(0, count) == 0.0;
    assert Param(count - 1, count) == 1.0 by {
      assert ((count - 1) as real) * (1.0 / ((count - 1) as real)) == 1.0;
    }
    PositionEndpoints(p0, p1, p2, p3);
  }

  /** The parameter of sample i as the program computes it,
      i * (1f / (count - 1)), in IEEE 754 arithmetic. */
  function ParamAsWritten(i: int, count: int): Float {
    FloatScale(i as real, FloatDiv(1.0, (count - 1) as real))
  }

  /** For every count but 1 the program's parameter is finite and equals
      Param. */
  lemma ParamAsWrittenFinite(i: int, count: int)
    requires count != 1
    ensures ParamAsWritten(i, count) == Finite(Param(i, count))
  {
  }

  /** The count of 1 as written: 1f / 0 is an infinity and 0 times it is
      NaN, so the one sample is taken at a NaN parameter and every
      coordinate of the point returned is NaN. */
  lemma SingleSampleAtNaN()
    ensures ParamAsWritten(0, 1) == NaN
  {
  }

  /** The parameters as intended: each of the count samples lies in [0,1]
      along the segment from p1 to p2, a single sample at its start. */
  lemma ParamInUnit(i: int, count: int)
    requires 0 <= i < count
    ensures 0.0 <= Param(i, count) <= 1.0
    ensures count == 1 ==> Param(i, count) == 0.0
  {
    if count > 1 {
      var x, d := i as real, (count - 1) as real;
      var q := 1.0 / d;
      assert d * q == 1.0;
      assert x * q <= d * q by {
        assert (d - x) * q >= 0.0;
      }
      assert Param(i, count) == x * q;
    }
  }

  /** A single sample is the segment's start p1. */
  lemma SingleSample(p0: Vec3, p1: Vec3, p2: Vec3, p3: Vec3)
    ensures Samples(1, p0, p1, p2, p3) == [p1]
  {
    ParamInUnit(0, 1);
    PositionEndpoints(p0, p1, p2, p3);
  }

  /** Sampling four equal points yields that point everywhere. */
  lemma SamplesConstant(count: int, p: Vec3)
    ensures forall i :: 0 <= i < Max(count, 0) ==> Samples(count, p, p, p, p)[i] == p
  {
    forall i | 0 <= i < Max(count, 0) ensures Samples(count, p, p, p, p)[i] == p {
      PositionConstant(Param(i, count), p);
    }
  }

  function ScaleXSeq(s: seq<Vec3>, f: real): (r: seq<Vec3>)
    ensures |r| == |s|
  {
    seq(|s|, i requires 0 <= i < |s| => ScaleX(s[i], f))
  }

  /** Scaling x of the control points scales x of every sample. */
  lemma SamplesScaleX(count: int, s: real, p0: Vec3, p1: Vec3, p2: Vec3, p3: Vec3)
    ensures Samples(count, ScaleX(p0, s), ScaleX(p1, s), ScaleX(p2, s), ScaleX(p3, s))
         == ScaleXSeq(Samples(count, p0, p1, p2, p3), s)
  {
    var a := Samples(count, ScaleX(p0, s), ScaleX(p1, s), ScaleX(p2, s), ScaleX(p3, s));
    var b := ScaleXSeq(Samples(count, p0, p1, p2, p3), s);
    forall i | 0 <= i < |a| ensures a[i] == b[i] {
      PositionScalesX(Param(i, count), s, p0, p1, p2, p3);
    }
  }
}
