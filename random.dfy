/** RandomUtil: the seeded generator and the arithmetic around its draws.
    System.Random's own algorithm is not modelled: the generator made from
    a seed is the stream of values NextDouble returns one after another,
    taken from a given function of the seed. */
module Rand {
  import opened UnityMath

  /** A stream of draws: draw k is the k-th value NextDouble returns. */
  type Stream = nat -> real

  /** NextDouble's promise: every draw lies in [0,1). */
  ghost predicate UnitStream(s: Stream) {
    forall k: nat :: 0.0 <= s(k) < 1.0
  }

  lemma DrawInUnit(s: Stream, k: nat)
    requires UnitStream(s)
    ensures 0.0 <= s(k) < 1.0
  {
  }

  // ---------------------------------------------------------------------
  // The arithmetic of each sampler, on the draws it consumes

  /** SampleRange(float a, float b): Mathf.Lerp(a, b, t). */
  function RangeReal(a: real, b: real, t: real): real {
    Lerp(a, b, t)
  }

  /** SampleRange(int a, int b): Mathf.FloorToInt(Mathf.Lerp(a, b, t)). */
  function RangeInt(a: int, b: int, t: real): int {
    FloorToInt(Lerp(a as real, b as real, t))
  }

  /** One coordinate of SampleUnitCircle and SampleUnitSphere: (t - 0.5) * 2. */
  function Centered(t: real): real {
    (t - 0.5) * 2.0
  }

  /** SampleUnitCircle on the draws t0, t1 in that order. */
  function UnitCircle(t0: real, t1: real): Vec2 {
    Vec2(Centered(t0), Centered(t1))
  }

  /** SampleUnitSphere on the draws t0, t1, t2 in that order. */
  function UnitSphere(t0: real, t1: real, t2: real): Vec3 {
    Vec3(Centered(t0), Centered(t1), Centered(t2))
  }

  /** A draw in [0,1) puts a float range's value between its ends, at a
      only for t = 0, and never at b unless a = b. */
  lemma RangeRealBetween(a: real, b: real, t: real)
    requires 0.0 <= t < 1.0
    ensures a <= b ==> a <= RangeReal(a, b, t) <= b
    ensures b <= a ==> b <= RangeReal(a, b, t) <= a
    ensures a != b ==> RangeReal(a, b, t) != b
    ensures t == 0.0 ==> RangeReal(a, b, t) == a
  {
    var c, d := Clamp01(t), b - a;
    ScaledBelow(d, c);
    assert RangeReal(a, b, t) == a + d * c;
  }

  /** d * t lies between 0 and d, is d only for d = 0, and is 0 for t = 0. */
  lemma ScaledBelow(d: real, t: real)
    requires 0.0 <= t < 1.0
    ensures d >= 0.0 ==> 0.0 <= d * t <= d
    ensures d <= 0.0 ==> d <= d * t <= 0.0
    ensures d != 0.0 ==> d * t != d
    ensures t == 0.0 ==> d * t == 0.0
  {
    if d > 0.0 {
      assert d * t < d * 1.0;
    } else if d < 0.0 {
      assert d * t > d * 1.0;
    }
  }

  /** A draw in [0,1) puts an int range's value in [a, b], and below b
      whenever a < b. */
  lemma RangeIntBetween(a: int, b: int, t: real)
    requires a <= b && 0.0 <= t < 1.0
    ensures a <= RangeInt(a, b, t) <= b
    ensures a < b ==> RangeInt(a, b, t) < b
  {
    RangeRealBetween(a as real, b as real, t);
  }

  /** Each coordinate of the unit circle and sphere samplers lies in [-1,1). */
  lemma CenteredBetween(t: real)
    requires 0.0 <= t < 1.0
    ensures -1.0 <= Centered(t) < 1.0
  {
  }

  /** So the circle sampler's point lies in the square [-1,1) x [-1,1), and
      the sphere sampler's in the cube. */
  lemma UnitCircleBounds(s: Stream, k: nat)
    requires UnitStream(s)
    ensures var v := UnitCircle(s(k), s(k + 1));
            -1.0 <= v.x < 1.0 && -1.0 <= v.y < 1.0
  {
    DrawInUnit(s, k);
    DrawInUnit(s, k + 1);
  }

  lemma UnitSphereBounds(s: Stream, k: nat)
    requires UnitStream(s)
    ensures var v := UnitSphere(s(k), s(k + 1), s(k + 2));
            -1.0 <= v.x < 1.0 && -1.0 <= v.y < 1.0 && -1.0 <= v.z < 1.0
  {
    DrawInUnit(s, k);
    DrawInUnit(s, k + 1);
    DrawInUnit(s, k + 2);
  }

  // ---------------------------------------------------------------------
  // The generator

  class RandomUtil {
    /** The stream of the seed the generator was made with. */
    const stream: Stream
    /** How many draws have been taken: the hidden state of System.Random. */
    var position: nat

    /** new RandomUtil(seed): the stream `seeded` assigns to the seed, from
        its start. The same seed therefore yields the same draws. */
    constructor (seed: int, seeded: int -> Stream)
      ensures stream == seeded(seed) && position == 0
    {
      stream := seeded(seed);
      position := 0;
    }

    /** Sample01: the next draw; exactly one draw is consumed. */
    method Sample01() returns (t: real)
      modifies this
      ensures t == stream(old(position)) && position == old(position) + 1
    {
      t := stream(position);
      position := position + 1;
    }

    method SampleRangeInt(a: int, b: int) returns (r: int)
      modifies this
      ensures r == RangeInt(a, b, stream(old(position))) && position == old(position) + 1
    {
      var t := Sample01();
      r := FloorToInt(Lerp(a as real, b as real, t));
    }

    method SampleRange(a: real, b: real) returns (r: real)
      modifies this
      ensures r == RangeReal(a, b, stream(old(position))) && position == old(position) + 1
    {
      var t := Sample01();
      r := Lerp(a, b, t);
    }

    /** x from the first draw, y from the second. */
    method SampleUnitCircle() returns (v: Vec2)
      modifies this
      ensures v == UnitCircle(stream(old(position)), stream(old(position) + 1))
      ensures position == old(position) + 2
    {
      var tx := Sample01();
      var x := (tx - 0.5) * 2.0;
      var ty := Sample01();
      var y := (ty - 0.5) * 2.0;
      v := Vec2(x, y);
    }

    /** x, y and z from three draws in that order. */
    method SampleUnitSphere() returns (v: Vec3)
      modifies this
      ensures v == UnitSphere(stream(old(position)), stream(old(position) + 1), stream(old(position) + 2))
      ensures position == old(position) + 3
    {
      var tx := Sample01();
      var x := (tx - 0.5) * 2.0;
      var ty := Sample01();
      var y := (ty - 0.5) * 2.0;
      var tz := Sample01();
      var z := (tz - 0.5) * 2.0;
      v := Vec3(x, y, z);
    }
  }
}
