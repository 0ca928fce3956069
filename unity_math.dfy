/** The slice of Unity's math library the flower generator relies on:
    vectors, quaternions, colours, the Mathf helpers, and the functions this
    model keeps uninterpreted (square root, cosine, sine, Perlin noise and the
    quaternion constructions), which are passed around as an `Env` value. */
module UnityMath {

  datatype Vec2 = Vec2(x: real, y: real)
  datatype Vec3 = Vec3(x: real, y: real, z: real)
  /** A quaternion; its algebra is left to the `Env` functions. */
  datatype Quat = Quat(x: real, y: real, z: real, w: real)
  datatype Color = Color(r: real, g: real, b: real, a: real)
  /** The parts of a UnityEngine.Mesh the generator fills in. */
  datatype Mesh = Mesh(vertices: seq<Vec3>, uv: seq<Vec2>, triangles: seq<int>)

  type NonNegReal = r: real | r >= 0.0

  /** The functions whose real values the model does not interpret.
      Mathf.Sqrt is only ever applied to sums of squares here, so its
      result is taken to be non-negative. */
  datatype Env = Env(
    sqrt: real -> NonNegReal,
    cos: real -> real,
    sin: real -> real,
    /** Mathf.PerlinNoise(x, y) */
    perlinNoise: (real, real) -> real,
    /** Quaternion.LookRotation(forward), with the default up vector */
    lookRotation: Vec3 -> Quat,
    /** Quaternion.LookRotation(forward, upwards) */
    lookRotationUp: (Vec3, Vec3) -> Quat,
    /** Quaternion.AngleAxis(degrees, axis) */
    angleAxis: (real, Vec3) -> Quat,
    /** q1 * q2 */
    compose: (Quat, Quat) -> Quat,
    /** q * v */
    rotate: (Quat, Vec3) -> Vec3)

  /** What else is known of Mathf.Sqrt: a vector's length is zero only
      when the vector is. */
  ghost predicate ValidEnv(env: Env) {
    forall v: Vec2 :: Magnitude2(env, v) == 0.0 ==> v == Vec2(0.0, 0.0)
  }

  const Zero3: Vec3 := Vec3(0.0, 0.0, 0.0)
  const Right: Vec3 := Vec3(1.0, 0.0, 0.0)
  const Up: Vec3 := Vec3(0.0, 1.0, 0.0)
  const Down: Vec3 := Vec3(0.0, -1.0, 0.0)
  /** Mathf.PI and Mathf.Deg2Rad as single-precision constants */
  const PI: real := 3.14159274
  const Deg2Rad: real := 0.0174532924

  function Add(a: Vec3, b: Vec3): Vec3 { Vec3(a.x + b.x, a.y + b.y, a.z + b.z) }
  function Sub(a: Vec3, b: Vec3): Vec3 { Vec3(a.x - b.x, a.y - b.y, a.z - b.z) }
  function Scale(v: Vec3, s: real): Vec3 { Vec3(v.x * s, v.y * s, v.z * s) }
  function Dot(a: Vec3, b: Vec3): real { a.x * b.x + a.y * b.y + a.z * b.z }

  /** The implicit Vector3-to-Vector2 conversion drops z ... */
  function Flat(v: Vec3): Vec2 { Vec2(v.x, v.y) }
  /** ... and the Vector2-to-Vector3 conversion sets z to 0. */
  function Lift(v: Vec2): Vec3 { Vec3(v.x, v.y, 0.0) }

  function Magnitude(env: Env, v: Vec3): real { env.sqrt(v.x * v.x + v.y * v.y + v.z * v.z) }
  function Magnitude2(env: Env, v: Vec2): real { env.sqrt(v.x * v.x + v.y * v.y) }

  /** Vector3.normalized: the zero vector when the magnitude is at most 1e-5. */
  function Normalize(env: Env, v: Vec3): Vec3 {
    var m := Magnitude(env, v);
    if m > 0.00001 then Vec3(v.x / m, v.y / m, v.z / m) else Zero3
  }

  /** Division of single-precision values. Dividing by zero yields an
      infinity or NaN there, which a real cannot hold; the model yields 0. */
  function Div(a: real, b: real): real { if b == 0.0 then 0.0 else a / b }

  /** A single-precision result as IEEE 754 arithmetic defines it: a
      finite value, an infinity or NaN (rounding is not modelled). It
      states what a division by zero yields where Div yields 0. */
  datatype Float = Finite(value: real) | PosInf | NegInf | NaN

  /** a / b in IEEE 754 arithmetic, a zero b being a positive zero: finite
      unless b is zero, NaN exactly for 0 / 0, and Div wherever finite. */
  function FloatDiv(a: real, b: real): (r: Float)
    ensures b != 0.0 <==> r.Finite?
    ensures r.Finite? ==> r.value == Div(a, b)
    ensures r == NaN <==> a == 0.0 && b == 0.0
  {
    if b != 0.0 then Finite(a / b)
    else if a > 0.0 then PosInf
    else if a < 0.0 then NegInf
    else NaN
  }

  /** a * x in IEEE 754 arithmetic for a finite a: NaN stays NaN, and zero
      times an infinity is NaN. */
  function FloatScale(a: real, x: Float): (r: Float)
    ensures x.Finite? <==> r.Finite?
    ensures x.Finite? ==> r.value == a * x.value
    ensures r == NaN <==> x == NaN || (!x.Finite? && a == 0.0)
  {
    match x
    case Finite(v) => Finite(a * v)
    case NaN => NaN
    case PosInf => if a == 0.0 then NaN else if a > 0.0 then PosInf else NegInf
    case NegInf => if a == 0.0 then NaN else if a > 0.0 then NegInf else PosInf
  }

  function Max(a: int, b: int): int { if a < b then b else a }
  function MaxR(a: real, b: real): real { if a < b then b else a }
  function MinI(a: int, b: int): int { if a < b then a else b }

  /** Mathf.FloorToInt */
  function FloorToInt(v: real): int { v.Floor }

  /** Mathf.Clamp01 */
  function Clamp01(v: real): (r: real)
    ensures 0.0 <= r <= 1.0
    ensures 0.0 <= v <= 1.0 ==> r == v
    ensures v < 0.0 ==> r == 0.0
    ensures v > 1.0 ==> r == 1.0
  {
    if v < 0.0 then 0.0 else if v > 1.0 then 1.0 else v
  }

  /** Mathf.Lerp, which clamps its parameter to [0,1]. */
  function Lerp(a: real, b: real, t: real): real { a + (b - a) * Clamp01(t) }

  /** Two meshes are equal when their fields are; stated field by field it
      keeps the solver from unfolding the lists inside. */
  lemma MeshEq(a: Mesh, b: Mesh)
    requires a.vertices == b.vertices && a.uv == b.uv && a.triangles == b.triangles
    ensures a == b
  {
  }
}

/** The exceptions the core throws, as values. */
module Errors {
  datatype Error =
    | InsufficientControlPoints  // "control points size is not enough" / "control size is not enough"
    | IndexOutOfRange            // a list index the code does not guard

  datatype Result<+T> = Ok(value: T) | Err(error: Error)

  /** A value that may be absent, such as a stem's tip before it is built. */
  datatype Option<T> = None | Some(value: T)
}
