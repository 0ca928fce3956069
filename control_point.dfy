/** FlowerControlPoint: one point of a blade's half outline, as a fraction
    of the blade's width and height. */
module ControlPoints {
  import opened UnityMath

  /** The serialized fields themselves may hold any value (the editor
      writes them directly); only the constructor clamps. */
  datatype ControlPoint = ControlPoint(width: real, height: real)

  /** The constructor: each coordinate clamped to [0,1] on its own. */
  function MakeControlPoint(width: real, height: real): (c: ControlPoint)
    ensures 0.0 <= c.width <= 1.0 && 0.0 <= c.height <= 1.0
    ensures 0.0 <= width <= 1.0 ==> c.width == width
    ensures 0.0 <= height <= 1.0 ==> c.height == height
    ensures width < 0.0 ==> c.width == 0.0
    ensures width > 1.0 ==> c.width == 1.0
    ensures height < 0.0 ==> c.height == 0.0
    ensures height > 1.0 ==> c.height == 1.0
  {
    ControlPoint(Clamp01(width), Clamp01(height))
  }
}
