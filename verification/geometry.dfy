/** Shared vocabulary of the collision code: the three world axes, the axis
    cycle used to reuse one sweep routine for every axis, query boxes, and the
    epsilon-tolerant comparison. */
module Geometry {

  /** The tolerance `EPSILON` (1.0E-7) of the cuboid shape. */
  const Epsilon: real := 0.0000001

  /** A world axis. */
  datatype Axis = X | Y | Z

  /** Minecraft's `AxisCycleDirection`: which world axis a sweep treats as its
      primary axis. `NoCycle` is the source's `NONE`. */
  datatype AxisCycle = NoCycle | Forward | Backward

  /** `axis.choose(x, y, z)`: the component of a coordinate triple on `axis`. */
  function Choose(axis: Axis, x: real, y: real, z: real): real
  {
    match axis
    case X => x
    case Y => y
    case Z => z
  }

  /** The axis-aligned `Box` of the world, as its two corners. */
  datatype Box = Box(minX: real, minY: real, minZ: real, maxX: real, maxY: real, maxZ: real)
  {
    /** The lower bound of the box on `axis`. */
    function Min(axis: Axis): real
    {
      Choose(axis, minX, minY, minZ)
    }

    /** The upper bound of the box on `axis`. */
    function Max(axis: Axis): real
    {
      Choose(axis, maxX, maxY, maxZ)
    }
  }

  /** The asymmetric tolerant comparison `lessThan(a, b)`: only the left
      operand is inflated by epsilon. */
  function LessThan(a: real, b: real): (r: bool)
    ensures r <==> b - a > Epsilon
    ensures r ==> a < b
  {
    a + Epsilon < b
  }

  /** `Math.abs` on a double: the magnitude of `v`. */
  function Abs(v: real): (r: real)
    ensures r >= 0.0
    ensures r == v || r == -v
    ensures r >= v && r >= -v
  {
    if v < 0.0 then -v else v
  }
}
