/** The single-cuboid collision shape `VoxelShapeSimpleCube`: an immutable
    box given by its minimum corner (x1, y1, z1) and maximum corner
    (x2, y2, z2), with the shape queries that generic shape code asks of it.
    The swept-collision routine lives in module `Sweep`. */
module SimpleCube {
  import opened Geometry
  import opened Wrappers

  /** The six coordinates of the cuboid. The voxel mask the source passes to
      its base class is not part of the model. */
  datatype Cube = Cube(x1: real, y1: real, z1: real, x2: real, y2: real, z2: real)

  /** The fault `getPointPosition` signals for an index other than 0 or 1. */
  datatype Fault = IndexOutOfBounds

  /** `getMin(axis)`: the lower bound of the cuboid on `axis`. */
  function GetMin(c: Cube, axis: Axis): real
  {
    Choose(axis, c.x1, c.y1, c.z1)
  }

  /** `getMax(axis)`: the upper bound of the cuboid on `axis`. */
  function GetMax(c: Cube, axis: Axis): real
  {
    Choose(axis, c.x2, c.y2, c.z2)
  }

  /** The size of the cuboid along `axis`. */
  function Extent(c: Cube, axis: Axis): real
  {
    GetMax(c, axis) - GetMin(c, axis)
  }

  /** `isEmpty()`: the cuboid is empty when some axis is shorter than epsilon. */
  function IsEmpty(c: Cube): (r: bool)
    ensures r <==> exists axis :: Extent(c, axis) < Epsilon
    ensures !r ==> forall axis :: GetMin(c, axis) + Epsilon <= GetMax(c, axis)
  {
    assert Extent(c, X) == c.x2 - c.x1 && Extent(c, Y) == c.y2 - c.y1 && Extent(c, Z) == c.z2 - c.z1;
    (c.x1 + Epsilon > c.x2) || (c.y1 + Epsilon > c.y2) || (c.z1 + Epsilon > c.z2)
  }

  /** `offset(x, y, z)`: the same cuboid translated by (dx, dy, dz). */
  function Offset(c: Cube, dx: real, dy: real, dz: real): (r: Cube)
    ensures forall axis :: GetMin(r, axis) - GetMin(c, axis) == Choose(axis, dx, dy, dz)
    ensures forall axis :: Extent(r, axis) == Extent(c, axis)
    ensures IsEmpty(r) == IsEmpty(c)
  {
    var r := Cube(c.x1 + dx, c.y1 + dy, c.z1 + dz, c.x2 + dx, c.y2 + dy, c.z2 + dz);
    assert forall axis :: Extent(r, axis) == Extent(c, axis);
    r
  }

  /** Translating back by the opposite vector gives the original cuboid, and
      two translations compose into one (exact over the reals). */
  lemma OffsetRoundTrip(c: Cube, dx: real, dy: real, dz: real, ex: real, ey: real, ez: real)
    ensures Offset(Offset(c, dx, dy, dz), -dx, -dy, -dz) == c
    ensures Offset(Offset(c, dx, dy, dz), ex, ey, ez) == Offset(c, dx + ex, dy + ey, dz + ez)
  {
  }

  /** `getBoundingBox()`: the box with the cuboid's two corners. */
  function BoundingBox(c: Cube): (r: Box)
    ensures forall axis :: r.Min(axis) == GetMin(c, axis) && r.Max(axis) == GetMax(c, axis)
  {
    Box(c.x1, c.y1, c.z1, c.x2, c.y2, c.z2)
  }

  /** `getPointPosition(axis, index)`: vertex `index` of the cuboid on `axis`;
      a cuboid has exactly two vertices per axis, so any other index fails. */
  function GetPointPosition(c: Cube, axis: Axis, index: int): (r: Result<real, Fault>)
    ensures r.Success? <==> index == 0 || index == 1
    ensures r.Failure? ==> r.error == IndexOutOfBounds
    ensures index == 0 ==> r.Success? && r.value == GetMin(c, axis)
    ensures index == 1 ==> r.Success? && r.value == GetMax(c, axis)
  {
    if index < 0 || index > 1 then
      Failure(IndexOutOfBounds)
    else
      match axis
      case X => Success(if index == 0 then c.x1 else c.x2)
      case Y => Success(if index == 0 then c.y1 else c.y2)
      case Z => Success(if index == 0 then c.z1 else c.z2)
  }

  /** `getPointPositions(axis)`: the vertex list of the cuboid on `axis`. */
  function GetPointPositions(c: Cube, axis: Axis): (r: seq<real>)
    ensures |r| == 2
    ensures r[0] == GetMin(c, axis) && r[1] == GetMax(c, axis)
    ensures !IsEmpty(c) ==> r[0] < r[1]
  {
    match axis
    case X => [c.x1, c.x2]
    case Y => [c.y1, c.y2]
    case Z => [c.z1, c.z2]
  }

  /** The indexed and the list form of the vertices agree: index `i` is valid
      exactly when it indexes the vertex list, and then both give the same
      coordinate. */
  lemma PointPositionsAgree(c: Cube, axis: Axis, i: int)
    ensures GetPointPosition(c, axis, i).Success? <==> 0 <= i < |GetPointPositions(c, axis)|
    ensures 0 <= i < 2 ==> GetPointPosition(c, axis, i).value == GetPointPositions(c, axis)[i]
  {
  }

  /** What a caller may rely on from `getMin` and `getMax`: they are the
      first and the second vertex on the axis, a non-empty cuboid lies at
      least epsilon above `getMin` and below `getMax`, and every contained
      point lies between them. */
  lemma MinMaxBounds(c: Cube, axis: Axis, x: real, y: real, z: real)
    ensures GetPointPosition(c, axis, 0) == Success(GetMin(c, axis))
    ensures GetPointPosition(c, axis, 1) == Success(GetMax(c, axis))
    ensures !IsEmpty(c) ==> GetMin(c, axis) + Epsilon <= GetMax(c, axis)
    ensures Contains(c, x, y, z) ==> GetMin(c, axis) <= Choose(axis, x, y, z) < GetMax(c, axis)
  {
  }

  /** `contains(x, y, z)`: membership in the half-open box [min, max) on every
      axis. */
  function Contains(c: Cube, x: real, y: real, z: real): (r: bool)
    ensures r <==> forall axis :: GetMin(c, axis) <= Choose(axis, x, y, z) < GetMax(c, axis)
  {
    assert GetMin(c, X) == c.x1 && GetMin(c, Y) == c.y1 && GetMin(c, Z) == c.z1;
    (x >= c.x1) && (x < c.x2) && (y >= c.y1) && (y < c.y2) && (z >= c.z1) && (z < c.z2)
  }

  /** A point on a maximum face is never inside the cuboid. */
  lemma ContainsExcludesMaxFace(c: Cube, axis: Axis, x: real, y: real, z: real)
    requires Choose(axis, x, y, z) == GetMax(c, axis)
    ensures !Contains(c, x, y, z)
  {
  }

  /** `getCoordIndex(axis, coord)`: -1 strictly below the cuboid, 1 at or
      above its maximum, 0 inside. */
  function GetCoordIndex(c: Cube, axis: Axis, coord: real): (r: int)
    ensures -1 <= r <= 1
    ensures r == -1 <==> coord < GetMin(c, axis)
    ensures r == 0 <==> GetMin(c, axis) <= coord < GetMax(c, axis)
    ensures r == 1 <==> GetMin(c, axis) <= coord && GetMax(c, axis) <= coord
  {
    if coord < GetMin(c, axis) then -1
    else if coord >= GetMax(c, axis) then 1
    else 0
  }

  /** Containment is the same as the coordinate index being 0 on all three
      axes. */
  lemma ContainsIffCoordIndexZero(c: Cube, x: real, y: real, z: real)
    ensures Contains(c, x, y, z) <==>
      GetCoordIndex(c, X, x) == 0 && GetCoordIndex(c, Y, y) == 0 && GetCoordIndex(c, Z, z) == 0
  {
  }

  /** `intersects(box, x, y, z)`: the cuboid translated by (dx, dy, dz)
      overlaps `box` as open intervals on every axis. */
  function Intersects(c: Cube, box: Box, dx: real, dy: real, dz: real): (r: bool)
    ensures r <==> forall axis :: box.Min(axis) < GetMax(c, axis) + Choose(axis, dx, dy, dz)
                                  && box.Max(axis) > GetMin(c, axis) + Choose(axis, dx, dy, dz)
  {
    assert box.Min(X) == box.minX && box.Min(Y) == box.minY && box.Min(Z) == box.minZ;
    (box.minX < (c.x2 + dx)) && (box.maxX > (c.x1 + dx)) &&
    (box.minY < (c.y2 + dy)) && (box.maxY > (c.y1 + dy)) &&
    (box.minZ < (c.z2 + dz)) && (box.maxZ > (c.z1 + dz))
  }

  /** The broad-phase test with a translation is the plain test on the
      translated cuboid. */
  lemma IntersectsIsOffsetOverlap(c: Cube, box: Box, dx: real, dy: real, dz: real)
    ensures Intersects(c, box, dx, dy, dz) == Intersects(Offset(c, dx, dy, dz), box, 0.0, 0.0, 0.0)
  {
  }
}
