/** The swept-collision routine of the cuboid shape: how far a moving box may
    travel along the axis an `AxisCycle` selects before it touches the
    cuboid. */
module Sweep {
  import opened Geometry
  import opened SimpleCube

  /** The axis a sweep with `cycle` moves along. */
  function SweptAxis(cycle: AxisCycle): Axis
  {
    match cycle
    case NoCycle => X
    case Forward => Z
    case Backward => Y
  }

  /** The two axes whose cross-section the side test checks, in the order the
      source tests them. */
  function SideAxes(cycle: AxisCycle): (Axis, Axis)
  {
    match cycle
    case NoCycle => (Y, Z)
    case Forward => (X, Y)
    case Backward => (Z, X)
  }

  /** The swept axis is never side-tested, and the two side axes differ, so
      the three axes of a cycle are a permutation of X, Y and Z: the cycles
      map (X, Y, Z) to (X, Y, Z), (Z, X, Y) and (Y, Z, X). */
  lemma CycleAxesArePermutation(cycle: AxisCycle, axis: Axis)
    ensures SweptAxis(cycle) != SideAxes(cycle).0
    ensures SweptAxis(cycle) != SideAxes(cycle).1
    ensures SideAxes(cycle).0 != SideAxes(cycle).1
    ensures axis == SweptAxis(cycle) || axis == SideAxes(cycle).0 || axis == SideAxes(cycle).1
  {
  }

  /** The signed distance from the moving box's leading face to the facing
      face of the cuboid: `a1 - b2` when moving up the axis, `a2 - b1` when
      moving down. */
  function Gap(a1: real, a2: real, b1: real, b2: real, maxDist: real): real
  {
    if maxDist > 0.0 then a1 - b2 else a2 - b1
  }

  /** The one-dimensional `calculatePenetration(a1, a2, b1, b2, maxDist)`:
      (a1, a2) is the cuboid's extent and (b1, b2) the moving box's extent on
      the swept axis. The motion is shortened only when the cuboid's facing
      face lies within reach (between -epsilon behind the box's leading face
      and `maxDist` ahead of it), and then the box stops touching that face
      within epsilon. */
  function Penetration1D(a1: real, a2: real, b1: real, b2: real, maxDist: real): (r: real)
    // never more than the requested motion and never against it
    ensures maxDist > 0.0 ==> 0.0 <= r <= maxDist
    ensures maxDist <= 0.0 ==> maxDist <= r <= 0.0
    // the result is the motion, zero, or the gap, and a returned gap is at
    // least epsilon long
    ensures r == maxDist || r == 0.0 || r == Gap(a1, a2, b1, b2, maxDist)
    ensures r != maxDist && r != 0.0 ==> Epsilon <= Abs(r)
    // moving up the axis: leading face b2, facing face a1
    ensures maxDist > 0.0 && !(-Epsilon <= a1 - b2 <= maxDist) ==> r == maxDist
    ensures maxDist > 0.0 && -Epsilon <= a1 - b2 <= maxDist ==> a1 - Epsilon < b2 + r <= a1 + Epsilon
    // moving down the axis: leading face b1, facing face a2
    ensures maxDist <= 0.0 && !(maxDist <= a2 - b1 <= Epsilon) ==> r == maxDist
    ensures maxDist <= 0.0 && maxDist <= a2 - b1 <= Epsilon ==> a2 - Epsilon <= b1 + r < a2 + Epsilon
  {
    if maxDist > 0.0 then
      var penetration := a1 - b2;
      if (penetration < -Epsilon) || (maxDist < penetration) then maxDist
      else if penetration < Epsilon then 0.0
      else penetration
    else
      var penetration := a2 - b1;
      if (penetration > Epsilon) || (maxDist > penetration) then maxDist
      else if penetration > -Epsilon then 0.0
      else penetration
  }

  /** `calculatePenetration(dir, box, maxDist)`: the one-dimensional routine on
      the axis the cycle sweeps. */
  function CalculatePenetration(c: Cube, cycle: AxisCycle, box: Box, maxDist: real): (r: real)
    ensures var a := SweptAxis(cycle);
            r == Penetration1D(GetMin(c, a), GetMax(c, a), box.Min(a), box.Max(a), maxDist)
  {
    match cycle
    case NoCycle => Penetration1D(c.x1, c.x2, box.minX, box.maxX, maxDist)
    case Forward => Penetration1D(c.z1, c.z2, box.minZ, box.maxZ, maxDist)
    case Backward => Penetration1D(c.y1, c.y2, box.minY, box.maxY, maxDist)
  }

  /** The box and the cuboid overlap on `axis` by more than epsilon at both
      ends. */
  predicate SideOverlap(c: Cube, box: Box, axis: Axis)
  {
    LessThan(GetMin(c, axis), box.Max(axis)) && LessThan(box.Min(axis), GetMax(c, axis))
  }

  /** The side test `intersects(dir, box)`: the moving box overlaps the
      cuboid's cross-section perpendicular to the swept axis. */
  function SideIntersects(c: Cube, cycle: AxisCycle, box: Box): (r: bool)
    ensures r <==> SideOverlap(c, box, SideAxes(cycle).0) && SideOverlap(c, box, SideAxes(cycle).1)
    ensures r ==> forall axis :: axis != SweptAxis(cycle) ==> GetMin(c, axis) < box.Max(axis) && box.Min(axis) < GetMax(c, axis)
  {
    match cycle
    case NoCycle =>
      LessThan(c.y1, box.maxY) && LessThan(box.minY, c.y2) && LessThan(c.z1, box.maxZ) && LessThan(box.minZ, c.z2)
    case Forward =>
      LessThan(c.x1, box.maxX) && LessThan(box.minX, c.x2) && LessThan(c.y1, box.maxY) && LessThan(box.minY, c.y2)
    case Backward =>
      LessThan(c.z1, box.maxZ) && LessThan(box.minZ, c.z2) && LessThan(c.x1, box.maxX) && LessThan(box.minX, c.x2)
  }

  /** The gap on the swept axis in the direction of motion. */
  function SweepGap(c: Cube, cycle: AxisCycle, box: Box, maxDist: real): real
  {
    var a := SweptAxis(cycle);
    Gap(GetMin(c, a), GetMax(c, a), box.Min(a), box.Max(a), maxDist)
  }

  /** `calculateMaxDistance(cycleDirection, box, maxDist)`: the part of the
      requested motion the box may make before touching the cuboid. */
  function CalculateMaxDistance(c: Cube, cycle: AxisCycle, box: Box, maxDist: real): (r: real)
    // negligible motion is fully blocked
    ensures Abs(maxDist) < Epsilon ==> r == 0.0
    // the motion is changed only by the penetration of a box that overlaps
    // the cuboid's cross-section
    ensures r != maxDist ==>
      Abs(maxDist) < Epsilon ||
      (CalculatePenetration(c, cycle, box, maxDist) != maxDist && SideIntersects(c, cycle, box))
    ensures Abs(maxDist) >= Epsilon && SideIntersects(c, cycle, box) ==> r == CalculatePenetration(c, cycle, box, maxDist)
    ensures Abs(maxDist) >= Epsilon && !SideIntersects(c, cycle, box) ==> r == maxDist
    // same sign and no larger magnitude than the request
    ensures maxDist > 0.0 ==> 0.0 <= r <= maxDist
    ensures maxDist <= 0.0 ==> maxDist <= r <= 0.0
    ensures r == maxDist || r == 0.0 || r == SweepGap(c, cycle, box, maxDist)
  {
    if Abs(maxDist) < Epsilon then
      0.0
    else
      var penetration := CalculatePenetration(c, cycle, box, maxDist);
      if (penetration != maxDist) && SideIntersects(c, cycle, box) then penetration
      else maxDist
  }

  /** No tunnelling: a box that overlaps the cuboid's cross-section and has
      the cuboid's facing face within reach ends its motion touching that face
      (within epsilon); it is never carried through the cuboid. */
  lemma MaxDistanceStopsAtFace(c: Cube, cycle: AxisCycle, box: Box, maxDist: real)
    requires Abs(maxDist) >= Epsilon
    requires SideIntersects(c, cycle, box)
    ensures var a := SweptAxis(cycle);
            var r := CalculateMaxDistance(c, cycle, box, maxDist);
            && (maxDist > 0.0 && -Epsilon <= GetMin(c, a) - box.Max(a) <= maxDist ==>
                  GetMin(c, a) - Epsilon < box.Max(a) + r <= GetMin(c, a) + Epsilon)
            && (maxDist < 0.0 && maxDist <= GetMax(c, a) - box.Min(a) <= Epsilon ==>
                  GetMax(c, a) - Epsilon <= box.Min(a) + r < GetMax(c, a) + Epsilon)
  {
  }

  /** Worked examples on the unit cube, moving along X: a box in front of the
      cube stops at its face, a box beside it passes, a box already past it
      moves freely, a box moving in -X stops at the cube's maximum-X face, and a
      negligible motion is blocked. */
  lemma SweepExamples()
    ensures var unit := Cube(0.0, 0.0, 0.0, 1.0, 1.0, 1.0);
            && CalculateMaxDistance(unit, NoCycle, Box(-1.0, 0.25, 0.25, -0.5, 0.75, 0.75), 2.0) == 0.5
            && CalculateMaxDistance(unit, NoCycle, Box(-1.0, 2.0, 2.0, -0.5, 3.0, 3.0), 2.0) == 2.0
            && CalculateMaxDistance(unit, NoCycle, Box(1.0, 0.5, 0.5, 2.0, 0.6, 0.6), 2.0) == 2.0
            && CalculateMaxDistance(unit, NoCycle, Box(1.5, 0.25, 0.25, 2.0, 0.75, 0.75), -1.0) == -0.5
            && CalculateMaxDistance(unit, NoCycle, Box(1.5, 0.25, 0.25, 2.0, 0.75, 0.75), 0.00000005) == 0.0
  {
  }
}
