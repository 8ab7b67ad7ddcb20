# Lithium's single-cuboid collision shape and entity region query, in Dafny

This project models two pieces of the Lithium game-engine optimisation mod.

1. **`VoxelShapeSimpleCube`**: the collision shape made of a single axis-aligned cuboid. It has these parts:
   - the six corner coordinates;
   - the queries generic shape code asks of every shape (`getMin`/`getMax`, `getPointPosition(s)`, `contains`, `isEmpty`, `getCoordIndex`, `offset`, the broad-phase `intersects`);
   - the swept-collision routine `calculateMaxDistance`. This routine picks the swept axis from an axis cycle. It runs a one-dimensional penetration formula with asymmetric epsilon placement, and keeps the shortened motion only when the moving box overlaps the cuboid's cross-section by more than epsilon.
2. **`WorldHelper`**: the two entity region queries `getEntitiesOfClassGroup` and `getEntitiesOfClass`, each with a world form and a per-chunk form. Each query does the following:
   - pads the query box by 2 blocks;
   - walks the horizontal chunk range `[floor((min-2)/16), ceil((max+2)/16))`, x-major then z;
   - skips chunks that are not loaded;
   - walks the clamped, inclusive vertical section range of each chunk;
   - keeps the entities that are not the excluded one, whose box intersects the query box, and that pass the optional predicate.

Modules:

| module | file | models |
|---|---|---|
| `Wrappers` | wrappers.dfy | `Option` (Java `null`) and `Result` (thrown exceptions) |
| `Geometry` | geometry.dfy | axes, axis cycles, `Box`, `EPSILON`, `lessThan` |
| `SimpleCube` | simple_cube.dfy | the cuboid and its shape queries |
| `Sweep` | sweep.dfy | `calculatePenetration` (both overloads), the side `intersects`, `calculateMaxDistance` |
| `JavaMath` | java_math.dfy | `MathHelper.floor`, `ceil` and `clamp` as Java computes them |
| `ChunkRange` | chunk_range.dfy | the chunk range and the section range of a query box |
| `EntityWalk` | entity_walk.dfy | reference definition of the query result and its membership theorems |
| `WorldHelper` | world_helper.dfy | the nested loops of the four query methods, proved equal to the reference walk |

Java `double` is modelled as `real`, with `EPSILON` equal to `0.0000001`. Every comparison and branch is kept exactly; only IEEE rounding is dropped.

The world store is abstract. It is a lookup from chunk coordinates to an optional loaded chunk. A loaded chunk is a non-empty array of sections. The group and class bucket lookups, entity bounding boxes and `Box.intersects` are function-valued fields of `WorldHelper.EntityWorld`. The Java `null` for "exclude nothing" is `None`, and so is the `null` for "no predicate".

Three details of the code that are easy to misread, which the model follows exactly:
- `isEmpty` uses a strict comparison (`x1 + EPSILON > x2`). So an axis whose extent is exactly epsilon is not empty.
- The horizontal chunk range has an exclusive upper bound (`ceil`, `<`). The vertical section range is inclusive (`floor`, `<=`). So the padded interval is `[min-2, max+2)` horizontally and `[minY-2, maxY+2]` vertically.
- The entity-box overlap test is `Box.intersects`, whose code is not part of this model. It is left uninterpreted rather than fixed as closed-interval overlap.

## Model

| member | source | states |
|---|---|---|
| Geometry.Abs | src/main/java/me/jellysquid/mods/lithium/common/shapes/VoxelShapeSimpleCube.java:46 | `Math.abs`: the non-negative one of `v` and `-v`, at least both of them |
| Geometry.LessThan | src/main/java/me/jellysquid/mods/lithium/common/shapes/VoxelShapeSimpleCube.java:188-190 | true exactly when `b` exceeds `a` by more than epsilon; it then implies `a < b` |
| SimpleCube.IsEmpty | src/main/java/me/jellysquid/mods/lithium/common/shapes/VoxelShapeSimpleCube.java:170-173 | empty exactly when some axis extent is below epsilon; a non-empty cuboid has `min + EPSILON <= max` on every axis |
| SimpleCube.Offset | src/main/java/me/jellysquid/mods/lithium/common/shapes/VoxelShapeSimpleCube.java:39-42 | each axis minimum moves by that axis's offset component; every axis extent and the emptiness are unchanged |
| SimpleCube.OffsetRoundTrip | src/main/java/me/jellysquid/mods/lithium/common/shapes/VoxelShapeSimpleCube.java:39-42 | offsetting by the opposite vector restores the cuboid; two offsets compose into one |
| SimpleCube.BoundingBox | src/main/java/me/jellysquid/mods/lithium/common/shapes/VoxelShapeSimpleCube.java:118-131 | the box's bounds on every axis are the cuboid's `getMin`/`getMax` |
| SimpleCube.GetPointPosition | src/main/java/me/jellysquid/mods/lithium/common/shapes/VoxelShapeSimpleCube.java:123-149 | succeeds exactly for index 0 or 1, with index 0 giving `getMin` and 1 giving `getMax`; any other index is the out-of-bounds fault |
| SimpleCube.GetPointPositions | src/main/java/me/jellysquid/mods/lithium/common/shapes/VoxelShapeSimpleCube.java:151-163 | a two-element list `[getMin, getMax]`, strictly increasing when the cuboid is not empty |
| SimpleCube.PointPositionsAgree | src/main/java/me/jellysquid/mods/lithium/common/shapes/VoxelShapeSimpleCube.java:133-163 | an index is valid for `getPointPosition` exactly when it indexes the `getPointPositions` list, and both give the same coordinate |
| SimpleCube.MinMaxBounds | src/main/java/me/jellysquid/mods/lithium/common/shapes/VoxelShapeSimpleCube.java:123-131 | `getMin` and `getMax` are the vertices at index 0 and 1; on a non-empty cuboid `getMin + EPSILON <= getMax`; every contained point lies in `[getMin, getMax)` |
| SimpleCube.Contains | src/main/java/me/jellysquid/mods/lithium/common/shapes/VoxelShapeSimpleCube.java:165-168 | membership in the half-open interval `[min, max)` on every axis |
| SimpleCube.ContainsExcludesMaxFace | src/main/java/me/jellysquid/mods/lithium/common/shapes/VoxelShapeSimpleCube.java:165-168 | a point on a maximum face is not contained |
| SimpleCube.GetCoordIndex | src/main/java/me/jellysquid/mods/lithium/common/shapes/VoxelShapeSimpleCube.java:175-186 | -1 exactly below the minimum; 0 exactly in `[min, max)`; 1 exactly when at or above both the minimum and the maximum |
| SimpleCube.ContainsIffCoordIndexZero | src/main/java/me/jellysquid/mods/lithium/common/shapes/VoxelShapeSimpleCube.java:165-186 | `contains(x, y, z)` holds exactly when the coordinate index is 0 on all three axes |
| SimpleCube.Intersects | src/main/java/me/jellysquid/mods/lithium/common/shapes/VoxelShapeSimpleCube.java:192-197 | open-interval overlap on every axis between the box and the translated cuboid |
| SimpleCube.IntersectsIsOffsetOverlap | src/main/java/me/jellysquid/mods/lithium/common/shapes/VoxelShapeSimpleCube.java:192-197 | the test with a translation equals the untranslated test on the offset cuboid |
| Sweep.CycleAxesArePermutation | src/main/java/me/jellysquid/mods/lithium/common/shapes/VoxelShapeSimpleCube.java:59-83 | NONE sweeps X and side-tests Y and Z; FORWARD sweeps Z and side-tests X and Y; BACKWARD sweeps Y and side-tests Z and X; the swept axis is never side-tested and the three axes are distinct |
| Sweep.Penetration1D | src/main/java/me/jellysquid/mods/lithium/common/shapes/VoxelShapeSimpleCube.java:85-111 | result in `[0, maxDist]` for positive motion and in `[maxDist, 0]` otherwise; it is the motion, 0 or the gap, and a returned gap is at least epsilon; the motion is kept when the facing face is out of reach; otherwise the box's leading face ends within epsilon of the cuboid's facing face |
| Sweep.CalculatePenetration | src/main/java/me/jellysquid/mods/lithium/common/shapes/VoxelShapeSimpleCube.java:59-70 | the one-dimensional routine applied to the cuboid's and the box's extents on the cycle's swept axis |
| Sweep.SideIntersects | src/main/java/me/jellysquid/mods/lithium/common/shapes/VoxelShapeSimpleCube.java:72-83 | epsilon-tolerant overlap on both side axes of the cycle; it implies strict overlap on every axis other than the swept one |
| Sweep.CalculateMaxDistance | src/main/java/me/jellysquid/mods/lithium/common/shapes/VoxelShapeSimpleCube.java:44-57 | 0 when `abs(maxDist) < EPSILON`; the motion is changed only when the penetration differs from it and the side test holds; with side overlap the result is the penetration, without it `maxDist`; same sign and bounds as the request; always `maxDist`, 0 or the gap on the swept axis |
| Sweep.MaxDistanceStopsAtFace | src/main/java/me/jellysquid/mods/lithium/common/shapes/VoxelShapeSimpleCube.java:44-111 | a box that overlaps the cross-section and has the facing face within reach ends its motion with its leading face within epsilon of that face, in both directions |
| Sweep.SweepExamples | src/main/java/me/jellysquid/mods/lithium/common/shapes/VoxelShapeSimpleCube.java:44-111 | unit-cube cases: stops at the face, passes beside, moves freely once past, stops at the maximum-X face when moving in -X, and blocks a negligible motion |
| JavaMath.TruncToInt | src/main/java/me/jellysquid/mods/lithium/common/world/WorldHelper.java:26-29 | the `(int)` cast inside `MathHelper.floor`/`ceil` truncates toward zero |
| JavaMath.Floor | src/main/java/me/jellysquid/mods/lithium/common/world/WorldHelper.java:26-28 | the greatest integer not above the argument |
| JavaMath.Ceil | src/main/java/me/jellysquid/mods/lithium/common/world/WorldHelper.java:27-29 | the least integer not below the argument |
| JavaMath.FloorCeilExact | src/main/java/me/jellysquid/mods/lithium/common/world/WorldHelper.java:26-29 | the truncate-and-correct computations equal the mathematical floor and ceiling |
| JavaMath.FloorMonotone | src/main/java/me/jellysquid/mods/lithium/common/world/WorldHelper.java:50-51 | floor preserves order |
| JavaMath.Clamp | src/main/java/me/jellysquid/mods/lithium/common/world/WorldHelper.java:52-53 | the result lies in `[min, max]`, equals the value when the value is in range, and equals the nearer bound otherwise |
| ChunkRange.ChunkSpan | src/main/java/me/jellysquid/mods/lithium/common/world/WorldHelper.java:26-34 | chunk `c` is visited exactly when its cell `[16c, 16c+16)` meets the padded interval `[min-2, max+2)` |
| ChunkRange.ChunkSpanCoversBox | src/main/java/me/jellysquid/mods/lithium/common/world/WorldHelper.java:26-34 | the chunk holding any coordinate of the box is visited |
| ChunkRange.RangeExamples | src/main/java/me/jellysquid/mods/lithium/common/world/WorldHelper.java:26-55 | a box at the origin visits chunks -1 and 0 on each horizontal axis; section indices are clamped into the chunk's sections |
| ChunkRange.SectionSpan | src/main/java/me/jellysquid/mods/lithium/common/world/WorldHelper.java:48-55 | both indices lie in `[0, count-1]`; lower <= upper when `minY <= maxY`; a section is visited exactly when its cell meets `[minY-2, maxY+2]`, with the bottom and top sections also standing for everything beyond them |
| EntityWalk.Filtered | src/main/java/me/jellysquid/mods/lithium/common/world/WorldHelper.java:57-61 | a filtered bucket is no longer than the bucket |
| EntityWalk.FilteredAppend | src/main/java/me/jellysquid/mods/lithium/common/world/WorldHelper.java:55-62 | filtering keeps bucket order: the filter of two buckets in sequence is the filter of their concatenation |
| EntityWalk.FilteredMembers | src/main/java/me/jellysquid/mods/lithium/common/world/WorldHelper.java:57-61 | an entity is in the filtered bucket exactly when the bucket holds it and it passes the filter |
| EntityWalk.SectionsWalkMembers | src/main/java/me/jellysquid/mods/lithium/common/world/WorldHelper.java:55-62 | the walk over sections lo..hi holds exactly the kept entities of those sections' buckets |
| EntityWalk.ChunkEntitiesMembers | src/main/java/me/jellysquid/mods/lithium/common/world/WorldHelper.java:48-63 | a loaded chunk contributes exactly the kept entities of the sections its vertical range visits |
| EntityWalk.ZWalkStep | src/main/java/me/jellysquid/mods/lithium/common/world/WorldHelper.java:34-39 | one more chunk in a row appends that chunk's contribution after the earlier ones |
| EntityWalk.ZWalkMembers | src/main/java/me/jellysquid/mods/lithium/common/world/WorldHelper.java:34-39 | a row holds exactly the kept entities offered by its loaded chunks; unloaded chunks contribute nothing |
| EntityWalk.XWalkStep | src/main/java/me/jellysquid/mods/lithium/common/world/WorldHelper.java:33-40 | one more row appends that row after the earlier rows (x-major order) |
| EntityWalk.XWalkMembers | src/main/java/me/jellysquid/mods/lithium/common/world/WorldHelper.java:33-40 | the rows hold exactly the kept entities offered by their loaded chunks |
| EntityWalk.QueryMembers | src/main/java/me/jellysquid/mods/lithium/common/world/WorldHelper.java:24-43 | the query returns exactly the kept entities offered by a visited section of a loaded chunk in the chunk range; a missing chunk hides none of the others |
| WorldHelper.AppendFiltered | src/main/java/me/jellysquid/mods/lithium/common/world/WorldHelper.java:57-61 | the entity loop appends the bucket's kept entities in bucket order after the existing entries |
| WorldHelper.CollectChunk | src/main/java/me/jellysquid/mods/lithium/common/world/WorldHelper.java:48-63 | the section loop appends the chunk's contribution, in ascending section order, after the existing entries |
| WorldHelper.CollectChunkAt | src/main/java/me/jellysquid/mods/lithium/common/world/WorldHelper.java:35-38 | a loaded chunk appends its contribution; a chunk that is not loaded appends nothing |
| WorldHelper.CollectRow | src/main/java/me/jellysquid/mods/lithium/common/world/WorldHelper.java:34-39 | the z loop appends the row's contributions in ascending z |
| WorldHelper.CollectRows | src/main/java/me/jellysquid/mods/lithium/common/world/WorldHelper.java:33-40 | the x loop produces the rows' contributions, x-major |
| WorldHelper.CollectWorld | src/main/java/me/jellysquid/mods/lithium/common/world/WorldHelper.java:24-43 | the nested loops return exactly the reference walk of the box's chunk range |
| WorldHelper.GetEntitiesOfClassGroupInChunk | src/main/java/me/jellysquid/mods/lithium/common/world/WorldHelper.java:48-63 | earlier list entries stay in place; the appended part is the chunk's group contribution, and holds exactly the admitted entities of the visited sections' group buckets |
| WorldHelper.GetEntitiesOfClassGroup | src/main/java/me/jellysquid/mods/lithium/common/world/WorldHelper.java:24-43 | the result is the reference walk; it never holds the excluded entity; every entity in it has a box that intersects the query box and passes the predicate if one is given; it holds exactly the admitted entities found in range |
| WorldHelper.GetEntitiesOfClassInChunk | src/main/java/me/jellysquid/mods/lithium/common/world/WorldHelper.java:93-107 | earlier list entries stay in place; the appended part is the chunk's class contribution, and holds exactly the admitted entities of the visited sections' class buckets |
| WorldHelper.GetEntitiesOfClass | src/main/java/me/jellysquid/mods/lithium/common/world/WorldHelper.java:69-88 | the result is the reference walk; it never holds the excluded entity; every entity in it has a box that intersects the query box; it holds exactly the admitted entities found in range |

## Left out

- The `VoxelSet voxels` field and the base-class constructor: the optimised paths never read them. Equivalence with the general per-voxel `VoxelShape` sweep is not modelled, because that code is not part of this model.
- IEEE-754 rounding, NaN and infinities: `double` is `real`, so "offset then inverse offset is exact" is a fact about reals only.
- `getBoundingBoxes` and the `DoubleArrayList` wrapping: container plumbing. The vertex list is a `seq<real>`.
- SimpleCube.BoundingBox: returns the corners as given. Minecraft's `Box` constructor, which orders each coordinate pair, is not part of this model. The two agree whenever `x1 <= x2`, `y1 <= y2` and `z1 <= z2`.
- The `IllegalArgumentException` branches after the exhaustive axis and cycle switches: with datatypes for the axis and the cycle, they cannot be reached.
- JavaMath.TruncToInt: does not model the saturation of Java's `(int)` cast outside the 32-bit range. Integers are unbounded, so chunk coordinates beyond about ±2^35 blocks are not modelled.
- A chunk whose section array is empty: the `Chunk` datatype always holds at least one section, so `MathHelper.clamp` never gets an inverted range.
- `world.getProfiler().visit(...)`: telemetry with no effect on results.
- `Box.intersects`, `getAllOfGroupType` and `getAllOfType`: left uninterpreted, because their code is not part of this model. The model does not decide whether overlap is open or closed, or whether class filtering includes subclasses.
- The `(ClassGroupFilterableList<Entity>)` cast of each section list in the group query: assumed to succeed, because every section list of a chunk is such a list. Its `ClassCastException` path is not modelled, and the group bucket is a total function.
- Entity identity (`!=` on references): modelled as equality of entity values.
- The mutable `List` the per-chunk methods append to: modelled as an input sequence and the returned extended sequence.
- Concurrency: the queries run on one thread and read the world without changing it.
