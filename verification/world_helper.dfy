/** `WorldHelper`: the entity region queries, as the nested loops the source
    runs, proved to return exactly the reference walk of module
    `EntityWalk`. The two public queries share one skeleton and differ only
    in the section bucket they read and the filter they apply. */
module WorldHelper {
  import opened Wrappers
  import opened Geometry
  import opened ChunkRange
  import opened EntityWalk

  /** The world the query reads. `S` is a chunk section's entity list, `E` an
      entity, `G` an entity class group and `C` an entity class.
      - `chunkAt(cx, cz)`: the loaded chunk, `None` when it is not loaded;
      - `allOfGroup(section, group)` / `allOfType(section, class)`: the
        section's entities of a group / of a class, in the section's order;
      - `boundingBox(e)` and `intersects(a, b)`: an entity's box and box
        overlap, left uninterpreted. */
  datatype EntityWorld<!S, !E, !G, !C> = EntityWorld(
    chunkAt: (int, int) -> Option<Chunk<S>>,
    allOfGroup: (S, G) -> seq<E>,
    allOfType: (S, C) -> seq<E>,
    boundingBox: E -> Box,
    intersects: (Box, Box) -> bool)

  /** The filter of both queries: not the excluded entity (`None` excludes
      nothing), a bounding box that intersects the query box, and the
      predicate when there is one. */
  predicate Admits<S, E(==), G, C>(w: EntityWorld<S, E, G, C>, excluded: Option<E>, box: Box,
                                   test: Option<E -> bool>, e: E)
  {
    excluded != Some(e) && w.intersects(w.boundingBox(e), box) && (test.None? || test.value(e))
  }

  /** The selection of `getEntitiesOfClassGroup`: group buckets, with the
      optional predicate. */
  function GroupSelection<S, E(==), G, C>(w: EntityWorld<S, E, G, C>, excluded: Option<E>, group: G, box: Box,
                                          test: Option<E -> bool>): Selection<S, E>
  {
    Selection(box, s => w.allOfGroup(s, group), e => Admits(w, excluded, box, test, e))
  }

  /** The selection of `getEntitiesOfClass`: class buckets, no predicate. */
  function ClassSelection<S, E(==), G, C>(w: EntityWorld<S, E, G, C>, excluded: Option<E>, cls: C, box: Box): Selection<S, E>
  {
    Selection(box, s => w.allOfType(s, cls), e => Admits(w, excluded, box, None, e))
  }

  lemma AppendAssociates<T>(a: seq<T>, b: seq<T>, c: seq<T>)
    ensures (a + b) + c == a + (b + c)
  {
  }

  /** The innermost loop: appends the entities of one bucket that pass
      `keep` to `list`, in bucket order. */
  method AppendFiltered<E>(bucket: seq<E>, keep: E -> bool, list: seq<E>) returns (out: seq<E>)
    ensures out == list + Filtered(bucket, keep)
  {
    out := list;
    var j := 0;
    while j < |bucket|
      invariant 0 <= j <= |bucket|
      invariant out == list + Filtered(bucket[..j], keep)
    {
      assert bucket[..j + 1][..j] == bucket[..j];
      if keep(bucket[j]) {
        out := out + [bucket[j]];
      }
      j := j + 1;
    }
    assert bucket[..|bucket|] == bucket;
  }

  /** The per-chunk loop shared by both chunk overloads: appends the kept
      entities of the visited sections to `list`, section by section and in
      bucket order. */
  method CollectChunk<S, E>(chunk: Chunk<S>, sel: Selection<S, E>, list: seq<E>) returns (out: seq<E>)
    ensures out == list + ChunkEntities(chunk, sel)
  {
    var sections := chunk.Sections();
    var span := SectionSpan(sel.box.minY, sel.box.maxY, |sections|);
    var lo, hi := span.0, span.1;
    out := list;
    if hi < lo {
      return;
    }
    var y := lo;
    while y <= hi
      invariant lo <= y <= hi + 1
      invariant out == list + SectionsWalk(sections, lo, y - 1, sel)
    {
      AppendAssociates(list, SectionsWalk(sections, lo, y - 1, sel), Filtered(sel.bucket(sections[y]), sel.keep));
      out := AppendFiltered(sel.bucket(sections[y]), sel.keep, out);
      y := y + 1;
    }
  }

  /** One step of the world loop: the chunk (cx, cz) when it is loaded; a
      chunk that is not loaded adds nothing. */
  method CollectChunkAt<S, E>(chunkAt: (int, int) -> Option<Chunk<S>>, cx: int, cz: int,
                              sel: Selection<S, E>, list: seq<E>) returns (out: seq<E>)
    ensures out == list + ChunkContribution(chunkAt, cx, cz, sel)
  {
    var chunk := chunkAt(cx, cz);
    if chunk.Some? {
      out := CollectChunk(chunk.value, sel, list);
    } else {
      out := list;
    }
  }

  /** The inner loop over one row of chunks (cx, z1) to (cx, z2 - 1). */
  method CollectRow<S, E>(chunkAt: (int, int) -> Option<Chunk<S>>, cx: int, z1: int, z2: int,
                          sel: Selection<S, E>, list: seq<E>) returns (out: seq<E>)
    ensures out == list + ZWalk(chunkAt, cx, z1, z2, sel)
  {
    out := list;
    if z2 <= z1 {
      return;
    }
    var cz := z1;
    while cz < z2
      invariant z1 <= cz <= z2
      invariant out == list + ZWalk(chunkAt, cx, z1, cz, sel)
    {
      ZWalkStep(chunkAt, cx, z1, cz, sel);
      AppendAssociates(list, ZWalk(chunkAt, cx, z1, cz, sel), ChunkContribution(chunkAt, cx, cz, sel));
      out := CollectChunkAt(chunkAt, cx, cz, sel, out);
      cz := cz + 1;
    }
  }

  /** The outer loop over the chunk rows x1 to x2 - 1. */
  method CollectRows<S, E>(chunkAt: (int, int) -> Option<Chunk<S>>, x1: int, x2: int, z1: int, z2: int,
                           sel: Selection<S, E>) returns (list: seq<E>)
    ensures list == XWalk(chunkAt, x1, x2, z1, z2, sel)
  {
    list := [];
    if x2 <= x1 {
      return;
    }
    var cx := x1;
    while cx < x2
      invariant x1 <= cx <= x2
      invariant list == XWalk(chunkAt, x1, cx, z1, z2, sel)
    {
      XWalkStep(chunkAt, x1, cx, z1, z2, sel);
      list := CollectRow(chunkAt, cx, z1, z2, sel, list);
      cx := cx + 1;
    }
  }

  /** The world loop shared by both world queries: every chunk of the chunk
      range, x-major then z. */
  method CollectWorld<S, E>(chunkAt: (int, int) -> Option<Chunk<S>>, sel: Selection<S, E>) returns (list: seq<E>)
    ensures list == Query(chunkAt, sel)
  {
    var xs := ChunkSpan(sel.box.minX, sel.box.maxX);
    var zs := ChunkSpan(sel.box.minZ, sel.box.maxZ);
    list := CollectRows(chunkAt, xs.0, xs.1, zs.0, zs.1, sel);
  }

  /** The chunk overload of `getEntitiesOfClassGroup`: appends to `list` and
      leaves its earlier entries in place. */
  method GetEntitiesOfClassGroupInChunk<S, E(==), G, C>(w: EntityWorld<S, E, G, C>, chunk: Chunk<S>,
                                                         excluded: Option<E>, group: G, box: Box,
                                                         list: seq<E>, test: Option<E -> bool>)
    returns (out: seq<E>)
    ensures |list| <= |out| && out[..|list|] == list
    ensures out == list + ChunkEntities(chunk, GroupSelection(w, excluded, group, box, test))
    ensures forall e :: e in out[|list|..] <==>
      Admits(w, excluded, box, test, e) && InSections(chunk, GroupSelection(w, excluded, group, box, test), e)
  {
    var sel := GroupSelection(w, excluded, group, box, test);
    out := CollectChunk(chunk, sel, list);
    assert out[|list|..] == ChunkEntities(chunk, sel);
    forall e
      ensures e in out[|list|..] <==> Admits(w, excluded, box, test, e) && InSections(chunk, sel, e)
    {
      ChunkEntitiesMembers(chunk, sel, e);
    }
  }

  /** `getEntitiesOfClassGroup(world, excluded, type, box, predicate)`. */
  method GetEntitiesOfClassGroup<S, E(==), G, C>(w: EntityWorld<S, E, G, C>, excluded: Option<E>, group: G,
                                                  box: Box, test: Option<E -> bool>)
    returns (list: seq<E>)
    ensures list == Query(w.chunkAt, GroupSelection(w, excluded, group, box, test))
    ensures forall e :: e in list ==>
      excluded != Some(e) && w.intersects(w.boundingBox(e), box) && (test.Some? ==> test.value(e))
    ensures forall e :: e in list <==>
      Admits(w, excluded, box, test, e) && InRegion(w.chunkAt, GroupSelection(w, excluded, group, box, test), e)
  {
    var sel := GroupSelection(w, excluded, group, box, test);
    list := CollectWorld(w.chunkAt, sel);
    forall e
      ensures e in list <==> Admits(w, excluded, box, test, e) && InRegion(w.chunkAt, sel, e)
    {
      QueryMembers(w.chunkAt, sel, e);
    }
  }

  /** The chunk overload of `getEntitiesOfClass`: appends to `list` and
      leaves its earlier entries in place. */
  method GetEntitiesOfClassInChunk<S, E(==), G, C>(w: EntityWorld<S, E, G, C>, chunk: Chunk<S>,
                                                    excluded: Option<E>, cls: C, box: Box, list: seq<E>)
    returns (out: seq<E>)
    ensures |list| <= |out| && out[..|list|] == list
    ensures out == list + ChunkEntities(chunk, ClassSelection(w, excluded, cls, box))
    ensures forall e :: e in out[|list|..] <==>
      Admits(w, excluded, box, None, e) && InSections(chunk, ClassSelection(w, excluded, cls, box), e)
  {
    var sel := ClassSelection(w, excluded, cls, box);
    out := CollectChunk(chunk, sel, list);
    assert out[|list|..] == ChunkEntities(chunk, sel);
    forall e
      ensures e in out[|list|..] <==> Admits(w, excluded, box, None, e) && InSections(chunk, sel, e)
    {
      ChunkEntitiesMembers(chunk, sel, e);
    }
  }

  /** `getEntitiesOfClass(world, except, entityClass, box)`. */
  method GetEntitiesOfClass<S, E(==), G, C>(w: EntityWorld<S, E, G, C>, excluded: Option<E>, cls: C, box: Box)
    returns (list: seq<E>)
    ensures list == Query(w.chunkAt, ClassSelection(w, excluded, cls, box))
    ensures forall e :: e in list ==> excluded != Some(e) && w.intersects(w.boundingBox(e), box)
    ensures forall e :: e in list <==>
      Admits(w, excluded, box, None, e) && InRegion(w.chunkAt, ClassSelection(w, excluded, cls, box), e)
  {
    var sel := ClassSelection(w, excluded, cls, box);
    list := CollectWorld(w.chunkAt, sel);
    forall e
      ensures e in list <==> Admits(w, excluded, box, None, e) && InRegion(w.chunkAt, sel, e)
    {
      QueryMembers(w.chunkAt, sel, e);
    }
  }
}
