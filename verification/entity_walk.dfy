/** The reference definition of the entity region query: the entities it
    returns, in the order it returns them. The chunk store is abstract: a
    lookup from chunk coordinates to the loaded chunk, `None` for a chunk that
    is not loaded. */
module EntityWalk {
  import opened Wrappers
  import opened Geometry
  import opened ChunkRange

  /** A loaded chunk's entity section array, bottom section first. It always
      holds at least one section. */
  datatype Chunk<S> = Chunk(bottom: S, above: seq<S>)
  {
    function Sections(): (r: seq<S>)
      ensures |r| >= 1 && r[0] == bottom && r[1..] == above
    {
      [bottom] + above
    }
  }

  /** What one query collects: the query box, the bucket of candidate
      entities a section offers (all of a group, or all of a class), and the
      test an entity must pass to be returned. */
  datatype Selection<!S, !E> = Selection(box: Box, bucket: S -> seq<E>, keep: E -> bool)

  /** The entities of one bucket that pass `keep`, in bucket order. */
  function Filtered<E>(bucket: seq<E>, keep: E -> bool): (r: seq<E>)
    ensures |r| <= |bucket|
    decreases |bucket|
  {
    if |bucket| == 0 then []
    else
      var last := bucket[|bucket| - 1];
      Filtered(bucket[..|bucket| - 1], keep) + (if keep(last) then [last] else [])
  }

  /** An entity is in the filtered bucket exactly when the bucket holds it
      and it passes `keep`. */
  lemma {:induction false} FilteredMembers<E>(bucket: seq<E>, keep: E -> bool, e: E)
    ensures e in Filtered(bucket, keep) <==> e in bucket && keep(e)
    decreases |bucket|
  {
    if |bucket| > 0 {
      var init := bucket[..|bucket| - 1];
      FilteredMembers(init, keep, e);
      assert bucket == init + [bucket[|bucket| - 1]];
    }
  }

  /** Filtering keeps bucket order: filtering two buckets one after the other
      is filtering their concatenation. */
  lemma {:induction false} FilteredAppend<E>(a: seq<E>, b: seq<E>, keep: E -> bool)
    ensures Filtered(a + b, keep) == Filtered(a, keep) + Filtered(b, keep)
    decreases |b|
  {
    if |b| == 0 {
      assert a + b == a;
    } else {
      var init := b[..|b| - 1];
      FilteredAppend(a, init, keep);
      assert (a + b)[..|a + b| - 1] == a + init;
      assert (a + b)[|a + b| - 1] == b[|b| - 1];
    }
  }

  /** The filtered buckets of sections `lo` to `hi` (inclusive), in ascending
      section order; empty when `hi < lo`. */
  function SectionsWalk<S, E>(sections: seq<S>, lo: int, hi: int, sel: Selection<S, E>): seq<E>
    requires 0 <= lo && hi < |sections|
    decreases hi - lo
  {
    if hi < lo then []
    else SectionsWalk(sections, lo, hi - 1, sel) + Filtered(sel.bucket(sections[hi]), sel.keep)
  }

  /** `e` is offered by one of sections `lo` to `hi`. */
  ghost predicate InSectionRange<S, E>(sections: seq<S>, lo: int, hi: int, sel: Selection<S, E>, e: E)
  {
    exists s :: lo <= s <= hi && 0 <= s < |sections| && e in sel.bucket(sections[s])
  }

  lemma {:induction false} SectionsWalkMembers<S, E>(sections: seq<S>, lo: int, hi: int, sel: Selection<S, E>, e: E)
    requires 0 <= lo && hi < |sections|
    ensures e in SectionsWalk(sections, lo, hi, sel) <==> sel.keep(e) && InSectionRange(sections, lo, hi, sel, e)
    decreases hi - lo
  {
    if hi >= lo {
      SectionsWalkMembers(sections, lo, hi - 1, sel, e);
      FilteredMembers(sel.bucket(sections[hi]), sel.keep, e);
      if InSectionRange(sections, lo, hi, sel, e) {
        var s :| lo <= s <= hi && 0 <= s < |sections| && e in sel.bucket(sections[s]);
        if s < hi {
          assert InSectionRange(sections, lo, hi - 1, sel, e);
        }
      }
    }
  }

  /** `e` is offered by a section of `chunk` the query visits. */
  ghost predicate InSections<S, E>(chunk: Chunk<S>, sel: Selection<S, E>, e: E)
  {
    var sections := chunk.Sections();
    exists s :: 0 <= s < |sections| && SectionVisited(s, |sections|, sel.box.minY, sel.box.maxY)
                && e in sel.bucket(sections[s])
  }

  /** What one loaded chunk contributes: its visited sections' filtered
      buckets, in ascending section order. */
  function ChunkEntities<S, E>(chunk: Chunk<S>, sel: Selection<S, E>): seq<E>
  {
    var sections := chunk.Sections();
    var span := SectionSpan(sel.box.minY, sel.box.maxY, |sections|);
    SectionsWalk(sections, span.0, span.1, sel)
  }

  /** A loaded chunk contributes exactly the kept entities of the sections the
      vertical range visits. */
  lemma ChunkEntitiesMembers<S, E>(chunk: Chunk<S>, sel: Selection<S, E>, e: E)
    ensures e in ChunkEntities(chunk, sel) <==> sel.keep(e) && InSections(chunk, sel, e)
  {
    var sections := chunk.Sections();
    var span := SectionSpan(sel.box.minY, sel.box.maxY, |sections|);
    SectionsWalkMembers(sections, span.0, span.1, sel, e);
    if InSections(chunk, sel, e) {
      var s :| 0 <= s < |sections| && SectionVisited(s, |sections|, sel.box.minY, sel.box.maxY)
               && e in sel.bucket(sections[s]);
      assert InSectionRange(sections, span.0, span.1, sel, e);
    }
  }

  /** `e` is offered by a visited section of the loaded chunk (cx, cz). */
  ghost predicate InChunk<S, E>(chunkAt: (int, int) -> Option<Chunk<S>>, cx: int, cz: int, sel: Selection<S, E>, e: E)
  {
    chunkAt(cx, cz).Some? && InSections(chunkAt(cx, cz).value, sel, e)
  }

  /** What chunk (cx, cz) contributes; a chunk that is not loaded contributes
      nothing. */
  function ChunkContribution<S, E>(chunkAt: (int, int) -> Option<Chunk<S>>, cx: int, cz: int, sel: Selection<S, E>): seq<E>
  {
    match chunkAt(cx, cz)
    case None => []
    case Some(chunk) => ChunkEntities(chunk, sel)
  }

  /** The contributions of chunks (cx, z1) to (cx, z - 1), in ascending z. */
  function ZWalk<S, E>(chunkAt: (int, int) -> Option<Chunk<S>>, cx: int, z1: int, z: int, sel: Selection<S, E>): seq<E>
    decreases z - z1
  {
    if z <= z1 then []
    else ZWalk(chunkAt, cx, z1, z - 1, sel) + ChunkContribution(chunkAt, cx, z - 1, sel)
  }

  /** Extending a row by one chunk appends that chunk's contribution. */
  lemma ZWalkStep<S, E>(chunkAt: (int, int) -> Option<Chunk<S>>, cx: int, z1: int, z: int, sel: Selection<S, E>)
    requires z1 <= z
    ensures ZWalk(chunkAt, cx, z1, z + 1, sel) == ZWalk(chunkAt, cx, z1, z, sel) + ChunkContribution(chunkAt, cx, z, sel)
  {
  }

  /** `e` is offered by a loaded chunk (cx, cz) with z1 <= cz < z. */
  ghost predicate InRow<S, E>(chunkAt: (int, int) -> Option<Chunk<S>>, cx: int, z1: int, z: int, sel: Selection<S, E>, e: E)
  {
    exists cz :: z1 <= cz < z && InChunk(chunkAt, cx, cz, sel, e)
  }

  lemma {:induction false} ZWalkMembers<S, E>(chunkAt: (int, int) -> Option<Chunk<S>>, cx: int, z1: int, z: int,
                                              sel: Selection<S, E>, e: E)
    ensures e in ZWalk(chunkAt, cx, z1, z, sel) <==> sel.keep(e) && InRow(chunkAt, cx, z1, z, sel, e)
    decreases z - z1
  {
    if z > z1 {
      ZWalkMembers(chunkAt, cx, z1, z - 1, sel, e);
      var last := ChunkContribution(chunkAt, cx, z - 1, sel);
      assert ZWalk(chunkAt, cx, z1, z, sel) == ZWalk(chunkAt, cx, z1, z - 1, sel) + last;
      if chunkAt(cx, z - 1).Some? {
        ChunkEntitiesMembers(chunkAt(cx, z - 1).value, sel, e);
        assert e in last <==> sel.keep(e) && InChunk(chunkAt, cx, z - 1, sel, e);
      } else {
        assert last == [];
      }
      if e in last {
        assert InChunk(chunkAt, cx, z - 1, sel, e);
      }
      if InRow(chunkAt, cx, z1, z, sel, e) {
        var cz :| z1 <= cz < z && InChunk(chunkAt, cx, cz, sel, e);
        if cz < z - 1 {
          assert InRow(chunkAt, cx, z1, z - 1, sel, e);
        }
      }
    }
  }

  /** The contributions of the chunk rows x1 to x - 1, each row over
      z1 to z2 - 1: x-major, then z. */
  function XWalk<S, E>(chunkAt: (int, int) -> Option<Chunk<S>>, x1: int, x: int, z1: int, z2: int, sel: Selection<S, E>): seq<E>
    decreases x - x1
  {
    if x <= x1 then []
    else XWalk(chunkAt, x1, x - 1, z1, z2, sel) + ZWalk(chunkAt, x - 1, z1, z2, sel)
  }

  /** Extending the walk by one row appends that row. */
  lemma XWalkStep<S, E>(chunkAt: (int, int) -> Option<Chunk<S>>, x1: int, x: int, z1: int, z2: int, sel: Selection<S, E>)
    requires x1 <= x
    ensures XWalk(chunkAt, x1, x + 1, z1, z2, sel) == XWalk(chunkAt, x1, x, z1, z2, sel) + ZWalk(chunkAt, x, z1, z2, sel)
  {
  }

  /** `e` is offered by a loaded chunk (cx, cz) with x1 <= cx < x and
      z1 <= cz < z2. */
  ghost predicate InRows<S, E>(chunkAt: (int, int) -> Option<Chunk<S>>, x1: int, x: int, z1: int, z2: int, sel: Selection<S, E>, e: E)
  {
    exists cx :: x1 <= cx < x && InRow(chunkAt, cx, z1, z2, sel, e)
  }

  lemma {:induction false} XWalkMembers<S, E>(chunkAt: (int, int) -> Option<Chunk<S>>, x1: int, x: int, z1: int, z2: int,
                                              sel: Selection<S, E>, e: E)
    ensures e in XWalk(chunkAt, x1, x, z1, z2, sel) <==> sel.keep(e) && InRows(chunkAt, x1, x, z1, z2, sel, e)
    decreases x - x1
  {
    if x > x1 {
      XWalkMembers(chunkAt, x1, x - 1, z1, z2, sel, e);
      ZWalkMembers(chunkAt, x - 1, z1, z2, sel, e);
      if InRows(chunkAt, x1, x, z1, z2, sel, e) {
        var cx :| x1 <= cx < x && InRow(chunkAt, cx, z1, z2, sel, e);
        if cx < x - 1 {
          assert InRows(chunkAt, x1, x - 1, z1, z2, sel, e);
        }
      }
    }
  }

  /** `e` is offered by a visited section of a loaded chunk that meets the
      padded query box horizontally. */
  ghost predicate InRegion<S, E>(chunkAt: (int, int) -> Option<Chunk<S>>, sel: Selection<S, E>, e: E)
  {
    exists cx, cz :: ChunkMeets(cx, sel.box.minX, sel.box.maxX) && ChunkMeets(cz, sel.box.minZ, sel.box.maxZ)
                     && InChunk(chunkAt, cx, cz, sel, e)
  }

  /** The whole query: the chunk range of the box, walked x-major then z. */
  function Query<S, E>(chunkAt: (int, int) -> Option<Chunk<S>>, sel: Selection<S, E>): seq<E>
  {
    var xs := ChunkSpan(sel.box.minX, sel.box.maxX);
    var zs := ChunkSpan(sel.box.minZ, sel.box.maxZ);
    XWalk(chunkAt, xs.0, xs.1, zs.0, zs.1, sel)
  }

  /** The query returns exactly the kept entities offered by visited sections
      of loaded chunks in range; chunks that are not loaded are skipped
      without hiding the entities of the others. */
  lemma QueryMembers<S, E>(chunkAt: (int, int) -> Option<Chunk<S>>, sel: Selection<S, E>, e: E)
    ensures e in Query(chunkAt, sel) <==> sel.keep(e) && InRegion(chunkAt, sel, e)
  {
    var xs := ChunkSpan(sel.box.minX, sel.box.maxX);
    var zs := ChunkSpan(sel.box.minZ, sel.box.maxZ);
    XWalkMembers(chunkAt, xs.0, xs.1, zs.0, zs.1, sel, e);
    if InRegion(chunkAt, sel, e) {
      var cx, cz :| ChunkMeets(cx, sel.box.minX, sel.box.maxX) && ChunkMeets(cz, sel.box.minZ, sel.box.maxZ)
                    && InChunk(chunkAt, cx, cz, sel, e);
      assert InRow(chunkAt, cx, zs.0, zs.1, sel, e);
    }
    if InRows(chunkAt, xs.0, xs.1, zs.0, zs.1, sel, e) {
      var cx :| xs.0 <= cx < xs.1 && InRow(chunkAt, cx, zs.0, zs.1, sel, e);
      var cz :| zs.0 <= cz < zs.1 && InChunk(chunkAt, cx, cz, sel, e);
      assert ChunkMeets(cx, sel.box.minX, sel.box.maxX) && ChunkMeets(cz, sel.box.minZ, sel.box.maxZ);
    }
  }
}
