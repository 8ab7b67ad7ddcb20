/** How the entity query turns a query box into the chunks and the vertical
    sections it visits. Chunks are 16 blocks wide and sections 16 blocks
    high; the box is padded by 2 blocks on every side because entities are
    bucketed by position while their boxes may reach into a neighbour. */
module ChunkRange {
  import opened JavaMath

  /** Horizontal chunk width and vertical section height, in blocks. */
  const CellSize: real := 16.0

  /** The padding added around the query box, in blocks. */
  const Padding: real := 2.0

  /** Chunk `c` spans [16c, 16c + 16), and the test is that it begins below
      `max + 2` and ends above `min - 2`. When `min <= max` this says that it
      meets the half-open padded interval [min - 2, max + 2). */
  predicate ChunkMeets(c: int, min: real, max: real)
  {
    min - Padding < CellSize * c as real + CellSize && CellSize * c as real < max + Padding
  }

  /** The horizontal chunk range `[floor((min - 2) / 16), ceil((max + 2) / 16))`
      of the query loops: upper bound exclusive. The loop visits exactly the
      chunks meeting the padded interval [min - 2, max + 2). */
  function ChunkSpan(min: real, max: real): (r: (int, int))
    ensures forall c :: r.0 <= c < r.1 <==> ChunkMeets(c, min, max)
  {
    (Floor((min - Padding) / CellSize), Ceil((max + Padding) / CellSize))
  }

  /** Every chunk holding a block coordinate of the box, `floor(x / 16)` for
      `min <= x <= max`, is in the chunk range. */
  lemma ChunkSpanCoversBox(min: real, max: real, x: real)
    requires min <= x <= max
    ensures ChunkSpan(min, max).0 <= Floor(x / CellSize) < ChunkSpan(min, max).1
  {
  }

  /** Section `s` of a chunk with `count` sections is visited for the box
      spanning [minY, maxY]: its cell [16s, 16s + 16) meets the closed padded
      interval [minY - 2, maxY + 2], except that the bottom section also
      stands for everything below it and the top section for everything
      above it. */
  predicate SectionVisited(s: int, count: int, minY: real, maxY: real)
  {
    && (s == count - 1 || minY - Padding < CellSize * s as real + CellSize)
    && (s == 0 || CellSize * s as real <= maxY + Padding)
  }

  /** The inclusive vertical section range: `floor((minY - 2) / 16)` and
      `floor((maxY + 2) / 16)`, each clamped into [0, count - 1]. */
  function SectionSpan(minY: real, maxY: real, count: int): (r: (int, int))
    requires count >= 1
    ensures 0 <= r.0 < count && 0 <= r.1 < count
    ensures minY <= maxY ==> r.0 <= r.1
    ensures forall s :: 0 <= s < count ==> (r.0 <= s <= r.1 <==> SectionVisited(s, count, minY, maxY))
  {
    var lo := Floor((minY - Padding) / CellSize);
    var hi := Floor((maxY + Padding) / CellSize);
    (Clamp(lo, 0, count - 1), Clamp(hi, 0, count - 1))
  }

  /** A box at the origin visits chunks -1 and 0 on each horizontal axis, and
      its section range is clamped into the chunk's sections even though the
      padded bottom lies below section 0. */
  lemma RangeExamples()
    ensures ChunkSpan(0.0, 0.0) == (-1, 1)
    ensures SectionSpan(0.0, 0.0, 16) == (0, 0)
    ensures SectionSpan(-40.0, 300.0, 16) == (0, 15)
  {
  }
}
