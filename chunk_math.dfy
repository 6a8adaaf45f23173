/**
 * Block-to-chunk arithmetic as the plugin writes it with Java's truncating
 * integer division. A chunk is 16 x 16 blocks; block x belongs to chunk
 * floor(x / 16) and sits at offset x mod 16 inside it.
 */
module ChunkMath {
  import opened Common

  /**
   * The chunk index the plugin computes for a block coordinate
   * (`x > 0 ? x / 16 : x / 16 - 1`, with truncating division).
   */
  function ChunkIndex(x: int): int
  {
    if x > 0 then JavaDiv(x, 16) else JavaDiv(x, 16) - 1
  }

  /**
   * ChunkIndex is the floor division of a block coordinate by 16 except
   * at non-positive multiples of 16 (0, -16, -32, ...), where it is one
   * chunk lower than the chunk that holds the block.
   */
  lemma ChunkIndexFloor(x: int)
    ensures x > 0 || x % 16 != 0 ==> ChunkIndex(x) == x / 16
    ensures x <= 0 && x % 16 == 0 ==> ChunkIndex(x) == x / 16 - 1
  {
    if x <= 0 {
      var q := (-x) / 16;
      var m := (-x) % 16;
      assert -x == 16 * q + m;
      if m == 0 {
        assert x == 16 * (-q);
      } else {
        assert x == 16 * (-q - 1) + (16 - m);
      }
    }
  }

  /**
   * The offset inside its chunk of a block coordinate, as BukkitRTPWorld's
   * biome lookup computes it (`x % 16`, plus 16 when negative).
   */
  function BlockInChunk(x: int): (b: int)
    ensures 0 <= b < 16
    ensures b == x % 16
  {
    var r := JavaRem(x, 16);
    if r < 0 then r + 16 else r
  }

  // The safety scan localises each scanned block coordinate against the
  // candidate chunk: it computes a chunk offset and a block offset with the
  // truncated quotient dx = |x / 16|.

  /** The chunk offset the safety scan adds to the candidate chunk. */
  function ScanChunkOffset(x: int): int
  {
    var dx := Abs(JavaDiv(x, 16));
    if x < 0 then -(dx + 1) else if x >= 16 then dx else 0
  }

  /** The block offset the safety scan reads inside that chunk. */
  function ScanLocal(x: int): int
  {
    var dx := Abs(JavaDiv(x, 16));
    if x < 0 then (if JavaRem(x, 16) == 0 then x + 16 * dx else x + 16 * (dx + 1))
    else if x >= 16 then x - 16 * dx
    else x
  }

  /**
   * The scan's block offset is always a valid in-chunk offset. The chunk
   * offset and block offset recombine to x itself, except at negative
   * multiples of 16, where they name the block 16 below x: the scan reads
   * its neighbour in the next chunk down.
   */
  lemma ScanLocalise(x: int)
    ensures 0 <= ScanLocal(x) < 16
    ensures ScanLocal(x) == x % 16
    ensures x >= 0 || x % 16 != 0 ==> ScanChunkOffset(x) * 16 + ScanLocal(x) == x
    ensures x < 0 && x % 16 == 0 ==> ScanChunkOffset(x) * 16 + ScanLocal(x) == x - 16
  {
    if x < 0 {
      var q := (-x) / 16;
      var m := (-x) % 16;
      assert -x == 16 * q + m;
      assert JavaDiv(x, 16) == -q;
      assert JavaRem(x, 16) == -m;
      if m == 0 {
        assert ScanLocal(x) == 0;
        assert x == 16 * (-q);
      } else {
        assert ScanLocal(x) == x + 16 * (q + 1) == 16 - m;
        assert x == 16 * (-q - 1) + (16 - m);
      }
    } else {
      assert x == 16 * (x / 16) + x % 16;
    }
  }
}
