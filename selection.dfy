/**
 * Location selection for one region (Region.getLocation(biomeNames)): draw
 * chunk positions from the region's shape until one passes the biome check,
 * the world-border check, vertical adjustment, the block safety scan and the
 * global region verifiers, within an attempt budget that grows with every
 * biome or border failure.
 *
 * Everything the loop asks the world, the shape and the vertical adjustor is
 * an oracle field of `Terrain`, so a selection is a deterministic function of
 * the terrain and the settings.
 */
module Selection {
  import opened Common
  import opened ChunkMath

  datatype Location = Location(world: string, x: int, y: int, z: int)

  /** What a global region verifier does with a location. */
  datatype Verdict = Accept | Reject | Throws

  /** Fetching the candidate chunk: it loads, the future fails, or it yields null. */
  datatype ChunkLoad = Loaded | LoadFailed | NullChunk

  datatype ScanResult = Safe | Unsafe | ScanLoadFailed

  datatype Terrain = Terrain(
    /** The k-th chunk position the shape draws; None when forced biome recall has nothing remembered. */
    draw: nat -> Option<ChunkPos>,
    /** The world's biome name at a block. */
    biome: (int, int, int) -> string,
    /** Whether the world border contains a block. */
    inside: (int, int, int) -> bool,
    /** Fetching the candidate chunk. */
    load: ChunkPos -> ChunkLoad,
    /** The vertical adjustor's choice inside a loaded chunk, or null. */
    adjust: ChunkPos -> Option<Location>,
    /** Whether fetching a further chunk for the safety scan succeeds. */
    scanLoads: ChunkPos -> bool,
    /** The material name of a block of a chunk, at in-chunk x, height y, in-chunk z. */
    material: (ChunkPos, int, int, int) -> string,
    /** The vertical adjustor's height range. */
    minY: int, maxY: int,
    /** The world's height limits. */
    minHeight: int, maxHeight: int,
    /** The global region verifiers, in registration order. */
    verifiers: seq<Location -> Verdict>)

  datatype Settings = Settings(
    /** The biome names asked for; empty when the caller passed null or an empty set. */
    requested: set<string>,
    /** The safety configuration's biome whitelist flag and biome list. */
    whitelist: bool,
    configBiomes: set<string>,
    /** The biome names the server knows for the world. */
    serverBiomes: set<string>,
    /** The configured unsafe block names and the safety radius. */
    unsafeConfig: set<string>,
    safetyRadius: int,
    /** The configured maximum number of attempts. */
    maxAttemptsConfig: int,
    /** Region.maxBiomeChecksPerGen (100 unless changed). */
    perGen: nat,
    /** Whether the region has a shape and a vertical adjustor. */
    hasShape: bool,
    hasVert: bool)

  /** How a selection ended. */
  datatype Exit =
    | Passed          // a location passed every check
    | Exhausted       // the attempt budget ran out
    | BiomeBudget     // the biome-check budget ran out
    | BorderAbort     // more than 1000 draws fell outside the world border
    | RecallFailed    // forced biome recall had nothing remembered
    | ChunkFailed     // the candidate chunk's future failed
    | NullChunk_      // the candidate chunk was null: the method returns null
    | ScanFailed      // a chunk of the safety scan failed to load: the method returns null
    | NoShape         // the region has no shape: the method returns null
    | NoVert          // the region has no vertical adjustor: the method returns null

  /** The returned pair (location or null, attempts), and how it came about. */
  datatype SelResult = SelResult(exit: Exit, location: Option<Location>, attempts: int)
  {
    /** Whether the Java method returns a pair at all (rather than null). */
    predicate IsPair()
    {
      !(exit.NullChunk_? || exit.ScanFailed? || exit.NoShape? || exit.NoVert?)
    }
  }

  const MAX_BIOME_CHECKS_PER_GEN: nat := 100
  const MAX_BORDER_FAILS: int := 1000

  // ---------------------------------------------------------------------
  // Settings derived at the start of a selection

  predicate DefaultBiomes(s: Settings)
  {
    s.requested == {}
  }

  /**
   * The biome set used when none is asked for: with the whitelist flag, the
   * configured list in upper case; otherwise every server biome whose upper
   * case is not configured.
   */
  function DefaultBiomeSet(whitelist: bool, configBiomes: set<string>, serverBiomes: set<string>): (r: set<string>)
    ensures whitelist ==> forall b :: b in configBiomes ==> Upper(b) in r
    ensures whitelist ==> forall b :: b in r ==> exists c :: c in configBiomes && Upper(c) == b
    ensures !whitelist ==> forall b :: b in r <==> b in serverBiomes && !exists c :: c in configBiomes && Upper(c) == Upper(b)
  {
    var listed := set c | c in configBiomes :: Upper(c);
    if whitelist then listed
    else set b | b in serverBiomes && Upper(b) !in listed
  }

  function Names(s: Settings): set<string>
  {
    if DefaultBiomes(s) then DefaultBiomeSet(s.whitelist, s.configBiomes, s.serverBiomes) else s.requested
  }

  /** The unsafe block names, upper-cased. */
  function UnsafeSet(s: Settings): set<string>
  {
    set b | b in s.unsafeConfig :: Upper(b)
  }

  function Base(s: Settings): int
  {
    Max(s.maxAttemptsConfig, 1)
  }

  /** The biome-check budget: per-draw checks times attempts, ten times more for a requested set. */
  function MaxBiome(s: Settings): int
  {
    s.perGen * Base(s) * (if DefaultBiomes(s) then 1 else 10)
  }

  /** The height at which the centre biome and the border are probed. */
  function Mid(t: Terrain): int
  {
    JavaDiv(t.minY + t.maxY, 2)
  }

  // ---------------------------------------------------------------------
  // Global region verifiers

  /** No verifier rejects the location; a verifier that throws is skipped. */
  predicate Accepts(vs: seq<Location -> Verdict>, loc: Location)
  {
    forall k :: 0 <= k < |vs| ==> vs[k](loc) != Reject
  }

  /** Registering one more verifier adds exactly its own verdict to the conjunction. */
  lemma AcceptsAppend(vs: seq<Location -> Verdict>, v: Location -> Verdict, loc: Location)
    ensures Accepts(vs + [v], loc) <==> Accepts(vs, loc) && v(loc) != Reject
  {
    assert forall k :: 0 <= k < |vs| ==> (vs + [v])[k] == vs[k];
    assert (vs + [v])[|vs|] == v;
  }

  /** The verifier loop of checkGlobalRegionVerifiers (lock held): stops at the first rejection. */
  method CheckVerifiers(vs: seq<Location -> Verdict>, loc: Location) returns (ok: bool)
    ensures ok <==> Accepts(vs, loc)
    ensures !ok ==> exists k :: 0 <= k < |vs| && vs[k](loc) == Reject
  {
    var k := 0;
    while k < |vs|
      invariant k <= |vs|
      invariant forall j :: 0 <= j < k ==> vs[j](loc) != Reject
    {
      if vs[k](loc) == Reject {
        return false;
      }
      k := k + 1;
    }
    return true;
  }

  /** The static list of global region verifiers. */
  class VerifierRegistry {
    var verifiers: seq<Location -> Verdict>

    constructor ()
      ensures verifiers == []
    {
      verifiers := [];
    }

    /** addGlobalRegionVerifier. */
    method Add(v: Location -> Verdict)
      modifies this
      ensures verifiers == old(verifiers) + [v]
    {
      verifiers := verifiers + [v];
    }

    /** clearGlobalRegionVerifiers. */
    method Clear()
      modifies this
      ensures verifiers == []
    {
      verifiers := [];
    }

    /**
     * checkGlobalRegionVerifiers: false when waiting for the lock is
     * interrupted, otherwise whether no verifier rejects the location.
     */
    method Check(loc: Location, interrupted: bool) returns (ok: bool)
      ensures ok <==> !interrupted && Accepts(verifiers, loc)
    {
      if interrupted {
        return false;
      }
      ok := CheckVerifiers(verifiers, loc);
    }
  }

  // ---------------------------------------------------------------------
  // The block safety scan around a location

  /**
   * What a safety scan needs besides the world: the radius of the
   * coordinate range it walks and the material names it refuses.
   */
  datatype Scope = Scope(radius: int, unsafe: set<string>)

  /** The scope of a selection's scan: the configured radius and the upper-cased unsafe names. */
  function SelectionScope(s: Settings): Scope
  {
    Scope(s.safetyRadius, UnsafeSet(s))
  }

  /**
   * The chunk the scan reads for block column (x, z): the candidate chunk
   * shifted by the chunk offset of the absolute coordinates. Away from the
   * origin chunk this is not the chunk that holds (x, z), so the scan does
   * not read the blocks around the location.
   */
  function ScanChunk(base: ChunkPos, x: int, z: int): ChunkPos
  {
    ChunkPos(base.x + ScanChunkOffset(x), base.z + ScanChunkOffset(z))
  }

  /** Whether the scan may read a chunk: the candidate chunk is at hand, any other must load. */
  predicate Available(t: Terrain, base: ChunkPos, cp: ChunkPos)
  {
    cp == base || t.scanLoads(cp)
  }

  predicate InHeight(t: Terrain, y: int)
  {
    t.minHeight <= y <= t.maxHeight
  }

  /** The block read for (x, y, z) is not an unsafe material. */
  predicate BlockSafe(t: Terrain, sc: Scope, base: ChunkPos, x: int, y: int, z: int)
  {
    t.material(ScanChunk(base, x, z), ScanLocal(x), y, ScanLocal(z)) !in sc.unsafe
  }

  function Then(a: ScanResult, b: ScanResult): ScanResult
  {
    if a == Safe then b else a
  }

  /** The scan order: x ascending, then z, then y, over [c - r, c + r) on each axis. */
  function Scan(t: Terrain, sc: Scope, base: ChunkPos, loc: Location): ScanResult
  {
    ScanX(t, sc, base, loc, loc.x - sc.radius)
  }

  function ScanX(t: Terrain, sc: Scope, base: ChunkPos, loc: Location, x: int): ScanResult
    decreases loc.x + sc.radius - x
  {
    if x >= loc.x + sc.radius then Safe
    else Then(ScanZ(t, sc, base, loc, x, loc.z - sc.radius), ScanX(t, sc, base, loc, x + 1))
  }

  function ScanZ(t: Terrain, sc: Scope, base: ChunkPos, loc: Location, x: int, z: int): ScanResult
    decreases loc.z + sc.radius - z
  {
    if z >= loc.z + sc.radius then Safe
    else if !Available(t, base, ScanChunk(base, x, z)) then ScanLoadFailed
    else Then(ScanY(t, sc, base, loc, x, z, loc.y - sc.radius), ScanZ(t, sc, base, loc, x, z + 1))
  }

  function ScanY(t: Terrain, sc: Scope, base: ChunkPos, loc: Location, x: int, z: int, y: int): ScanResult
    decreases loc.y + sc.radius - y
  {
    if y >= loc.y + sc.radius then Safe
    else if !InHeight(t, y) then ScanY(t, sc, base, loc, x, z, y + 1)
    else if !BlockSafe(t, sc, base, x, y, z) then Unsafe
    else ScanY(t, sc, base, loc, x, z, y + 1)
  }

  /** Every in-height block of column (x, z) from height y up is safe. */
  predicate ColumnSafeFrom(t: Terrain, sc: Scope, base: ChunkPos, loc: Location, x: int, z: int, y: int)
  {
    forall y' :: y <= y' < loc.y + sc.radius && InHeight(t, y') ==> BlockSafe(t, sc, base, x, y', z)
  }

  /** The chunk of column (x, z) is available and its scanned blocks are safe. */
  predicate ColumnSafe(t: Terrain, sc: Scope, base: ChunkPos, loc: Location, x: int, z: int)
  {
    Available(t, base, ScanChunk(base, x, z)) && ColumnSafeFrom(t, sc, base, loc, x, z, loc.y - sc.radius)
  }

  /** Every column of row x from z up passes. */
  predicate RowSafeFrom(t: Terrain, sc: Scope, base: ChunkPos, loc: Location, x: int, z: int)
  {
    forall z' :: z <= z' < loc.z + sc.radius ==> ColumnSafe(t, sc, base, loc, x, z')
  }

  /** Every column of row x passes. */
  predicate RowSafe(t: Terrain, sc: Scope, base: ChunkPos, loc: Location, x: int)
  {
    RowSafeFrom(t, sc, base, loc, x, loc.z - sc.radius)
  }

  /** Every row from x up passes. */
  predicate BoxSafeFrom(t: Terrain, sc: Scope, base: ChunkPos, loc: Location, x: int)
  {
    forall x' :: x <= x' < loc.x + sc.radius ==> RowSafe(t, sc, base, loc, x')
  }

  /** Every chunk the scan needs is available. */
  predicate ChunksAvailable(t: Terrain, sc: Scope, base: ChunkPos, loc: Location)
  {
    var r := sc.radius;
    forall x, z :: loc.x - r <= x < loc.x + r && loc.z - r <= z < loc.z + r ==>
      Available(t, base, ScanChunk(base, x, z))
  }

  /** Every in-height block the scan reads is safe. */
  predicate BlocksSafe(t: Terrain, sc: Scope, base: ChunkPos, loc: Location)
  {
    var r := sc.radius;
    forall x, y, z ::
      (loc.x - r <= x < loc.x + r && loc.y - r <= y < loc.y + r && loc.z - r <= z < loc.z + r && InHeight(t, y))
      ==> BlockSafe(t, sc, base, x, y, z)
  }

  lemma {:induction false} ScanYMeaning(t: Terrain, sc: Scope, base: ChunkPos, loc: Location, x: int, z: int, y: int)
    ensures ScanY(t, sc, base, loc, x, z, y) != ScanLoadFailed
    ensures ScanY(t, sc, base, loc, x, z, y) == Safe <==> ColumnSafeFrom(t, sc, base, loc, x, z, y)
    decreases loc.y + sc.radius - y
  {
    if y < loc.y + sc.radius {
      ScanYMeaning(t, sc, base, loc, x, z, y + 1);
    }
  }

  lemma {:induction false} ScanZMeaning(t: Terrain, sc: Scope, base: ChunkPos, loc: Location, x: int, z: int)
    ensures ScanZ(t, sc, base, loc, x, z) == Safe <==> RowSafeFrom(t, sc, base, loc, x, z)
    decreases loc.z + sc.radius - z
  {
    if z < loc.z + sc.radius {
      ScanZMeaning(t, sc, base, loc, x, z + 1);
      ScanYMeaning(t, sc, base, loc, x, z, loc.y - sc.radius);
      assert RowSafeFrom(t, sc, base, loc, x, z) <==>
             ColumnSafe(t, sc, base, loc, x, z) && RowSafeFrom(t, sc, base, loc, x, z + 1);
    }
  }

  lemma {:induction false} ScanXMeaning(t: Terrain, sc: Scope, base: ChunkPos, loc: Location, x: int)
    ensures ScanX(t, sc, base, loc, x) == Safe <==> BoxSafeFrom(t, sc, base, loc, x)
    decreases loc.x + sc.radius - x
  {
    if x < loc.x + sc.radius {
      ScanXMeaning(t, sc, base, loc, x + 1);
      ScanZMeaning(t, sc, base, loc, x, loc.z - sc.radius);
      assert BoxSafeFrom(t, sc, base, loc, x) <==>
             RowSafe(t, sc, base, loc, x) && BoxSafeFrom(t, sc, base, loc, x + 1);
    }
  }

  /** A passing scan needed every chunk and found every scanned block safe. */
  lemma ScanSafeSound(t: Terrain, sc: Scope, base: ChunkPos, loc: Location)
    requires Scan(t, sc, base, loc) == Safe
    ensures ChunksAvailable(t, sc, base, loc) && BlocksSafe(t, sc, base, loc)
  {
    var r := sc.radius;
    ScanXMeaning(t, sc, base, loc, loc.x - r);
    forall x, y, z | loc.x - r <= x < loc.x + r && loc.y - r <= y < loc.y + r && loc.z - r <= z < loc.z + r && InHeight(t, y)
      ensures BlockSafe(t, sc, base, x, y, z)
    {
      assert RowSafe(t, sc, base, loc, x);
      assert ColumnSafe(t, sc, base, loc, x, z);
    }
    forall x, z | loc.x - r <= x < loc.x + r && loc.z - r <= z < loc.z + r
      ensures Available(t, base, ScanChunk(base, x, z))
    {
      assert RowSafe(t, sc, base, loc, x);
      assert ColumnSafe(t, sc, base, loc, x, z);
    }
  }

  /** When every chunk is available and every scanned block is safe, the scan passes. */
  lemma ScanSafeComplete(t: Terrain, sc: Scope, base: ChunkPos, loc: Location)
    requires ChunksAvailable(t, sc, base, loc) && BlocksSafe(t, sc, base, loc)
    ensures Scan(t, sc, base, loc) == Safe
  {
    var r := sc.radius;
    forall x' | loc.x - r <= x' < loc.x + r
      ensures RowSafe(t, sc, base, loc, x')
    {
      forall z' | loc.z - r <= z' < loc.z + r
        ensures ColumnSafe(t, sc, base, loc, x', z')
      {
        assert Available(t, base, ScanChunk(base, x', z'));
      }
    }
    ScanXMeaning(t, sc, base, loc, loc.x - r);
  }

  /**
   * The scan passes exactly when every chunk it needs is available and
   * every in-height block it reads for the coordinates [c - r, c + r)
   * around the location (in the chunk `ScanChunk` gives) is of a safe
   * material.
   */
  lemma ScanSafeIff(t: Terrain, sc: Scope, base: ChunkPos, loc: Location)
    ensures Scan(t, sc, base, loc) == Safe <==> ChunksAvailable(t, sc, base, loc) && BlocksSafe(t, sc, base, loc)
  {
    if Scan(t, sc, base, loc) == Safe {
      ScanSafeSound(t, sc, base, loc);
    }
    if ChunksAvailable(t, sc, base, loc) && BlocksSafe(t, sc, base, loc) {
      ScanSafeComplete(t, sc, base, loc);
    }
  }

  /** With a safety radius of zero or less the scan reads nothing and every location passes. */
  lemma ScanEmptyRadius(t: Terrain, sc: Scope, base: ChunkPos, loc: Location)
    requires sc.radius <= 0
    ensures Scan(t, sc, base, loc) == Safe
  {
  }

  /** The y loop of the scan over one column, reading chunk `cp` at in-chunk (xx, zz). */
  method ScanColumn(t: Terrain, sc: Scope, base: ChunkPos, loc: Location, x: int, z: int,
                    cp: ChunkPos, xx: int, zz: int, unsafeBlocks: set<string>) returns (pass: bool)
    requires cp == ScanChunk(base, x, z) && xx == ScanLocal(x) && zz == ScanLocal(z)
    requires unsafeBlocks == sc.unsafe
    ensures pass ==> ScanY(t, sc, base, loc, x, z, loc.y - sc.radius) == Safe
    ensures !pass ==> ScanY(t, sc, base, loc, x, z, loc.y - sc.radius) == Unsafe
  {
    pass := true;
    var y := loc.y - sc.radius;
    while y < loc.y + sc.radius && pass
      invariant pass ==> ScanY(t, sc, base, loc, x, z, y) == ScanY(t, sc, base, loc, x, z, loc.y - sc.radius)
      invariant !pass ==> ScanY(t, sc, base, loc, x, z, loc.y - sc.radius) == Unsafe
      decreases loc.y + sc.radius - y
    {
      if y > t.maxHeight || y < t.minHeight {
        y := y + 1;
        continue;
      }
      if t.material(cp, xx, y, zz) in unsafeBlocks {
        pass := false;
      }
      y := y + 1;
    }
  }

  /**
   * The z loop of the scan over one row: each further chunk is fetched once
   * and remembered in `held`.
   */
  method ScanRow(t: Terrain, sc: Scope, base: ChunkPos, loc: Location, x: int,
                 held: set<ChunkPos>, unsafeBlocks: set<string>) returns (r: ScanResult, held': set<ChunkPos>)
    requires base in held && forall cp :: cp in held ==> Available(t, base, cp)
    requires unsafeBlocks == sc.unsafe
    ensures r == ScanZ(t, sc, base, loc, x, loc.z - sc.radius)
    ensures base in held' && forall cp :: cp in held' ==> Available(t, base, cp)
  {
    held' := held;
    var chunkX := base.x + ScanChunkOffset(x);
    var xx := ScanLocal(x);
    var z := loc.z - sc.radius;
    while z < loc.z + sc.radius
      invariant ScanZ(t, sc, base, loc, x, z) == ScanZ(t, sc, base, loc, x, loc.z - sc.radius)
      invariant base in held' && forall cp :: cp in held' ==> Available(t, base, cp)
      decreases loc.z + sc.radius - z
    {
      var zz := ScanLocal(z);
      var cp := ChunkPos(chunkX, base.z + ScanChunkOffset(z));
      assert cp == ScanChunk(base, x, z);
      if cp !in held' {
        if !t.scanLoads(cp) {
          return ScanLoadFailed, held';
        }
        held' := held' + {cp};
      }
      var pass := ScanColumn(t, sc, base, loc, x, z, cp, xx, zz, unsafeBlocks);
      if !pass {
        return Unsafe, held';
      }
      z := z + 1;
    }
    r := Safe;
  }

  /**
   * The safety scan as the source runs it: nested loops over x, z and y,
   * fetching each further chunk once, and stopping at the first unsafe
   * block or failed fetch.
   */
  method SafetyScan(t: Terrain, sc: Scope, base: ChunkPos, loc: Location) returns (r: ScanResult)
    ensures r == Scan(t, sc, base, loc)
  {
    var unsafeBlocks := sc.unsafe;
    var held: set<ChunkPos> := {base};
    var x := loc.x - sc.radius;
    while x < loc.x + sc.radius
      invariant ScanX(t, sc, base, loc, x) == Scan(t, sc, base, loc)
      invariant base in held && forall cp :: cp in held ==> Available(t, base, cp)
      decreases loc.x + sc.radius - x
    {
      var row;
      row, held := ScanRow(t, sc, base, loc, x, held, unsafeBlocks);
      if row != Safe {
        return row;
      }
      x := x + 1;
    }
    r := Safe;
  }

  // ---------------------------------------------------------------------
  // The selection loop

  /** The loop variables of the selection. */
  datatype Counters = Counters(i: int, maxAttempts: int, biomeChecks: int, borderFails: int, draws: nat, location: Option<Location>)

  /**
   * What the loop keeps: the attempt counter stays within one past the
   * budget, the budget is the base plus one per biome failure after
   * adjustment or per inner redraw plus one per border failure, and both
   * failure counts stay within their limits.
   */
  predicate Inv(s: Settings, c: Counters)
  {
    1 <= c.i <= c.maxAttempts + 1 &&
    0 <= c.biomeChecks <= MaxBiome(s) &&
    0 <= c.borderFails <= MAX_BORDER_FAILS &&
    c.maxAttempts == Base(s) + c.biomeChecks + c.borderFails
  }

  function Start(s: Settings): Counters
  {
    Counters(1, Base(s), 0, 0, 0, None)
  }

  function Finish(c: Counters, e: Exit): SelResult
  {
    SelResult(e, c.location, Min(c.i, c.maxAttempts))
  }

  /**
   * The selection. With `fix` false this is the source as written; with
   * `fix` true, a location whose own biome is not wanted is also forgotten,
   * as every other rejected location is.
   */
  function Select(t: Terrain, s: Settings, fix: bool): SelResult
  {
    if !s.hasShape then SelResult(NoShape, None, 0)
    else if !s.hasVert then SelResult(NoVert, None, 0)
    else Outer(t, s, fix, Start(s))
  }

  /** The head of the outer loop: budget check, then the first draw of the attempt. */
  function Outer(t: Terrain, s: Settings, fix: bool, c: Counters): SelResult
    requires Inv(s, c)
    decreases MaxBiome(s) - c.biomeChecks, MAX_BORDER_FAILS - c.borderFails, c.maxAttempts + 1 - c.i, 2
  {
    if c.i > c.maxAttempts then Finish(c, Exhausted)
    else match t.draw(c.draws)
      case None => SelResult(RecallFailed, None, c.i)
      case Some(sel) =>
        Inner(t, s, fix, c.(draws := c.draws + 1), sel, t.biome(sel.x * 16 + 7, Mid(t), sel.z * 16 + 7))
  }

  /** The inner loop: redraw while the centre biome is unwanted and the biome budget lasts. */
  function Inner(t: Terrain, s: Settings, fix: bool, c: Counters, sel: ChunkPos, b: string): SelResult
    requires Inv(s, c) && c.i <= c.maxAttempts
    decreases MaxBiome(s) - c.biomeChecks, MAX_BORDER_FAILS - c.borderFails, c.maxAttempts + 1 - c.i, 1
  {
    if c.biomeChecks < MaxBiome(s) && b !in Names(s) then
      match t.draw(c.draws)
      case None => SelResult(RecallFailed, None, c.i)
      case Some(sel') =>
        Inner(t, s, fix,
              c.(draws := c.draws + 1, biomeChecks := c.biomeChecks + 1, maxAttempts := c.maxAttempts + 1, i := c.i + 1),
              sel', t.biome(sel'.x * 16 + 7, Mid(t), sel'.z * 16 + 7))
    else After(t, s, fix, c, sel)
  }

  /** What examining a drawn chunk inside the border gives. */
  datatype Examined =
    | FetchFailed               // the chunk's future failed
    | FetchedNull               // the chunk was null
    | NotAdjusted               // the vertical adjustor found no location
    | WrongBiome(loc: Location) // the adjusted location's own biome is unwanted
    | ScanBroken                // a chunk of the safety scan failed to load
    | Refused                   // an unsafe block nearby, or a verifier rejected it
    | Found(loc: Location)      // the location passed every check

  /** Fetch the chunk, adjust vertically, check the location's biome, scan, verify. */
  function Examine(t: Terrain, s: Settings, sel: ChunkPos): Examined
  {
    match t.load(sel)
    case LoadFailed => FetchFailed
    case NullChunk => FetchedNull
    case Loaded =>
      match t.adjust(sel)
      case None => NotAdjusted
      case Some(loc) =>
        if t.biome(loc.x, loc.y, loc.z) !in Names(s) then WrongBiome(loc)
        else
          var scan := Scan(t, SelectionScope(s), sel, loc);
          if scan == ScanLoadFailed then ScanBroken
          else if scan == Safe && Accepts(t.verifiers, loc) then Found(loc)
          else Refused
  }

  /** The rest of an attempt once the centre biome is settled. */
  function After(t: Terrain, s: Settings, fix: bool, c: Counters, sel: ChunkPos): SelResult
    requires Inv(s, c) && c.i <= c.maxAttempts
    decreases MaxBiome(s) - c.biomeChecks, MAX_BORDER_FAILS - c.borderFails, c.maxAttempts + 1 - c.i, 0
  {
    if c.biomeChecks >= MaxBiome(s) then Finish(c, BiomeBudget)
    else if !t.inside(sel.x * 16, Mid(t), sel.z * 16) then
      if c.borderFails + 1 > MAX_BORDER_FAILS then SelResult(BorderAbort, None, c.i)
      else Outer(t, s, fix, c.(maxAttempts := c.maxAttempts + 1, borderFails := c.borderFails + 1, i := c.i + 1))
    else match Examine(t, s, sel)
      case FetchFailed => SelResult(ChunkFailed, None, c.i)
      case FetchedNull => SelResult(NullChunk_, None, c.i)
      case NotAdjusted => Outer(t, s, fix, c.(location := None, i := c.i + 1))
      case WrongBiome(loc) =>
        Outer(t, s, fix, c.(biomeChecks := c.biomeChecks + 1, maxAttempts := c.maxAttempts + 1, i := c.i + 1,
                             location := if fix then None else Some(loc)))
      case ScanBroken => SelResult(ScanFailed, None, c.i)
      case Refused => Outer(t, s, fix, c.(location := None, i := c.i + 1))
      case Found(loc) => Finish(c.(location := Some(loc)), Passed)
  }

  /**
   * The part of an attempt after the border check, as the source runs it:
   * fetch the chunk, adjust, check the location's biome, scan and verify.
   */
  method ExamineCandidate(t: Terrain, s: Settings, sel: ChunkPos) returns (e: Examined)
    ensures e == Examine(t, s, sel)
  {
    var chunk := t.load(sel);
    if chunk == LoadFailed {
      return FetchFailed;
    }
    if chunk == NullChunk {
      return FetchedNull;
    }
    var location := t.adjust(sel);
    if location.None? {
      return NotAdjusted;
    }
    var loc := location.value;
    var currBiome := t.biome(loc.x, loc.y, loc.z);
    if currBiome !in Names(s) {
      return WrongBiome(loc);
    }
    var scan := SafetyScan(t, SelectionScope(s), sel, loc);
    if scan == ScanLoadFailed {
      return ScanBroken;
    }
    var verified := CheckVerifiers(t.verifiers, loc);
    if scan == Safe && verified {
      return Found(loc);
    }
    return Refused;
  }

  /** One attempt either hands the loop its next counters or ends the selection. */
  datatype AttemptOutcome = Next(c: Counters) | Done(r: SelResult)

  /** The loop's termination measure drops from c to c'. */
  predicate Progress(c: Counters, c': Counters)
  {
    c'.biomeChecks > c.biomeChecks ||
    (c'.biomeChecks == c.biomeChecks &&
      (c'.borderFails > c.borderFails ||
        (c'.borderFails == c.borderFails && c'.maxAttempts - c'.i < c.maxAttempts - c.i)))
  }

  /** A drawn candidate whose centre biome is settled, or a forced biome recall that failed. */
  datatype Drawn = Drawn(c: Counters, sel: ChunkPos) | RecallMissed(i: int)

  /**
   * The start of an attempt: the first draw, then the inner for-loop that
   * redraws while the centre biome is unwanted and the biome budget lasts,
   * counting each redraw as a biome check and an extra attempt.
   */
  method DrawCandidate(t: Terrain, s: Settings, c: Counters) returns (d: Drawn)
    requires Inv(s, c) && c.i <= c.maxAttempts
    ensures d.RecallMissed? ==> Outer(t, s, false, c) == SelResult(RecallFailed, None, d.i)
    ensures d.Drawn? ==> Inv(s, d.c) && d.c.i <= d.c.maxAttempts
    ensures d.Drawn? ==> After(t, s, false, d.c, d.sel) == Outer(t, s, false, c)
    ensures d.Drawn? ==> d.c.borderFails == c.borderFails && d.c.location == c.location
    ensures d.Drawn? ==> c.biomeChecks <= d.c.biomeChecks &&
                         (d.c.biomeChecks == c.biomeChecks ==> d.c.i == c.i && d.c.maxAttempts == c.maxAttempts)
  {
    var names := Names(s);
    var maxBiomeChecks := MaxBiome(s);
    var mid := JavaDiv(t.minY + t.maxY, 2);
    var i, maxAttempts, biomeChecks, draws := c.i, c.maxAttempts, c.biomeChecks, c.draws;
    var pick := t.draw(draws);
    if pick.None? {
      return RecallMissed(i);
    }
    var sel := pick.value;
    draws := draws + 1;
    var currBiome := t.biome(sel.x * 16 + 7, mid, sel.z * 16 + 7);
    while biomeChecks < maxBiomeChecks && currBiome !in names
      invariant Inv(s, Counters(i, maxAttempts, biomeChecks, c.borderFails, draws, c.location)) && i <= maxAttempts
      invariant c.biomeChecks <= biomeChecks && (biomeChecks == c.biomeChecks ==> i == c.i && maxAttempts == c.maxAttempts)
      invariant Inner(t, s, false, Counters(i, maxAttempts, biomeChecks, c.borderFails, draws, c.location), sel, currBiome)
                == Outer(t, s, false, c)
      decreases maxBiomeChecks - biomeChecks
    {
      pick := t.draw(draws);
      if pick.None? {
        return RecallMissed(i);
      }
      sel := pick.value;
      draws := draws + 1;
      currBiome := t.biome(sel.x * 16 + 7, mid, sel.z * 16 + 7);
      biomeChecks, maxAttempts, i := biomeChecks + 1, maxAttempts + 1, i + 1;
    }
    return Drawn(Counters(i, maxAttempts, biomeChecks, c.borderFails, draws, c.location), sel);
  }

  /**
   * One pass of the outer for-loop body of getLocation(biomeNames): draw a
   * candidate, then the border check and the examination of the candidate.
   * `continue` hands back the counters with the loop's `i++` applied;
   * `break` and `return` end the selection.
   */
  method Attempt(t: Terrain, s: Settings, c: Counters) returns (o: AttemptOutcome)
    requires Inv(s, c) && c.i <= c.maxAttempts
    ensures o.Done? ==> o.r == Outer(t, s, false, c)
    ensures o.Next? ==> Inv(s, o.c) && Outer(t, s, false, o.c) == Outer(t, s, false, c) && Progress(c, o.c)
  {
    var d := DrawCandidate(t, s, c);
    if d.RecallMissed? {
      return Done(SelResult(RecallFailed, None, d.i));
    }
    var here, sel := d.c, d.sel;
    var i, maxAttempts, biomeChecks, borderFails, draws := here.i, here.maxAttempts, here.biomeChecks, here.borderFails, here.draws;
    if biomeChecks >= MaxBiome(s) {
      return Done(Finish(here, BiomeBudget));
    }
    if !t.inside(sel.x * 16, Mid(t), sel.z * 16) {
      maxAttempts := maxAttempts + 1;
      var fails := borderFails + 1;
      if fails > MAX_BORDER_FAILS {
        return Done(SelResult(BorderAbort, None, i));
      }
      borderFails := fails;
      return Next(here.(i := i + 1, maxAttempts := maxAttempts, borderFails := borderFails));
    }
    var examined := ExamineCandidate(t, s, sel);
    match examined
    case FetchFailed =>
      return Done(SelResult(ChunkFailed, None, i));
    case FetchedNull =>
      return Done(SelResult(NullChunk_, None, i));
    case NotAdjusted =>
      return Next(here.(i := i + 1, location := None));
    case WrongBiome(loc) =>
      return Next(here.(i := i + 1, maxAttempts := maxAttempts + 1, biomeChecks := biomeChecks + 1, location := Some(loc)));
    case ScanBroken =>
      return Done(SelResult(ScanFailed, None, i));
    case Refused =>
      return Next(here.(i := i + 1, location := None));
    case Found(loc) =>
      return Done(Finish(here.(location := Some(loc)), Passed));
  }

  /**
   * getLocation(biomeNames) as written: the outer for-loop over attempts,
   * which ends when the attempt budget (itself growing) runs out or an
   * attempt breaks out or returns.
   */
  method SelectLocation(t: Terrain, s: Settings) returns (r: SelResult)
    ensures r == Select(t, s, false)
  {
    if !s.hasShape {
      return SelResult(NoShape, None, 0);
    }
    if !s.hasVert {
      return SelResult(NoVert, None, 0);
    }
    var maxAttemptsBase := Max(s.maxAttemptsConfig, 1);
    var c := Counters(1, maxAttemptsBase, 0, 0, 0, None);
    while c.i <= c.maxAttempts
      invariant Inv(s, c)
      invariant Outer(t, s, false, c) == Select(t, s, false)
      decreases MaxBiome(s) - c.biomeChecks, MAX_BORDER_FAILS - c.borderFails, c.maxAttempts + 1 - c.i
    {
      var o := Attempt(t, s, c);
      if o.Done? {
        return o.r;
      }
      c := o.c;
    }
    r := Finish(c, Exhausted);
  }

  // ---------------------------------------------------------------------
  // What a selection guarantees

  /** A location some drawn chunk inside the border yields and that passes every check. */
  ghost predicate Acceptable(t: Terrain, s: Settings, loc: Location)
  {
    exists sel: ChunkPos :: t.inside(sel.x * 16, Mid(t), sel.z * 16) && Examine(t, s, sel) == Found(loc)
  }

  /** The checks a found location has passed. */
  lemma FoundPassedChecks(t: Terrain, s: Settings, sel: ChunkPos, loc: Location)
    requires Examine(t, s, sel) == Found(loc)
    ensures t.load(sel) == Loaded && t.adjust(sel) == Some(loc)
    ensures t.biome(loc.x, loc.y, loc.z) in Names(s)
    ensures ChunksAvailable(t, SelectionScope(s), sel, loc) && BlocksSafe(t, SelectionScope(s), sel, loc)
    ensures Accepts(t.verifiers, loc)
  {
    ScanSafeSound(t, SelectionScope(s), sel, loc);
  }

  /** The largest number of attempts a selection can report. */
  function AttemptBound(s: Settings): int
  {
    Base(s) + MaxBiome(s) + MAX_BORDER_FAILS
  }

  /**
   * The facts every pair a selection returns satisfies: the attempt count
   * is between 1 and the bound, a passing location is acceptable, and a
   * location is reported only on a pass, or (as written) when the biome
   * budget ran out.
   */
  ghost predicate Sound(t: Terrain, s: Settings, fix: bool, r: SelResult)
  {
    1 <= r.attempts <= AttemptBound(s) &&
    (r.exit == Passed ==> r.location.Some? && Acceptable(t, s, r.location.value)) &&
    (r.location.Some? ==> r.exit == Passed || (!fix && r.exit == BiomeBudget))
  }

  /** What the induction over the loop carries besides the loop invariant. */
  predicate Carried(fix: bool, c: Counters)
  {
    (c.i > c.maxAttempts ==> c.location.None?) && (fix ==> c.location.None?)
  }

  lemma {:induction false} OuterSound(t: Terrain, s: Settings, fix: bool, c: Counters)
    requires Inv(s, c) && Carried(fix, c)
    ensures Sound(t, s, fix, Outer(t, s, fix, c))
    decreases MaxBiome(s) - c.biomeChecks, MAX_BORDER_FAILS - c.borderFails, c.maxAttempts + 1 - c.i, 3
  {
    if c.i <= c.maxAttempts && t.draw(c.draws).Some? {
      var sel := t.draw(c.draws).value;
      InnerSound(t, s, fix, c.(draws := c.draws + 1), sel, t.biome(sel.x * 16 + 7, Mid(t), sel.z * 16 + 7));
    }
  }

  lemma {:induction false} InnerSound(t: Terrain, s: Settings, fix: bool, c: Counters, sel: ChunkPos, b: string)
    requires Inv(s, c) && c.i <= c.maxAttempts && Carried(fix, c)
    ensures Sound(t, s, fix, Inner(t, s, fix, c, sel, b))
    decreases MaxBiome(s) - c.biomeChecks, MAX_BORDER_FAILS - c.borderFails, c.maxAttempts + 1 - c.i, 2
  {
    if c.biomeChecks < MaxBiome(s) && b !in Names(s) {
      if t.draw(c.draws).Some? {
        var sel' := t.draw(c.draws).value;
        InnerSound(t, s, fix,
                   c.(draws := c.draws + 1, biomeChecks := c.biomeChecks + 1, maxAttempts := c.maxAttempts + 1, i := c.i + 1),
                   sel', t.biome(sel'.x * 16 + 7, Mid(t), sel'.z * 16 + 7));
      }
    } else {
      AfterSound(t, s, fix, c, sel);
    }
  }

  lemma {:induction false} AfterSound(t: Terrain, s: Settings, fix: bool, c: Counters, sel: ChunkPos)
    requires Inv(s, c) && c.i <= c.maxAttempts && Carried(fix, c)
    ensures Sound(t, s, fix, After(t, s, fix, c, sel))
    decreases MaxBiome(s) - c.biomeChecks, MAX_BORDER_FAILS - c.borderFails, c.maxAttempts + 1 - c.i, 1
  {
    if c.biomeChecks >= MaxBiome(s) {
    } else if !t.inside(sel.x * 16, Mid(t), sel.z * 16) {
      if c.borderFails + 1 <= MAX_BORDER_FAILS {
        OuterSound(t, s, fix, c.(maxAttempts := c.maxAttempts + 1, borderFails := c.borderFails + 1, i := c.i + 1));
      }
    } else {
      InsideSound(t, s, fix, c, sel);
    }
  }

  lemma {:induction false} InsideSound(t: Terrain, s: Settings, fix: bool, c: Counters, sel: ChunkPos)
    requires Inv(s, c) && c.i <= c.maxAttempts && Carried(fix, c)
    requires c.biomeChecks < MaxBiome(s) && t.inside(sel.x * 16, Mid(t), sel.z * 16)
    ensures Sound(t, s, fix, After(t, s, fix, c, sel))
    decreases MaxBiome(s) - c.biomeChecks, MAX_BORDER_FAILS - c.borderFails, c.maxAttempts + 1 - c.i, 0
  {
    var r := After(t, s, fix, c, sel);
    match Examine(t, s, sel)
    case FetchFailed =>
      assert r == SelResult(ChunkFailed, None, c.i);
    case FetchedNull =>
      assert r == SelResult(NullChunk_, None, c.i);
    case NotAdjusted =>
      var c' := c.(location := None, i := c.i + 1);
      assert r == Outer(t, s, fix, c');
      OuterSound(t, s, fix, c');
    case WrongBiome(loc) =>
      var c' := c.(biomeChecks := c.biomeChecks + 1, maxAttempts := c.maxAttempts + 1, i := c.i + 1,
                   location := if fix then None else Some(loc));
      assert r == Outer(t, s, fix, c');
      OuterSound(t, s, fix, c');
    case ScanBroken =>
      assert r == SelResult(ScanFailed, None, c.i);
    case Refused =>
      var c' := c.(location := None, i := c.i + 1);
      assert r == Outer(t, s, fix, c');
      OuterSound(t, s, fix, c');
    case Found(loc) =>
      assert r == Finish(c.(location := Some(loc)), Passed);
      assert Acceptable(t, s, loc);
  }

  /**
   * Every pair a selection returns reports between 1 and AttemptBound(s)
   * attempts; a location that passed is one a drawn chunk inside the border
   * yields with a wanted biome, a safe neighbourhood and no verifier
   * against it; and as written a location can also come back when the
   * biome budget runs out, while with the fix only a passing one comes back.
   */
  lemma SelectSound(t: Terrain, s: Settings, fix: bool)
    requires s.hasShape && s.hasVert
    ensures Sound(t, s, fix, Select(t, s, fix))
  {
    OuterSound(t, s, fix, Start(s));
  }

  /** The stale-location fix: a selection that ran out of biome checks reports no location. */
  function Checked(r: SelResult): (r': SelResult)
    ensures r'.exit == r.exit && r'.attempts == r.attempts
    ensures r.exit != BiomeBudget ==> r' == r
    ensures r.exit == BiomeBudget ==> r'.location.None?
  {
    if r.exit == BiomeBudget then r.(location := None) else r
  }

  lemma {:induction false} OuterFix(t: Terrain, s: Settings, c: Counters)
    requires Inv(s, c) && Carried(false, c)
    ensures Outer(t, s, true, c.(location := None)) == Checked(Outer(t, s, false, c))
    decreases MaxBiome(s) - c.biomeChecks, MAX_BORDER_FAILS - c.borderFails, c.maxAttempts + 1 - c.i, 3
  {
    if c.i <= c.maxAttempts && t.draw(c.draws).Some? {
      var sel := t.draw(c.draws).value;
      InnerFix(t, s, c.(draws := c.draws + 1), sel, t.biome(sel.x * 16 + 7, Mid(t), sel.z * 16 + 7));
      assert c.(location := None).(draws := c.draws + 1) == c.(draws := c.draws + 1).(location := None);
    }
  }

  lemma {:induction false} InnerFix(t: Terrain, s: Settings, c: Counters, sel: ChunkPos, b: string)
    requires Inv(s, c) && c.i <= c.maxAttempts && Carried(false, c)
    ensures Inner(t, s, true, c.(location := None), sel, b) == Checked(Inner(t, s, false, c, sel, b))
    decreases MaxBiome(s) - c.biomeChecks, MAX_BORDER_FAILS - c.borderFails, c.maxAttempts + 1 - c.i, 2
  {
    if c.biomeChecks < MaxBiome(s) && b !in Names(s) {
      if t.draw(c.draws).Some? {
        var sel' := t.draw(c.draws).value;
        var c' := c.(draws := c.draws + 1, biomeChecks := c.biomeChecks + 1, maxAttempts := c.maxAttempts + 1, i := c.i + 1);
        InnerFix(t, s, c', sel', t.biome(sel'.x * 16 + 7, Mid(t), sel'.z * 16 + 7));
        assert c.(location := None).(draws := c.draws + 1, biomeChecks := c.biomeChecks + 1, maxAttempts := c.maxAttempts + 1, i := c.i + 1)
               == c'.(location := None);
      }
    } else {
      AfterFix(t, s, c, sel);
    }
  }

  lemma {:induction false} AfterFix(t: Terrain, s: Settings, c: Counters, sel: ChunkPos)
    requires Inv(s, c) && c.i <= c.maxAttempts && Carried(false, c)
    ensures After(t, s, true, c.(location := None), sel) == Checked(After(t, s, false, c, sel))
    decreases MaxBiome(s) - c.biomeChecks, MAX_BORDER_FAILS - c.borderFails, c.maxAttempts + 1 - c.i, 1
  {
    var n := c.(location := None);
    if c.biomeChecks >= MaxBiome(s) {
    } else if !t.inside(sel.x * 16, Mid(t), sel.z * 16) {
      if c.borderFails + 1 <= MAX_BORDER_FAILS {
        var c' := c.(maxAttempts := c.maxAttempts + 1, borderFails := c.borderFails + 1, i := c.i + 1);
        OuterFix(t, s, c');
        assert n.(maxAttempts := c.maxAttempts + 1, borderFails := c.borderFails + 1, i := c.i + 1) == c'.(location := None);
      }
    } else {
      InsideFix(t, s, c, sel);
    }
  }

  lemma {:induction false} InsideFix(t: Terrain, s: Settings, c: Counters, sel: ChunkPos)
    requires Inv(s, c) && c.i <= c.maxAttempts && Carried(false, c)
    requires c.biomeChecks < MaxBiome(s) && t.inside(sel.x * 16, Mid(t), sel.z * 16)
    ensures After(t, s, true, c.(location := None), sel) == Checked(After(t, s, false, c, sel))
    decreases MaxBiome(s) - c.biomeChecks, MAX_BORDER_FAILS - c.borderFails, c.maxAttempts + 1 - c.i, 0
  {
    var n := c.(location := None);
    match Examine(t, s, sel)
    case FetchFailed =>
    case FetchedNull =>
    case NotAdjusted =>
      OuterFix(t, s, c.(location := None, i := c.i + 1));
      assert n.(location := None, i := c.i + 1) == c.(location := None, i := c.i + 1).(location := None);
    case WrongBiome(loc) =>
      var c' := c.(biomeChecks := c.biomeChecks + 1, maxAttempts := c.maxAttempts + 1, i := c.i + 1, location := Some(loc));
      OuterFix(t, s, c');
      assert n.(biomeChecks := c.biomeChecks + 1, maxAttempts := c.maxAttempts + 1, i := c.i + 1, location := None)
             == c'.(location := None);
    case ScanBroken =>
    case Refused =>
      OuterFix(t, s, c.(location := None, i := c.i + 1));
      assert n.(location := None, i := c.i + 1) == c.(location := None, i := c.i + 1).(location := None);
    case Found(loc) =>
  }

  /**
   * Forgetting a location whose own biome is unwanted, as every other
   * rejected location is forgotten, changes the selection only by dropping
   * the stale location it reported when the biome budget ran out.
   */
  lemma FixIsChecked(t: Terrain, s: Settings)
    ensures Select(t, s, true) == Checked(Select(t, s, false))
  {
    if s.hasShape && s.hasVert {
      OuterFix(t, s, Start(s));
    }
  }

  /**
   * getLocation(biomeNames) with the stale location dropped: every location
   * it reports passed every check.
   */
  method SelectCheckedLocation(t: Terrain, s: Settings) returns (r: SelResult)
    ensures r == Select(t, s, true)
    ensures r.location.Some? ==> r.exit == Passed && Acceptable(t, s, r.location.value)
  {
    r := SelectLocation(t, s);
    if r.exit == BiomeBudget {
      r := r.(location := None);
    }
    FixIsChecked(t, s);
    if s.hasShape && s.hasVert {
      SelectSound(t, s, true);
    }
  }

  /**
   * When every draw's centre biome is wanted but the world border contains
   * none of them, the selection gives up on the 1001st border failure with
   * no location and 1001 attempts, whatever the attempt budget.
   */
  lemma BorderGivesUp(t: Terrain, s: Settings, fix: bool)
    requires s.hasShape && s.hasVert && MaxBiome(s) > 0
    requires forall k :: t.draw(k).Some?
    requires forall k :: t.biome(t.draw(k).value.x * 16 + 7, Mid(t), t.draw(k).value.z * 16 + 7) in Names(s)
    requires forall x, y, z :: !t.inside(x, y, z)
    ensures Select(t, s, fix) == SelResult(BorderAbort, None, MAX_BORDER_FAILS + 1)
  {
    BorderLoop(t, s, fix, 0);
  }

  lemma {:induction false} BorderLoop(t: Terrain, s: Settings, fix: bool, f: nat)
    requires MaxBiome(s) > 0 && f <= MAX_BORDER_FAILS
    requires forall k :: t.draw(k).Some?
    requires forall k :: t.biome(t.draw(k).value.x * 16 + 7, Mid(t), t.draw(k).value.z * 16 + 7) in Names(s)
    requires forall x, y, z :: !t.inside(x, y, z)
    ensures Outer(t, s, fix, Counters(1 + f, Base(s) + f, 0, f, f, None)) == SelResult(BorderAbort, None, MAX_BORDER_FAILS + 1)
    decreases MAX_BORDER_FAILS - f
  {
    var c := Counters(1 + f, Base(s) + f, 0, f, f, None);
    var sel := t.draw(f).value;
    var b := t.biome(sel.x * 16 + 7, Mid(t), sel.z * 16 + 7);
    assert Outer(t, s, fix, c) == Inner(t, s, fix, c.(draws := f + 1), sel, b);
    assert Inner(t, s, fix, c.(draws := f + 1), sel, b) == After(t, s, fix, c.(draws := f + 1), sel);
    if f < MAX_BORDER_FAILS {
      BorderLoop(t, s, fix, f + 1);
      assert c.(draws := f + 1).(maxAttempts := Base(s) + f + 1, borderFails := f + 1, i := f + 2)
             == Counters(1 + (f + 1), Base(s) + (f + 1), 0, f + 1, f + 1, None);
    }
  }

  /**
   * The world of the stale-location example: every draw is chunk (0, 0),
   * whose centre column is plains; the vertical adjustor picks (3, 64, 3),
   * which stands in an ocean.
   */
  function StaleTerrain(): Terrain
  {
    Terrain(
      k => Some(ChunkPos(0, 0)),
      (x, y, z) => if x == 7 then "PLAINS" else "OCEAN",
      (x, y, z) => true,
      p => Loaded,
      p => Some(Location("world", 3, 64, 3)),
      p => true,
      (p, x, y, z) => "STONE",
      0, 128, -64, 320, [])
  }

  /** One attempt allowed, one biome check per attempt, default biomes {PLAINS}. */
  function StaleSettings(): Settings
  {
    Settings({}, false, {}, {"PLAINS"}, {}, 0, 1, 1, true, true)
  }

  lemma StaleNames()
    ensures Names(StaleSettings()) == {"PLAINS"}
  {
    assert Upper("PLAINS") == "PLAINS";
  }

  /** The adjusted location of the example is in an unwanted biome. */
  lemma StaleExamine()
    ensures Mid(StaleTerrain()) == 64 && MaxBiome(StaleSettings()) == 1 && Base(StaleSettings()) == 1
    ensures StaleTerrain().biome(7, 64, 7) in Names(StaleSettings())
    ensures Examine(StaleTerrain(), StaleSettings(), ChunkPos(0, 0)) == WrongBiome(Location("world", 3, 64, 3))
  {
    StaleNames();
  }

  /** The first attempt of the example misses the biome and remembers the location. */
  lemma StaleFirstAttempt(fix: bool)
    ensures Select(StaleTerrain(), StaleSettings(), fix)
            == Outer(StaleTerrain(), StaleSettings(), fix,
                     Counters(2, 2, 1, 0, 1, if fix then None else Some(Location("world", 3, 64, 3))))
  {
    var t, s := StaleTerrain(), StaleSettings();
    var sel := ChunkPos(0, 0);
    StaleExamine();
    var c1 := Counters(1, 1, 0, 0, 1, None);
    assert Select(t, s, fix) == Inner(t, s, fix, c1, sel, t.biome(7, 64, 7));
    assert Inner(t, s, fix, c1, sel, t.biome(7, 64, 7)) == After(t, s, fix, c1, sel);
  }

  /** The second attempt of the example finds the biome budget spent. */
  lemma StaleSecondAttempt(fix: bool)
    ensures var l := if fix then None else Some(Location("world", 3, 64, 3));
            Outer(StaleTerrain(), StaleSettings(), fix, Counters(2, 2, 1, 0, 1, l)) == SelResult(BiomeBudget, l, 2)
  {
    var t, s := StaleTerrain(), StaleSettings();
    var l := if fix then None else Some(Location("world", 3, 64, 3));
    var sel := ChunkPos(0, 0);
    StaleExamine();
    var c3 := Counters(2, 2, 1, 0, 2, l);
    assert Outer(t, s, fix, Counters(2, 2, 1, 0, 1, l)) == Inner(t, s, fix, c3, sel, t.biome(7, 64, 7));
    assert Inner(t, s, fix, c3, sel, t.biome(7, 64, 7)) == After(t, s, fix, c3, sel);
  }

  /**
   * The stale location, concretely: the selection as written reports the
   * ocean location after 2 attempts, although its biome is not wanted; with
   * the fix it reports no location.
   */
  lemma StaleLocationExample()
    ensures Select(StaleTerrain(), StaleSettings(), false)
            == SelResult(BiomeBudget, Some(Location("world", 3, 64, 3)), 2)
    ensures StaleTerrain().biome(3, 64, 3) !in Names(StaleSettings())
    ensures Select(StaleTerrain(), StaleSettings(), true) == SelResult(BiomeBudget, None, 2)
  {
    StaleNames();
    StaleFirstAttempt(false);
    StaleSecondAttempt(false);
    StaleFirstAttempt(true);
    StaleSecondAttempt(true);
  }
}
