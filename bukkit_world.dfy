/**
 * BukkitRTPWorld: a Bukkit world as the plugin sees it. Chunks that queued
 * locations depend on are force-loaded and reference counted in `chunkMap`;
 * the counter rises with every keepChunkAt and falls with every
 * forgetChunkAt, and the chunk stops being force-loaded when it reaches zero.
 */
module BukkitWorld {
  import opened Common
  import opened ChunkMath

  /** A loaded Bukkit chunk, by identity. */
  datatype ChunkHandle = ChunkHandle(id: int)

  /** A chunkMap entry: the chunk (possibly null) and how many holders keep it. */
  datatype Tracked = Tracked(chunk: Option<ChunkHandle>, count: int)

  /** Counts are never below one: an entry that would reach zero is removed. */
  ghost predicate Counted(m: map<ChunkPos, Tracked>)
  {
    forall xz :: xz in m ==> m[xz].count >= 1
  }

  /** One more holder of a tracked chunk. */
  function Kept(m: map<ChunkPos, Tracked>, xz: ChunkPos): (r: map<ChunkPos, Tracked>)
    requires xz in m
    ensures r.Keys == m.Keys
    ensures r[xz].count == m[xz].count + 1 && r[xz].chunk == m[xz].chunk
    ensures forall p :: p in m && p != xz ==> r[p] == m[p]
  {
    m[xz := m[xz].(count := m[xz].count + 1)]
  }

  /**
   * The completion of the chunk load keepChunkAt starts for an untracked
   * chunk: if another call tracked it meanwhile it is kept once more;
   * otherwise a loaded chunk is tracked with count 1, and a null chunk is an
   * IllegalStateException.
   */
  function Loaded(m: map<ChunkPos, Tracked>, xz: ChunkPos, chunk: Option<ChunkHandle>): (r: Result<map<ChunkPos, Tracked>>)
    ensures xz in m ==> r == Ok(Kept(m, xz))
    ensures xz !in m && chunk.Some? ==> r.Ok? && r.value.Keys == m.Keys + {xz} && r.value[xz] == Tracked(chunk, 1) &&
                                        forall p :: p in m ==> r.value[p] == m[p]
    ensures xz !in m && chunk.None? ==> r == Err(IllegalState)
  {
    if xz in m then Ok(Kept(m, xz))
    else if chunk.Some? then Ok(m[xz := Tracked(chunk, 1)])
    else Err(IllegalState)
  }

  /**
   * One holder fewer: nothing happens to an untracked chunk; a count that
   * drops to zero or below removes the entry, any other is stored.
   */
  function Forgotten(m: map<ChunkPos, Tracked>, xz: ChunkPos): (r: map<ChunkPos, Tracked>)
    ensures xz !in m ==> r == m
    ensures xz in m && m[xz].count <= 1 ==> r == m - {xz}
    ensures xz in m && m[xz].count > 1 ==>
              r.Keys == m.Keys && r[xz] == m[xz].(count := m[xz].count - 1) &&
              forall p :: p in m && p != xz ==> r[p] == m[p]
  {
    if xz !in m then m
    else if m[xz].count - 1 <= 0 then m - {xz}
    else m[xz := m[xz].(count := m[xz].count - 1)]
  }

  /** Keeping and then forgetting a tracked chunk leaves the counters as they were. */
  lemma ForgetAfterKeep(m: map<ChunkPos, Tracked>, xz: ChunkPos)
    requires Counted(m) && xz in m
    ensures Forgotten(Kept(m, xz), xz) == m
  {
    var k := Kept(m, xz);
    assert k[xz].count > 1;
    assert m[xz] == m[xz].(count := m[xz].count);
  }

  /** Forgetting a chunk that was first tracked by a completed load untracks it again. */
  lemma ForgetAfterLoad(m: map<ChunkPos, Tracked>, xz: ChunkPos, chunk: ChunkHandle)
    requires xz !in m
    ensures Loaded(m, xz, Some(chunk)).Ok?
    ensures Forgotten(Loaded(m, xz, Some(chunk)).value, xz) == m
  {
    assert m[xz := Tracked(Some(chunk), 1)] - {xz} == m;
  }

  /** Every counter operation keeps the counts at one or more. */
  lemma CountsStayPositive(m: map<ChunkPos, Tracked>, xz: ChunkPos, chunk: Option<ChunkHandle>)
    requires Counted(m)
    ensures xz in m ==> Counted(Kept(m, xz))
    ensures Loaded(m, xz, chunk).Ok? ==> Counted(Loaded(m, xz, chunk).value)
    ensures Counted(Forgotten(m, xz))
  {
  }

  /** The force-load releases forgetChunks issues: one (chunk, false) per tracked chunk. */
  method Unforced(keys: set<ChunkPos>) returns (added: seq<(ChunkPos, bool)>)
    ensures |added| == |keys|
    ensures forall j :: 0 <= j < |added| ==> added[j].0 in keys && !added[j].1
    ensures forall xz :: xz in keys ==> (xz, false) in added
  {
    added := [];
    ghost var done: set<ChunkPos> := {};
    var todo := keys;
    while todo != {}
      invariant todo + done == keys && todo !! done
      invariant |added| == |done|
      invariant forall j :: 0 <= j < |added| ==> added[j].0 in done && !added[j].1
      invariant forall xz :: xz in done ==> (xz, false) in added
      decreases todo
    {
      var xz :| xz in todo;
      added := added + [(xz, false)];
      done := done + {xz};
      todo := todo - {xz};
    }
  }

  /** What an instanceof RTPWorld test sees: a world with its id (possibly null), or another object. */
  datatype Obj = WorldObj(id: Option<Uuid>) | OtherObj

  class World {
    /** The Bukkit world's UUID and name; both are null for a null world. */
    const id: Option<Uuid>
    const name: Option<string>
    /** The reference-counted force-loaded chunks. */
    var chunkMap: map<ChunkPos, Tracked>
    /**
     * The setChunkForceLoaded requests made, in order; whether the server
     * honours them (it ignores them before version 13) is not modelled.
     */
    var forceRequests: seq<(ChunkPos, bool)>

    ghost predicate Valid()
      reads this
    {
      Counted(chunkMap)
    }

    constructor (id: Option<Uuid>, name: Option<string>)
      requires id.None? <==> name.None?
      ensures this.id == id && this.name == name
      ensures Valid() && chunkMap == map[] && forceRequests == []
    {
      this.id := id;
      this.name := name;
      chunkMap := map[];
      forceRequests := [];
    }

    /**
     * keepChunkAt(cx, cz): a tracked chunk is force-loaded and kept once
     * more at once; for an untracked one a chunk load is started
     * (`load`) and the counters change when it completes (ChunkLoaded).
     */
    method KeepChunkAt(cx: int, cz: int) returns (load: bool)
      requires Valid()
      modifies this
      ensures Valid()
      ensures var xz := ChunkPos(cx, cz);
        if xz in old(chunkMap) then
          !load && chunkMap == Kept(old(chunkMap), xz) && forceRequests == old(forceRequests) + [(xz, true)]
        else
          load && chunkMap == old(chunkMap) && forceRequests == old(forceRequests)
    {
      var xz := ChunkPos(cx, cz);
      if xz in chunkMap {
        forceRequests := forceRequests + [(xz, true)];
        chunkMap := chunkMap[xz := chunkMap[xz].(count := chunkMap[xz].count + 1)];
        load := false;
      } else {
        load := true;
      }
    }

    /** The completion callback of the load KeepChunkAt started for chunk (cx, cz). */
    method ChunkLoaded(cx: int, cz: int, chunk: Option<ChunkHandle>) returns (out: Outcome)
      requires Valid()
      modifies this
      ensures Valid()
      ensures var xz := ChunkPos(cx, cz);
        var r := Loaded(old(chunkMap), xz, chunk);
        (r.Ok? ==> out == Pass && chunkMap == r.value && forceRequests == old(forceRequests) + [(xz, true)]) &&
        (r.Err? ==> out == Fail(r.error) && chunkMap == old(chunkMap) && forceRequests == old(forceRequests))
    {
      var xz := ChunkPos(cx, cz);
      if xz in chunkMap {
        forceRequests := forceRequests + [(xz, true)];
        chunkMap := chunkMap[xz := chunkMap[xz].(count := chunkMap[xz].count + 1)];
        out := Pass;
      } else if chunk.Some? {
        forceRequests := forceRequests + [(xz, true)];
        chunkMap := chunkMap[xz := Tracked(chunk, 1)];
        out := Pass;
      } else {
        out := Fail(IllegalState);
      }
    }

    /**
     * forgetChunkAt(cx, cz): one holder fewer; a chunk whose count drops to
     * zero is untracked and no longer force-loaded.
     */
    method ForgetChunkAt(cx: int, cz: int)
      requires Valid()
      modifies this
      ensures Valid()
      ensures var xz := ChunkPos(cx, cz);
        chunkMap == Forgotten(old(chunkMap), xz) &&
        forceRequests == old(forceRequests) + (if xz in old(chunkMap) && xz !in chunkMap then [(xz, false)] else [])
    {
      var xz := ChunkPos(cx, cz);
      if xz !in chunkMap {
        return;
      }
      var i := chunkMap[xz].count - 1;
      if i <= 0 {
        chunkMap := chunkMap - {xz};
        forceRequests := forceRequests + [(xz, false)];
      } else {
        chunkMap := chunkMap[xz := chunkMap[xz].(count := i)];
      }
    }

    /** forgetChunks(): every tracked chunk stops being force-loaded and the map is emptied. */
    method ForgetChunks()
      requires Valid()
      modifies this
      ensures Valid() && chunkMap == map[]
      ensures |forceRequests| == |old(forceRequests)| + |old(chunkMap).Keys|
      ensures forceRequests[..|old(forceRequests)|] == old(forceRequests)
      ensures forall j :: |old(forceRequests)| <= j < |forceRequests| ==>
                forceRequests[j].0 in old(chunkMap) && !forceRequests[j].1
      ensures forall xz :: xz in old(chunkMap) ==> (xz, false) in forceRequests[|old(forceRequests)|..]
    {
      var added := Unforced(chunkMap.Keys);
      forceRequests := forceRequests + added;
      assert forceRequests[|old(forceRequests)|..] == added;
      chunkMap := map[];
    }

    /** isForceLoaded(cx, cz): whether the chunk is tracked. */
    predicate IsForceLoaded(cx: int, cz: int)
      reads this
    {
      ChunkPos(cx, cz) in chunkMap
    }

    /**
     * A tracked chunk is force-loaded exactly while some keepChunkAt has no
     * matching forgetChunkAt yet: keeping makes it force-loaded, and
     * forgetting it as often as it was kept makes it not.
     */
    lemma ForceLoadedByCount(cx: int, cz: int)
      requires Valid()
      ensures IsForceLoaded(cx, cz) <==> ChunkPos(cx, cz) in chunkMap && chunkMap[ChunkPos(cx, cz)].count >= 1
      ensures IsForceLoaded(cx, cz) && chunkMap[ChunkPos(cx, cz)].count == 1 ==>
                ChunkPos(cx, cz) !in Forgotten(chunkMap, ChunkPos(cx, cz))
    {
    }

    /**
     * The cached path of getChunkAt: a tracked chunk with a non-null chunk
     * completes at once with it. Otherwise (None) the chunk is loaded from
     * the server, which is not part of this model.
     */
    function CachedChunk(cx: int, cz: int): (c: Option<ChunkHandle>)
      reads this
      ensures c.Some? <==> IsForceLoaded(cx, cz) && chunkMap[ChunkPos(cx, cz)].chunk.Some?
      ensures c.Some? ==> c == chunkMap[ChunkPos(cx, cz)].chunk
    {
      var xz := ChunkPos(cx, cz);
      if xz in chunkMap && chunkMap[xz].chunk.Some? then chunkMap[xz].chunk else None
    }

    /** equals(obj): another RTPWorld with the same id (two null ids are equal). */
    predicate Equals(obj: Obj)
    {
      obj.WorldObj? && obj.id == id
    }

    /** hashCode(): the hash of the id; a null id is a NullPointerException. */
    function HashCode(hash: Uuid -> int): (h: Result<int>)
      ensures h.Ok? <==> id.Some?
      ensures h.Ok? ==> h.value == hash(id.value)
    {
      if id.Some? then Ok(hash(id.value)) else Err(NullPointer)
    }

    /** Worlds that are equal have the same hash code. */
    lemma EqualsHash(other: World, hash: Uuid -> int)
      requires Equals(WorldObj(other.id))
      ensures HashCode(hash) == other.HashCode(hash)
      ensures other.Equals(WorldObj(id))
    {
    }
  }

  /**
   * The coordinates getBiome reads a block's biome at: the chunk index of
   * the block (the plugin's `x > 0 ? x / 16 : x / 16 - 1`) and the in-chunk
   * offsets `x % 16` and `z % 16` moved into [0, 16).
   */
  function BiomeLookup(x: int, z: int): (r: (ChunkPos, int, int))
    ensures 0 <= r.1 < 16 && 0 <= r.2 < 16
    ensures r.0 == ChunkPos(ChunkIndex(x), ChunkIndex(z))
  {
    (ChunkPos(ChunkIndex(x), ChunkIndex(z)), BlockInChunk(x), BlockInChunk(z))
  }

  /**
   * Chunk and offset name the block itself except at non-positive
   * multiples of 16, where the chunk index is one lower and the offset 0,
   * so the chunk-local lookup reads the block 16 below.
   */
  lemma BiomeLookupBlock(x: int, z: int)
    ensures var r := BiomeLookup(x, z);
      (x > 0 || x % 16 != 0 ==> 16 * r.0.x + r.1 == x) &&
      (x <= 0 && x % 16 == 0 ==> 16 * r.0.x + r.1 == x - 16) &&
      (z > 0 || z % 16 != 0 ==> 16 * r.0.z + r.2 == z) &&
      (z <= 0 && z % 16 == 0 ==> 16 * r.0.z + r.2 == z - 16)
  {
    ChunkIndexFloor(x);
    ChunkIndexFloor(z);
  }
}
