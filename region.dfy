/**
 * A region: its parameters, its shape, and the cache of selected locations
 * it keeps ready. Cache tasks in the cache pipeline select locations for the
 * public queue; tasks in the misc pipeline select them for one player (their
 * fast future or their personal queue). Every cached location holds a chunk
 * set that keeps the chunks around it loaded. Each cycle, execute tops the
 * cache pipeline up and hands cached locations to waiting players in order.
 */
module Regions {
  import opened Common
  import opened ChunkMath
  import opened Factory
  import opened Selection
  import opened RegionSpec

  /** The RegionKeys constants the cache reads. */
  const CACHE_CAP: string := "cacheCap"
  const WORLD_BORDER_OVERRIDE: string := "worldBorderOverride"
  const DEFAULT_CACHE_CAP: int := 10

  /**
   * What one run of a Cache task finds in the world: the terrain and
   * settings of its selection, the view distance whose chunks it keeps, and
   * how the load of a freshly requested chunk set ends.
   */
  datatype CacheEnv = CacheEnv(t: Terrain, s: Settings, radius: int, loaded: Option<bool>)

  /** The settings of getLocation(null): no biome set requested. */
  function CacheSettings(env: CacheEnv): Settings
  {
    env.s.(requested := {})
  }

  /** The world-border override flag getShape reads: a boolean, or a string it parses. */
  function WorldBorderOverride(data: map<string, Value>): bool
  {
    if WORLD_BORDER_OVERRIDE !in data then false
    else match data[WORLD_BORDER_OVERRIDE]
      case Bool(b) => b
      case Str(text) => ParseBoolean(text)
      case _ => false
  }

  /** The parameters after getShape: a string flag is stored back as the boolean it parses to. */
  function OverrideStored(data: map<string, Value>): (r: map<string, Value>)
    ensures WorldBorderOverride(r) == WorldBorderOverride(data)
    ensures r.Keys == data.Keys
    ensures forall k :: k in data && k != WORLD_BORDER_OVERRIDE ==> r[k] == data[k]
  {
    if WORLD_BORDER_OVERRIDE in data && data[WORLD_BORDER_OVERRIDE].Str? then
      data[WORLD_BORDER_OVERRIDE := Bool(ParseBoolean(data[WORLD_BORDER_OVERRIDE].s))]
    else data
  }

  /** The map without the keys in `gone`. */
  function Without(m: map<Location, ChunkSet>, gone: set<Location>): (r: map<Location, ChunkSet>)
    ensures forall l :: l in r <==> l in m && l !in gone
    ensures forall l :: l in r ==> r[l] == m[l]
  {
    map l | l in m && l !in gone :: m[l]
  }

  /** The locations held by the personal queues and the public queue. */
  function DrainedLocations(personal: map<Uuid, seq<Entry>>, public: seq<Entry>): set<Location>
  {
    (set u, e | u in personal && e in personal[u] :: e.loc) + (set e | e in public :: e.loc)
  }

  /** The locations of completed fast futures. */
  function FastLocations(fast: map<Uuid, Future>): set<Location>
  {
    set u | u in fast && fast[u].Done? :: fast[u].entry.loc
  }

  /** The personal queue of a player, empty when they have none. */
  function PersonalQueue(personal: map<Uuid, seq<Entry>>, p: Uuid): seq<Entry>
  {
    if p in personal then personal[p] else []
  }

  // How the held locations change when an entry is queued or polled.

  lemma PublicAppended(personal: map<Uuid, seq<Entry>>, q: seq<Entry>, e: Entry)
    ensures DrainedLocations(personal, q + [e]) == DrainedLocations(personal, q) + {e.loc}
  {
    assert forall x :: x in q + [e] <==> x in q || x == e;
  }

  lemma PublicPolled(personal: map<Uuid, seq<Entry>>, q: seq<Entry>)
    requires q != []
    ensures DrainedLocations(personal, q[1..]) <= DrainedLocations(personal, q)
  {
    assert forall x :: x in q[1..] ==> x in q;
  }

  lemma PersonalAppended(personal: map<Uuid, seq<Entry>>, p: Uuid, e: Entry, q: seq<Entry>)
    ensures DrainedLocations(personal[p := PersonalQueue(personal, p) + [e]], q) <= DrainedLocations(personal, q) + {e.loc}
  {
    var after := personal[p := PersonalQueue(personal, p) + [e]];
    forall l | l in DrainedLocations(after, q)
      ensures l in DrainedLocations(personal, q) + {e.loc}
    {
      if l !in (set x | x in q :: x.loc) {
        var u: Uuid, x: Entry :| u in after && x in after[u] && x.loc == l;
        if u == p && x != e {
          assert x in PersonalQueue(personal, p);
        }
      }
    }
  }

  lemma PersonalCreated(personal: map<Uuid, seq<Entry>>, p: Uuid, q: seq<Entry>)
    requires p !in personal
    ensures DrainedLocations(personal[p := []], q) == DrainedLocations(personal, q)
  {
    var after := personal[p := []];
    forall l | l in DrainedLocations(after, q)
      ensures l in DrainedLocations(personal, q)
    {
      if l !in (set x | x in q :: x.loc) {
        var u: Uuid, x: Entry :| u in after && x in after[u] && x.loc == l;
        assert u != p;
      }
    }
    forall l | l in DrainedLocations(personal, q)
      ensures l in DrainedLocations(after, q)
    {
      if l !in (set x | x in q :: x.loc) {
        var u: Uuid, x: Entry :| u in personal && x in personal[u] && x.loc == l;
        assert u in after && x in after[u];
      }
    }
  }

  lemma FastPending(fast: map<Uuid, Future>, p: Uuid)
    requires p !in fast
    ensures FastLocations(fast[p := Pending]) == FastLocations(fast)
  {
    var after := fast[p := Pending];
    forall l | l in FastLocations(fast)
      ensures l in FastLocations(after)
    {
      var u :| u in fast && fast[u].Done? && fast[u].entry.loc == l;
      assert u in after && after[u] == fast[u];
    }
  }

  lemma FastCompleted(fast: map<Uuid, Future>, p: Uuid, e: Entry)
    requires p in fast && fast[p].Pending?
    ensures FastLocations(fast[p := Future.Done(e)]) == FastLocations(fast) + {e.loc}
  {
    var after := fast[p := Future.Done(e)];
    assert after[p].entry.loc == e.loc;
    forall l | l in FastLocations(fast)
      ensures l in FastLocations(after)
    {
      var u :| u in fast && fast[u].Done? && fast[u].entry.loc == l;
      assert u in after && after[u] == fast[u];
    }
  }

  lemma PersonalPolled(personal: map<Uuid, seq<Entry>>, p: Uuid, rest: seq<Entry>, q: seq<Entry>)
    requires p in personal && forall x :: x in rest ==> x in personal[p]
    ensures DrainedLocations(personal[p := rest], q) <= DrainedLocations(personal, q)
  {
    var after := personal[p := rest];
    forall l | l in DrainedLocations(after, q)
      ensures l in DrainedLocations(personal, q)
    {
      if l !in (set x | x in q :: x.loc) {
        var u: Uuid, x: Entry :| u in after && x in after[u] && x.loc == l;
        assert x in personal[u];
      }
    }
  }

  /** What a walk leaves of the queue it polled. */
  function RestOf(p: Pick): seq<Entry>
  {
    match p
    case Picked(_, rest) => rest
    case Broke(rest) => rest
    case Emptied(_) => []
  }

  /** A last polled entry as the pair getLocation returns. */
  function PairOption(last: Option<Entry>): Option<Pair>
  {
    match last
    case None => None
    case Some(e) => Some(PairOf(e))
  }

  /**
   * getLocation(biomeNames) as getLocation(sender, ...) reads it: the
   * selected pair, or a NullPointerException when the selection returns null.
   * The selection is the one the source runs, as written.
   */
  function FreshPair(t: Terrain, s: Settings): Result<Option<Pair>>
  {
    var sel := Select(t, s, false);
    if sel.IsPair() then Ok(Some(Pair(sel.location, sel.attempts))) else Err(NullPointer)
  }

  /**
   * A freshly selected location passed every check of the selection, or it
   * is the stale location the biome budget leaves behind; its attempts are
   * within the bound either way.
   */
  lemma FreshPairSound(t: Terrain, s: Settings)
    requires s.hasShape && s.hasVert
    ensures var r := FreshPair(t, s);
      r.Ok? && r.value.Some? && r.value.value.loc.Some? ==>
        (Acceptable(t, s, r.value.value.loc.value) || Select(t, s, false).exit == BiomeBudget) &&
        1 <= r.value.value.attempts <= AttemptBound(s)
  {
    SelectSound(t, s, false);
  }

  /** FreshPair over the corrected selection, which drops the biome budget's stale location. */
  function FreshPairIntended(t: Terrain, s: Settings): Result<Option<Pair>>
  {
    var sel := Select(t, s, true);
    if sel.IsPair() then Ok(Some(Pair(sel.location, sel.attempts))) else Err(NullPointer)
  }

  /**
   * Over the corrected selection a fresh location always passed every
   * check, and the pair differs from the as-written one only in that
   * location.
   */
  lemma FreshPairIntendedSound(t: Terrain, s: Settings)
    requires s.hasShape && s.hasVert
    ensures var r := FreshPairIntended(t, s);
      r.Ok? && r.value.Some? && r.value.value.loc.Some? ==>
        Acceptable(t, s, r.value.value.loc.value) && 1 <= r.value.value.attempts <= AttemptBound(s)
    ensures FreshPairIntended(t, s).Ok? <==> FreshPair(t, s).Ok?
    ensures FreshPair(t, s).Ok? && FreshPair(t, s).value.value.loc != FreshPairIntended(t, s).value.value.loc ==>
              Select(t, s, false).exit == BiomeBudget && FreshPairIntended(t, s).value.value.loc.None?
  {
    SelectSound(t, s, true);
    FixIsChecked(t, s);
  }

  /** An RTPTaskPipe: a FIFO of tasks. */
  class TaskPipe {
    var tasks: seq<CacheTask>
    var stopped: bool

    constructor ()
      ensures tasks == [] && !stopped
    {
      tasks := [];
      stopped := false;
    }

    method Add(task: CacheTask)
      modifies this
      ensures tasks == old(tasks) + [task] && stopped == old(stopped)
    {
      tasks := tasks + [task];
    }

    method Poll() returns (task: Option<CacheTask>)
      modifies this
      ensures old(tasks) == [] ==> task.None? && tasks == []
      ensures old(tasks) != [] ==> task == Some(old(tasks)[0]) && tasks == old(tasks)[1..]
      ensures stopped == old(stopped)
    {
      if tasks == [] {
        return None;
      }
      task := Some(tasks[0]);
      tasks := tasks[1..];
    }

    method Stop()
      modifies this
      ensures stopped && tasks == old(tasks)
    {
      stopped := true;
    }

    method Clear()
      modifies this
      ensures tasks == [] && stopped == old(stopped)
    {
      tasks := [];
    }
  }

  /**
   * A region's shape. A memory shape remembers the positions it found bad
   * and the positions it found per biome; only those are modelled.
   */
  class Shape {
    const name: string
    const isMemory: bool
    var badLocations: map<int, int>
    var biomeLocations: map<string, set<int>>
    var badLocationSum: int

    constructor (name: string, isMemory: bool)
      ensures this.name == name && this.isMemory == isMemory
      ensures badLocations == map[] && biomeLocations == map[] && badLocationSum == 0
    {
      this.name := name;
      this.isMemory := isMemory;
      badLocations := map[];
      biomeLocations := map[];
      badLocationSum := 0;
    }
  }

  class Region {
    const name: string
    /** The region's RegionKeys parameters (Region is a FactoryValue). */
    const params: FactoryValue
    var shape: Shape
    /** The public cache of selected locations. */
    var locationQueue: seq<Entry>
    /** The chunk set kept for each cached location. */
    var locAssChunks: map<Location, ChunkSet>
    var perPlayerLocationQueue: map<Uuid, seq<Entry>>
    var fastLocations: map<Uuid, Future>
    /** Players waiting for a location from the public cache. */
    var playerQueue: seq<Uuid>
    const cachePipeline: TaskPipe
    const miscPipeline: TaskPipe
    /** The keep count of every chunk set this region made, by id. */
    var keeps: seq<int>
    /** The teleports handed on by execute (LoadChunks tasks): player and cached entry. */
    var dispatched: seq<(Uuid, Entry)>

    ghost predicate Valid()
      reads this, params
    {
      params.Valid() && CACHE_CAP in params.constants && WORLD_BORDER_OVERRIDE in params.constants &&
      cachePipeline != miscPipeline &&
      Balanced(keeps, locAssChunks)
    }

    /** Every location that is queued or completed for a player. */
    ghost function QueuedLocations(): set<Location>
      reads this
    {
      DrainedLocations(perPlayerLocationQueue, locationQueue) + FastLocations(fastLocations)
    }

    /** Every queued location still has its chunk set, which is kept. */
    ghost predicate Retained()
      reads this
    {
      QueuedLocations() <= locAssChunks.Keys
    }

    constructor (name: string, lineage: seq<string>, constants: seq<string>, data: map<string, Value>, shape: Shape)
      requires |lineage| >= 1 && CACHE_CAP in constants && WORLD_BORDER_OVERRIDE in constants
      requires forall k :: k in data ==> k in constants
      ensures Valid() && Retained()
      ensures fresh(params) && fresh(cachePipeline) && fresh(miscPipeline)
      ensures this.name == name && params.name == name && params.data == data && this.shape == shape
      ensures locationQueue == [] && locAssChunks == map[] && perPlayerLocationQueue == map[]
      ensures fastLocations == map[] && playerQueue == [] && keeps == [] && dispatched == []
      ensures cachePipeline.tasks == [] && miscPipeline.tasks == []
    {
      this.name := name;
      var p := new FactoryValue(lineage, "RegionKeys", constants, name);
      p.data := data;
      params := p;
      this.shape := shape;
      locationQueue := [];
      locAssChunks := map[];
      perPlayerLocationQueue := map[];
      fastLocations := map[];
      playerQueue := [];
      cachePipeline := new TaskPipe();
      miscPipeline := new TaskPipe();
      keeps := [];
      dispatched := [];
    }

    /** The region clone() builds: own parameters and queues, shared pipelines and shape. */
    constructor Copy(name: string, params: FactoryValue, shape: Shape, cachePipeline: TaskPipe, miscPipeline: TaskPipe)
      requires params.Valid() && CACHE_CAP in params.constants && WORLD_BORDER_OVERRIDE in params.constants
      requires cachePipeline != miscPipeline
      ensures Valid() && Retained()
      ensures this.name == name && this.params == params && this.shape == shape
      ensures this.cachePipeline == cachePipeline && this.miscPipeline == miscPipeline
      ensures locationQueue == [] && locAssChunks == map[] && perPlayerLocationQueue == map[]
      ensures fastLocations == map[] && playerQueue == [] && keeps == [] && dispatched == []
    {
      this.name := name;
      this.params := params;
      this.shape := shape;
      locationQueue := [];
      locAssChunks := map[];
      perPlayerLocationQueue := map[];
      fastLocations := map[];
      playerQueue := [];
      this.cachePipeline := cachePipeline;
      this.miscPipeline := miscPipeline;
      keeps := [];
      dispatched := [];
    }

    /**
     * The end of the constructor: the cache pipeline is filled with public
     * Cache tasks up to the configured cacheCap (10 by default).
     */
    method Prefill() returns (out: Outcome)
      requires Valid()
      modifies params, cachePipeline
      ensures Valid()
      ensures var n := NumberOf(old(params.data), CACHE_CAP, LongNum(DEFAULT_CACHE_CAP));
        (n.Err? ==> out == Fail(n.error) && cachePipeline.tasks == old(cachePipeline.tasks)) &&
        (n.Ok? ==>
           out == Pass &&
           cachePipeline.tasks == old(cachePipeline.tasks) +
             Repeat(CacheTask(None), Max(0, n.value.LongValue() - |old(cachePipeline.tasks)|)))
    {
      var n := params.GetNumber(CACHE_CAP, LongNum(DEFAULT_CACHE_CAP));
      if n.Err? {
        return Fail(n.error);
      }
      var cacheCap := n.value.LongValue();
      var i := |cachePipeline.tasks|;
      while i < cacheCap
        invariant |old(cachePipeline.tasks)| <= i
        invariant i <= Max(cacheCap, |old(cachePipeline.tasks)|)
        invariant cachePipeline.tasks == old(cachePipeline.tasks) + Repeat(CacheTask(None), i - |old(cachePipeline.tasks)|)
        invariant params.data == old(params.data)[CACHE_CAP := Num(n.value)] && params.Valid()
      {
        cachePipeline.Add(CacheTask(None));
        i := i + 1;
      }
      out := Pass;
    }

    // -------------------------------------------------------------------
    // Queue lengths and hasLocation

    function PublicQueueLength(): (n: nat)
      reads this
      ensures n == |locationQueue|
    {
      |locationQueue|
    }

    /** A player's own queue plus one for a fast future, completed or not. */
    function PersonalQueueLength(u: Uuid): (n: nat)
      reads this
      ensures u !in perPlayerLocationQueue && u !in fastLocations ==> n == 0
    {
      (if u in perPlayerLocationQueue then |perPlayerLocationQueue[u]| else 0) + (if u in fastLocations then 1 else 0)
    }

    function TotalQueueLength(u: Uuid): nat
      reads this
    {
      var n := |locationQueue|;
      var n := if u in perPlayerLocationQueue then n + |perPlayerLocationQueue[u]| else n;
      if u in fastLocations then n + 1 else n
    }

    /** The total queue length is the public length plus the personal one. */
    lemma QueueLengthsAdd(u: Uuid)
      ensures TotalQueueLength(u) == PublicQueueLength() + PersonalQueueLength(u)
    {
    }

    /** hasLocation: a public entry exists, or the player has a personal queue (possibly empty). */
    predicate HasLocation(u: Option<Uuid>)
      reads this
    {
      |locationQueue| > 0 || (u.Some? && u.value in perPlayerLocationQueue)
    }

    /**
     * hasLocation is true for a player with a personal queue even when that
     * queue and the public one are empty, so it does not promise a location.
     */
    lemma HasLocationMeaning(u: Uuid)
      ensures HasLocation(None) <==> PublicQueueLength() > 0
      ensures HasLocation(Some(u)) <==> PublicQueueLength() > 0 || u in perPlayerLocationQueue
      ensures u in perPlayerLocationQueue && perPlayerLocationQueue[u] == [] && locationQueue == [] ==>
                HasLocation(Some(u)) && PersonalQueueLength(u) <= 1
    {
    }

    // -------------------------------------------------------------------
    // Chunk sets

    /**
     * The chunk requests of chunks(): the loops over i and j in
     * [-radius, radius], in that order.
     */
    static method ChunkRequests(cx: int, cz: int, radius: int) returns (cs: seq<ChunkPos>)
      ensures cs == Requests(cx, cz, radius)
    {
      cs := [];
      var i := -radius;
      while i <= radius
        invariant i >= -radius
        invariant radius >= 0 ==> i <= radius + 1 && cs == Grid(cx, cz, radius, i + radius)
        invariant radius < 0 ==> cs == []
      {
        ghost var before := cs;
        var j := -radius;
        while j <= radius
          invariant -radius <= j <= radius + 1
          invariant cs == before + Row(cx + i, cz, radius, j + radius)
        {
          cs := cs + [ChunkPos(cx + i, cz + j)];
          j := j + 1;
        }
        i := i + 1;
      }
    }

    /**
     * chunks(location, radius): a stored set with at least (2r + 1)^2
     * chunks is reused; otherwise the stored set (if any) is released and
     * removed, and, when the region has its shape, vertical adjustor and
     * world (`targets`), a fresh set of the chunk requests around the
     * location's chunk is kept and stored. `loaded` is how the fresh set's
     * load ends.
     */
    method Chunks(loc: Location, radius: int, targets: bool, loaded: Option<bool>) returns (cs: Option<ChunkSet>)
      requires Valid()
      modifies this
      ensures Valid() && |keeps| >= |old(keeps)|
      ensures var sets := old(locAssChunks);
        if loc in sets && |sets[loc].chunks| >= Wanted(radius) then
          cs == Some(sets[loc]) && locAssChunks == sets && keeps == old(keeps)
        else if !targets then
          cs.None? && locAssChunks == sets - {loc}
        else
          cs == Some(ChunkSet(|old(keeps)|, Requests(ChunkIndex(loc.x), ChunkIndex(loc.z), radius), loaded)) &&
          locAssChunks == sets[loc := cs.value]
      ensures locationQueue == old(locationQueue) && perPlayerLocationQueue == old(perPlayerLocationQueue)
      ensures fastLocations == old(fastLocations) && playerQueue == old(playerQueue)
      ensures shape == old(shape) && dispatched == old(dispatched)
    {
      if loc in locAssChunks {
        var chunkSet := locAssChunks[loc];
        if |chunkSet.chunks| >= Wanted(radius) {
          return Some(chunkSet);
        }
        RemoveChunks(loc);
      }
      if !targets {
        return None;
      }
      var requests := ChunkRequests(ChunkIndex(loc.x), ChunkIndex(loc.z), radius);
      var chunkSet := ChunkSet(|keeps|, requests, loaded);
      AddBalanced(keeps, locAssChunks, loc, requests, loaded);
      keeps := keeps + [1];
      locAssChunks := locAssChunks[loc := chunkSet];
      cs := Some(chunkSet);
    }

    /** removeChunks(location): release and remove its set; nothing when it has none. */
    method RemoveChunks(loc: Location)
      requires Valid()
      modifies this
      ensures Valid() && |keeps| == |old(keeps)|
      ensures locAssChunks == old(locAssChunks) - {loc}
      ensures loc !in old(locAssChunks) ==> keeps == old(keeps)
      ensures locationQueue == old(locationQueue) && perPlayerLocationQueue == old(perPlayerLocationQueue)
      ensures fastLocations == old(fastLocations) && playerQueue == old(playerQueue)
      ensures shape == old(shape) && dispatched == old(dispatched)
    {
      if loc !in locAssChunks {
        return;
      }
      var chunkSet := locAssChunks[loc];
      ReleaseBalanced(keeps, locAssChunks, loc);
      keeps := keeps[chunkSet.id := keeps[chunkSet.id] - 1];
      locAssChunks := locAssChunks - {loc};
    }

    /** removeChunks for every location of `gone`, in any order. */
    method RemoveChunksIn(gone: set<Location>)
      requires Valid()
      modifies this
      ensures Valid() && |keeps| == |old(keeps)|
      ensures locAssChunks == Without(old(locAssChunks), gone)
      ensures locationQueue == old(locationQueue) && perPlayerLocationQueue == old(perPlayerLocationQueue)
      ensures fastLocations == old(fastLocations) && playerQueue == old(playerQueue)
      ensures shape == old(shape) && dispatched == old(dispatched)
    {
      var todo := gone;
      while todo != {}
        modifies this
        invariant todo <= gone
        invariant Valid() && |keeps| == |old(keeps)|
        invariant locAssChunks == Without(old(locAssChunks), gone - todo)
        invariant locationQueue == old(locationQueue) && perPlayerLocationQueue == old(perPlayerLocationQueue)
        invariant fastLocations == old(fastLocations) && playerQueue == old(playerQueue)
        invariant shape == old(shape) && dispatched == old(dispatched)
        decreases todo
      {
        var l :| l in todo;
        RemoveChunks(l);
        todo := todo - {l};
        assert locAssChunks == Without(old(locAssChunks), gone - todo);
      }
    }

    // -------------------------------------------------------------------
    // Queueing requests

    /** fastQueue(id): the player's future; a new one is made and a Cache task for them queued. */
    method FastQueue(id: Uuid) returns (f: Future)
      requires Valid()
      modifies this, miscPipeline
      ensures Valid()
      ensures id in old(fastLocations) ==>
                f == old(fastLocations)[id] && fastLocations == old(fastLocations) &&
                miscPipeline.tasks == old(miscPipeline.tasks)
      ensures id !in old(fastLocations) ==>
                f == Pending && fastLocations == old(fastLocations)[id := Pending] &&
                miscPipeline.tasks == old(miscPipeline.tasks) + [CacheTask(Some(id))]
      ensures PersonalQueueLength(id) == old(PersonalQueueLength(id)) + (if id in old(fastLocations) then 0 else 1)
      ensures old(Retained()) ==> Retained()
      ensures locationQueue == old(locationQueue) && perPlayerLocationQueue == old(perPlayerLocationQueue)
      ensures locAssChunks == old(locAssChunks) && keeps == old(keeps) && playerQueue == old(playerQueue)
      ensures shape == old(shape) && dispatched == old(dispatched) && cachePipeline.tasks == old(cachePipeline.tasks)
    {
      if id in fastLocations {
        return fastLocations[id];
      }
      fastLocations := fastLocations[id := Pending];
      miscPipeline.Add(CacheTask(Some(id)));
      f := Pending;
      FastPending(old(fastLocations), id);
    }

    /** queue(id): make sure the player has a personal queue and queue a Cache task for them. */
    method Queue(id: Uuid)
      requires Valid()
      modifies this, miscPipeline
      ensures Valid()
      ensures perPlayerLocationQueue ==
                if id in old(perPlayerLocationQueue) then old(perPlayerLocationQueue)
                else old(perPlayerLocationQueue)[id := []]
      ensures miscPipeline.tasks == old(miscPipeline.tasks) + [CacheTask(Some(id))]
      ensures HasLocation(Some(id)) && PersonalQueueLength(id) == old(PersonalQueueLength(id))
      ensures old(Retained()) ==> Retained()
      ensures locationQueue == old(locationQueue) && fastLocations == old(fastLocations)
      ensures locAssChunks == old(locAssChunks) && keeps == old(keeps) && playerQueue == old(playerQueue)
      ensures shape == old(shape) && dispatched == old(dispatched) && cachePipeline.tasks == old(cachePipeline.tasks)
    {
      if id !in perPlayerLocationQueue {
        PersonalCreated(perPlayerLocationQueue, id, locationQueue);
        perPlayerLocationQueue := perPlayerLocationQueue[id := []];
      }
      miscPipeline.Add(CacheTask(Some(id)));
    }

    // -------------------------------------------------------------------
    // Shape, shutdown and clone

    /** The world-border override flag; a string flag is stored back as a boolean. */
    method ReadOverride() returns (wbo: bool)
      requires Valid()
      modifies params
      ensures Valid()
      ensures wbo == WorldBorderOverride(old(params.data))
      ensures params.data == OverrideStored(old(params.data))
    {
      wbo := false;
      if WORLD_BORDER_OVERRIDE in params.data {
        match params.data[WORLD_BORDER_OVERRIDE]
        case Bool(b) =>
          wbo := b;
        case Str(text) =>
          wbo := ParseBoolean(text);
          params.data := params.data[WORLD_BORDER_OVERRIDE := Bool(wbo)];
        case _ =>
      }
    }

    /**
     * getShape: reads the world-border override flag, storing a string
     * flag back as a boolean. With the flag set and a world-border shape
     * that differs from the region's (`sameShape` is Shape.equals), the
     * world-border shape replaces it and every personal and public cached
     * location is dropped with its chunk set; fast futures are kept.
     */
    method GetShape(border: Shape, sameShape: bool) returns (sh: Shape)
      requires Valid()
      modifies this, params
      ensures Valid()
      ensures params.data == OverrideStored(old(params.data))
      ensures var drain := WorldBorderOverride(old(params.data)) && !sameShape;
        sh == shape && shape == (if drain then border else old(shape)) &&
        (!drain ==> locationQueue == old(locationQueue) && perPlayerLocationQueue == old(perPlayerLocationQueue) &&
                    locAssChunks == old(locAssChunks) && keeps == old(keeps)) &&
        (drain ==> locationQueue == [] && perPlayerLocationQueue == map[] &&
                   locAssChunks == Without(old(locAssChunks), DrainedLocations(old(perPlayerLocationQueue), old(locationQueue))))
      ensures fastLocations == old(fastLocations) && playerQueue == old(playerQueue) && dispatched == old(dispatched)
    {
      var wbo := ReadOverride();
      if wbo && !sameShape {
        shape := border;
        RemoveChunksIn(DrainedLocations(perPlayerLocationQueue, locationQueue));
        perPlayerLocationQueue := map[];
        locationQueue := [];
      }
      sh := shape;
    }

    /**
     * shutDown: when the world is known, stop and clear the cache pipeline,
     * empty every queue, and release and drop every chunk set.
     */
    method ShutDown(worldKnown: bool)
      requires Valid()
      modifies this, cachePipeline
      ensures Valid()
      ensures !worldKnown ==> locationQueue == old(locationQueue) && locAssChunks == old(locAssChunks) &&
                              keeps == old(keeps) && cachePipeline.tasks == old(cachePipeline.tasks) &&
                              playerQueue == old(playerQueue) && perPlayerLocationQueue == old(perPlayerLocationQueue) &&
                              fastLocations == old(fastLocations) && cachePipeline.stopped == old(cachePipeline.stopped)
      ensures worldKnown ==>
                cachePipeline.stopped && cachePipeline.tasks == [] &&
                playerQueue == [] && perPlayerLocationQueue == map[] && fastLocations == map[] &&
                locationQueue == [] && locAssChunks == map[] &&
                |keeps| == |old(keeps)| && forall id :: 0 <= id < |keeps| ==> keeps[id] == 0
      ensures worldKnown ==> Retained()
      ensures shape == old(shape) && dispatched == old(dispatched)
    {
      if !worldKnown {
        return;
      }
      cachePipeline.Stop();
      cachePipeline.Clear();
      playerQueue := [];
      perPlayerLocationQueue := map[];
      fastLocations := map[];
      locationQueue := [];
      RemoveChunksIn(locAssChunks.Keys);
      assert locAssChunks == map[];
      EmptyBalanced(keeps);
    }

    /**
     * clone(): a copy with its own parameters and empty queues and chunk
     * sets, sharing the shape and both pipelines with the original.
     */
    method Clone() returns (c: Region)
      requires Valid()
      ensures fresh(c) && fresh(c.params) && c.Valid() && c.Retained()
      ensures c.name == name && c.params.data == params.data && c.params.name == params.name && c.shape == shape
      ensures c.params.enumClass == params.enumClass && c.params.constants == params.constants
      ensures c.cachePipeline == cachePipeline && c.miscPipeline == miscPipeline
      ensures c.locationQueue == [] && c.locAssChunks == map[] && c.perPlayerLocationQueue == map[]
      ensures c.fastLocations == map[] && c.playerQueue == [] && c.keeps == []
    {
      var p := params.Clone();
      c := new Region.Copy(name, p, shape, cachePipeline, miscPipeline);
    }

    // -------------------------------------------------------------------
    // Cache.run

    /**
     * The completion callback of Cache.run for a selected entry whose chunk
     * set `cs` is stored: on success the entry goes to the public queue (a
     * public task), to the player's pending fast future, or to the player's
     * own queue; on failure the set is released and dropped.
     */
    method Route(task: CacheTask, e: Entry, cs: ChunkSet, success: bool)
      requires Valid() && e.loc in locAssChunks && locAssChunks[e.loc] == cs
      modifies this
      ensures Valid()
      ensures success && task.player.None? ==>
                locationQueue == old(locationQueue) + [e] &&
                perPlayerLocationQueue == old(perPlayerLocationQueue) && fastLocations == old(fastLocations)
      ensures success && task.player.Some? ==>
                var p := task.player.value;
                locationQueue == old(locationQueue) &&
                if p in old(fastLocations) && old(fastLocations)[p].Pending? then
                  fastLocations == old(fastLocations)[p := Future.Done(e)] &&
                  perPlayerLocationQueue == old(perPlayerLocationQueue)
                else
                  fastLocations == old(fastLocations) &&
                  perPlayerLocationQueue == old(perPlayerLocationQueue)[p := PersonalQueue(old(perPlayerLocationQueue), p) + [e]]
      ensures success ==> locAssChunks == old(locAssChunks) && keeps == old(keeps)
      ensures !success ==>
                locAssChunks == old(locAssChunks) - {e.loc} && locationQueue == old(locationQueue) &&
                perPlayerLocationQueue == old(perPlayerLocationQueue) && fastLocations == old(fastLocations)
      ensures success && old(Retained()) ==> Retained()
      ensures !success && old(Retained()) && e.loc !in old(QueuedLocations()) ==> Retained()
      ensures playerQueue == old(playerQueue) && shape == old(shape) && dispatched == old(dispatched)
    {
      if !success {
        RemoveChunks(e.loc);
        return;
      }
      match task.player
      case None =>
        PublicAppended(perPlayerLocationQueue, locationQueue, e);
        locationQueue := locationQueue + [e];
      case Some(p) =>
        if p in fastLocations && fastLocations[p].Pending? {
          FastCompleted(fastLocations, p, e);
          fastLocations := fastLocations[p := Future.Done(e)];
        } else {
          PersonalAppended(perPlayerLocationQueue, p, e, locationQueue);
          perPlayerLocationQueue := perPlayerLocationQueue[p := PersonalQueue(perPlayerLocationQueue, p) + [e]];
        }
    }

    /** Queue one more public Cache task when the pipeline and the cache are short of cap. */
    method TopUpOnce(cap: int)
      modifies cachePipeline
      ensures cachePipeline.tasks == old(cachePipeline.tasks) +
                (if |old(cachePipeline.tasks)| + |locationQueue| < cap + |playerQueue| then [CacheTask(None)] else [])
      ensures cachePipeline.stopped == old(cachePipeline.stopped)
    {
      if |cachePipeline.tasks| + |locationQueue| < cap + |playerQueue| {
        cachePipeline.Add(CacheTask(None));
      }
    }

    /** The location a run of Cache.run selects, when its selection returns one. */
    ghost function Chosen(env: CacheEnv): Option<Location>
    {
      var r := Select(env.t, CacheSettings(env), false);
      if r.IsPair() then r.location else None
    }

    /**
     * The chunk set that chunks(loc, radius, true) hands back: the stored
     * set when it has enough chunks, else a new set with the next keep id,
     * the (2r+1)^2 requests around loc, completing as the load does.
     */
    ghost function StoredSet(loc: Location, radius: int, loaded: Option<bool>): ChunkSet
      reads this
    {
      if loc in locAssChunks && |locAssChunks[loc].chunks| >= Wanted(radius) then locAssChunks[loc]
      else ChunkSet(|keeps|, Requests(ChunkIndex(loc.x), ChunkIndex(loc.z), radius), loaded)
    }

    /** The completion of that set. */
    ghost function SetCompletion(loc: Location, radius: int, loaded: Option<bool>): Option<bool>
      reads this
    {
      StoredSet(loc, radius, loaded).completion
    }

    /**
     * What the completion callback of Cache.run did with entry `e`: on
     * success a public task appends it to the public queue, and a player
     * task completes the player's pending fast future or else extends the
     * player's own queue, the chunk set staying stored; on failure the set
     * is released and dropped and no queue changes.
     */
    twostate predicate RoutedTo(task: CacheTask, e: Entry, success: bool)
      reads this
    {
      (success && task.player.None? ==>
         locationQueue == old(locationQueue) + [e] &&
         perPlayerLocationQueue == old(perPlayerLocationQueue) && fastLocations == old(fastLocations)) &&
      (success && task.player.Some? ==>
         var p := task.player.value;
         locationQueue == old(locationQueue) &&
         if p in old(fastLocations) && old(fastLocations)[p].Pending? then
           fastLocations == old(fastLocations)[p := Future.Done(e)] &&
           perPlayerLocationQueue == old(perPlayerLocationQueue)
         else
           fastLocations == old(fastLocations) &&
           perPlayerLocationQueue == old(perPlayerLocationQueue)[p := PersonalQueue(old(perPlayerLocationQueue), p) + [e]]) &&
      (success ==> e.loc in locAssChunks && locAssChunks - {e.loc} == old(locAssChunks) - {e.loc}) &&
      (!success ==>
         locAssChunks == old(locAssChunks) - {e.loc} && locationQueue == old(locationQueue) &&
         perPlayerLocationQueue == old(perPlayerLocationQueue) && fastLocations == old(fastLocations))
    }

    /**
     * The part of Cache.run after a location is selected: get its chunk
     * set and, when the set's load has completed, route the entry.
     * `routed` is the entry and the completion, when there was one.
     */
    method Place(task: CacheTask, loc: Location, attempts: int, radius: int, loaded: Option<bool>)
      returns (ghost routed: Option<(Entry, bool)>)
      requires Valid()
      modifies this
      ensures Valid()
      ensures var c := old(SetCompletion(loc, radius, loaded));
        routed == if c.Some? then Some((Entry(loc, attempts), c.value)) else None
      ensures routed.Some? ==> RoutedTo(task, routed.value.0, routed.value.1)
      ensures routed.None? ==>
                locationQueue == old(locationQueue) && perPlayerLocationQueue == old(perPlayerLocationQueue) &&
                fastLocations == old(fastLocations) && locAssChunks - {loc} == old(locAssChunks) - {loc}
      ensures routed.None? || routed.value.1 ==> loc in locAssChunks && locAssChunks[loc] == old(StoredSet(loc, radius, loaded))
      ensures old(Retained()) && loc !in old(QueuedLocations()) ==> Retained()
      ensures playerQueue == old(playerQueue) && shape == old(shape) && dispatched == old(dispatched)
    {
      ghost var sets := locAssChunks;
      ghost var queued := QueuedLocations();
      var cs := Chunks(loc, radius, true, loaded);
      assert locAssChunks - {loc} == sets - {loc} && loc in locAssChunks;
      assert QueuedLocations() == queued;
      var chunkSet := cs.value;
      if chunkSet.completion.Some? {
        routed := Some((Entry(loc, attempts), chunkSet.completion.value));
        Route(task, Entry(loc, attempts), chunkSet, chunkSet.completion.value);
      } else {
        routed := None;
      }
    }

    /**
     * Cache.run: read cacheCap (at least the number of waiting players),
     * select a location; for a location, get its chunk set and route the
     * entry when the set's load has completed; finally queue one more public
     * task while the pipeline and the cache are short of cap. `routed` is
     * the routed entry and its completion, when there was one.
     */
    method CacheRun(task: CacheTask, env: CacheEnv) returns (out: Outcome, ghost routed: Option<(Entry, bool)>)
      requires Valid()
      modifies this, params, cachePipeline
      ensures Valid()
      ensures var n := NumberOf(old(params.data), CACHE_CAP, LongNum(DEFAULT_CACHE_CAP));
        (n.Err? ==> out == Fail(n.error) && locationQueue == old(locationQueue) &&
                    locAssChunks == old(locAssChunks) && cachePipeline.tasks == old(cachePipeline.tasks)) &&
        (n.Ok? ==> out == Pass &&
                   cachePipeline.tasks == old(cachePipeline.tasks) +
                     (if |old(cachePipeline.tasks)| + |locationQueue| < Max(n.value.LongValue(), |old(playerQueue)|) + |playerQueue|
                      then [CacheTask(None)] else [])) &&
        routed == (if n.Err? || Chosen(env).None? then None
                   else var c := old(SetCompletion(Chosen(env).value, env.radius, env.loaded));
                     if c.Some? then Some((Entry(Chosen(env).value, Select(env.t, CacheSettings(env), false).attempts), c.value))
                     else None)
      ensures routed.Some? ==> RoutedTo(task, routed.value.0, routed.value.1)
      ensures routed.None? ==>
                locationQueue == old(locationQueue) && perPlayerLocationQueue == old(perPlayerLocationQueue) &&
                fastLocations == old(fastLocations)
      ensures Chosen(env).None? ==> locAssChunks == old(locAssChunks)
      ensures NumberOf(old(params.data), CACHE_CAP, LongNum(DEFAULT_CACHE_CAP)).Ok? && Chosen(env).Some? ==>
                var loc := Chosen(env).value;
                locAssChunks - {loc} == old(locAssChunks) - {loc} &&
                (routed.None? || routed.value.1 ==> loc in locAssChunks && locAssChunks[loc] == old(StoredSet(loc, env.radius, env.loaded)))
      ensures forall e :: e in locationQueue && e !in old(locationQueue) ==> Some(e.loc) == Chosen(env)
      ensures old(Retained()) && (Chosen(env).None? || Chosen(env).value !in old(QueuedLocations())) ==> Retained()
      ensures old(locationQueue) <= locationQueue && |locationQueue| <= |old(locationQueue)| + 1
      ensures playerQueue == old(playerQueue) && shape == old(shape) && dispatched == old(dispatched)
    {
      routed := None;
      var n := params.GetNumber(CACHE_CAP, LongNum(DEFAULT_CACHE_CAP));
      if n.Err? {
        return Fail(n.error), routed;
      }
      out := Pass;
      var cacheCap := Max(n.value.LongValue(), |playerQueue|);
      var s := CacheSettings(env);
      var r := SelectLocation(env.t, s);
      if r.IsPair() && r.location.Some? {
        routed := Place(task, r.location.value, r.attempts, env.radius, env.loaded);
      }
      TopUpOnce(cacheCap);
    }

    /** Run up to one task per run description, in FIFO order, from one of the pipelines. */
    method RunPipeline(pipe: TaskPipe, envs: seq<CacheEnv>)
      requires Valid() && (pipe == cachePipeline || pipe == miscPipeline)
      modifies this, params, cachePipeline, miscPipeline
      ensures Valid()
      ensures old(locationQueue) <= locationQueue && |locationQueue| <= |old(locationQueue)| + |envs|
      ensures playerQueue == old(playerQueue) && shape == old(shape) && dispatched == old(dispatched)
    {
      var k := 0;
      while k < |envs| && pipe.tasks != []
        invariant Valid() && k <= |envs|
        invariant old(locationQueue) <= locationQueue && |locationQueue| <= |old(locationQueue)| + k
        invariant playerQueue == old(playerQueue) && shape == old(shape) && dispatched == old(dispatched)
      {
        var task := pipe.Poll();
        var _, _ := CacheRun(task.value, envs[k]);
        k := k + 1;
      }
    }

    // -------------------------------------------------------------------
    // execute

    /**
     * The top-up of execute: public Cache tasks are added until the
     * pipeline and the cache together reach cap plus the waiting players.
     */
    method TopUp(cap: int)
      modifies cachePipeline
      ensures cachePipeline.tasks == old(cachePipeline.tasks) +
                Repeat(CacheTask(None), Max(0, cap + |playerQueue| - |old(cachePipeline.tasks)| - |locationQueue|))
      ensures |cachePipeline.tasks| + |locationQueue| >= cap + |playerQueue|
      ensures cachePipeline.stopped == old(cachePipeline.stopped)
    {
      ghost var added := 0;
      while |cachePipeline.tasks| + |locationQueue| < cap + |playerQueue|
        invariant added >= 0
        invariant cachePipeline.tasks == old(cachePipeline.tasks) + Repeat(CacheTask(None), added)
        invariant added <= Max(0, cap + |playerQueue| - |old(cachePipeline.tasks)| - |locationQueue|)
        invariant cachePipeline.stopped == old(cachePipeline.stopped)
        decreases cap + |playerQueue| - |cachePipeline.tasks| - |locationQueue|
      {
        cachePipeline.Add(CacheTask(None));
        added := added + 1;
      }
    }

    /**
     * The matching loop of execute: each polled online player is handed
     * the next cached entry; an offline one is dropped; a stale one ends
     * the loop.
     */
    method MatchPlayers(status: Uuid -> Waiting)
      requires Valid()
      modifies this
      ensures Valid()
      ensures var m := Match(old(locationQueue), old(playerQueue), status);
        dispatched == old(dispatched) + m.pairs && locationQueue == m.locations && playerQueue == m.players
      ensures locAssChunks == old(locAssChunks) && keeps == old(keeps) && shape == old(shape)
      ensures perPlayerLocationQueue == old(perPlayerLocationQueue) && fastLocations == old(fastLocations)
      ensures old(Retained()) ==> Retained()
    {
      ghost var goal := Match(locationQueue, playerQueue, status);
      ghost var handed: seq<(Uuid, Entry)> := [];
      while locationQueue != [] && playerQueue != []
        modifies this
        invariant Valid()
        invariant goal.pairs == handed + Match(locationQueue, playerQueue, status).pairs
        invariant goal.locations == Match(locationQueue, playerQueue, status).locations
        invariant goal.players == Match(locationQueue, playerQueue, status).players
        invariant dispatched == old(dispatched) + handed
        invariant locAssChunks == old(locAssChunks) && keeps == old(keeps) && shape == old(shape)
        invariant perPlayerLocationQueue == old(perPlayerLocationQueue) && fastLocations == old(fastLocations)
        invariant old(Retained()) ==> Retained()
        decreases |playerQueue|
      {
        ghost var m := Match(locationQueue, playerQueue, status);
        var playerId := playerQueue[0];
        playerQueue := playerQueue[1..];
        match status(playerId)
        case Stale =>
          assert m == Matched([], locationQueue, playerQueue);
          assert goal.pairs == handed + [];
          return;
        case Offline =>
          assert m == Match(locationQueue, playerQueue, status);
        case Online =>
          var pair := locationQueue[0];
          PublicPolled(perPlayerLocationQueue, locationQueue);
          locationQueue := locationQueue[1..];
          dispatched := dispatched + [(playerId, pair)];
          handed := handed + [(playerId, pair)];
          assert m.pairs == [(playerId, pair)] + Match(locationQueue, playerQueue, status).pairs;
      }
      assert goal.pairs == handed + [];
    }

    /**
     * execute as written: after the misc pipeline, read cacheCap (at least
     * the number of waiting players); when the public cache already holds
     * cap entries, return at once; otherwise top the cache pipeline up, run
     * it, and match waiting players to cached entries.
     */
    method Execute(miscEnvs: seq<CacheEnv>, cacheEnvs: seq<CacheEnv>, status: Uuid -> Waiting) returns (out: Outcome)
      requires Valid()
      modifies this, params, cachePipeline, miscPipeline
      ensures Valid()
      ensures shape == old(shape)
    {
      RunPipeline(miscPipeline, miscEnvs);
      ghost var mid;
      out, mid := Cycle(cacheEnvs, status);
    }

    /**
     * execute after its misc pipeline, as written. `mid` is the public
     * queue once the cache pipeline has run: the old queue with the newly
     * routed entries after it, which the waiting players are then matched to.
     */
    method Cycle(envs: seq<CacheEnv>, status: Uuid -> Waiting) returns (out: Outcome, ghost mid: seq<Entry>)
      requires Valid()
      modifies this, params, cachePipeline, miscPipeline
      ensures Valid()
      ensures var n := NumberOf(old(params.data), CACHE_CAP, LongNum(DEFAULT_CACHE_CAP));
        (n.Err? ==> out == Fail(n.error) && dispatched == old(dispatched) &&
                    locationQueue == old(locationQueue) && playerQueue == old(playerQueue)) &&
        (n.Ok? ==> out == Pass) &&
        (n.Ok? && |old(locationQueue)| >= Max(n.value.LongValue(), |old(playerQueue)|) ==>
           dispatched == old(dispatched) && locationQueue == old(locationQueue) &&
           playerQueue == old(playerQueue) && cachePipeline.tasks == old(cachePipeline.tasks)) &&
        (n.Ok? && |old(locationQueue)| < Max(n.value.LongValue(), |old(playerQueue)|) ==>
           old(locationQueue) <= mid && |mid| <= |old(locationQueue)| + |envs| &&
           var m := Match(mid, old(playerQueue), status);
           dispatched == old(dispatched) + m.pairs && locationQueue == m.locations && playerQueue == m.players &&
           ((forall k :: 0 <= k < |old(playerQueue)| ==> status(old(playerQueue)[k]) != Stale) ==>
              locationQueue == [] || playerQueue == []))
      ensures |playerQueue| <= |old(playerQueue)| && playerQueue == old(playerQueue)[|old(playerQueue)| - |playerQueue|..]
      ensures shape == old(shape)
    {
      mid := locationQueue;
      var n := params.GetNumber(CACHE_CAP, LongNum(DEFAULT_CACHE_CAP));
      if n.Err? {
        return Fail(n.error), mid;
      }
      out := Pass;
      var cacheCap := Max(n.value.LongValue(), |playerQueue|);
      if |locationQueue| >= cacheCap {
        return;
      }
      TopUp(cacheCap);
      RunPipeline(cachePipeline, envs);
      mid := locationQueue;
      MatchDrains(locationQueue, playerQueue, status);
      MatchFifo(locationQueue, playerQueue, status);
      MatchPlayers(status);
    }

    /** execute with the early return confined to the top-up, as evidently intended. */
    method ExecuteIntended(miscEnvs: seq<CacheEnv>, cacheEnvs: seq<CacheEnv>, status: Uuid -> Waiting) returns (out: Outcome)
      requires Valid()
      modifies this, params, cachePipeline, miscPipeline
      ensures Valid()
      ensures shape == old(shape)
    {
      RunPipeline(miscPipeline, miscEnvs);
      ghost var mid;
      out, mid := CycleIntended(cacheEnvs, status);
    }

    /**
     * The corrected cycle: a full cache skips only the top-up and the cache
     * pipeline; waiting players are always matched, so unless one of them is
     * stale the cycle ends with no cached entry or no waiting player.
     */
    method CycleIntended(envs: seq<CacheEnv>, status: Uuid -> Waiting) returns (out: Outcome, ghost mid: seq<Entry>)
      requires Valid()
      modifies this, params, cachePipeline, miscPipeline
      ensures Valid()
      ensures var n := NumberOf(old(params.data), CACHE_CAP, LongNum(DEFAULT_CACHE_CAP));
        (n.Err? ==> out == Fail(n.error) && dispatched == old(dispatched) &&
                    locationQueue == old(locationQueue) && playerQueue == old(playerQueue)) &&
        (n.Ok? ==> out == Pass) &&
        (n.Ok? && |old(locationQueue)| >= Max(n.value.LongValue(), |old(playerQueue)|) ==>
           var m := Match(old(locationQueue), old(playerQueue), status);
           dispatched == old(dispatched) + m.pairs && locationQueue == m.locations && playerQueue == m.players &&
           cachePipeline.tasks == old(cachePipeline.tasks)) &&
        (n.Ok? ==>
           old(locationQueue) <= mid && |mid| <= |old(locationQueue)| + |envs| &&
           var m := Match(mid, old(playerQueue), status);
           dispatched == old(dispatched) + m.pairs && locationQueue == m.locations && playerQueue == m.players)
      ensures |playerQueue| <= |old(playerQueue)| && playerQueue == old(playerQueue)[|old(playerQueue)| - |playerQueue|..]
      ensures out.Pass? && (forall k :: 0 <= k < |old(playerQueue)| ==> status(old(playerQueue)[k]) != Stale) ==>
                locationQueue == [] || playerQueue == []
      ensures shape == old(shape)
    {
      mid := locationQueue;
      var n := params.GetNumber(CACHE_CAP, LongNum(DEFAULT_CACHE_CAP));
      if n.Err? {
        return Fail(n.error), mid;
      }
      out := Pass;
      var cacheCap := Max(n.value.LongValue(), |playerQueue|);
      if |locationQueue| < cacheCap {
        TopUp(cacheCap);
        RunPipeline(cachePipeline, envs);
      }
      mid := locationQueue;
      MatchDrains(locationQueue, playerQueue, status);
      MatchFifo(locationQueue, playerQueue, status);
      MatchPlayers(status);
    }

    // -------------------------------------------------------------------
    // getLocation(sender, player, biomeNames)

    /** The re-check of one polled entry: its chunk, the safety scan around it, the verifiers. */
    static method RecheckEntry(t: Terrain, sc: Scope, e: Entry) returns (c: Recheck)
      ensures c == RecheckOf(t, sc, e)
    {
      var home := HomeChunk(e.loc);
      match t.load(home)
      case LoadFailed =>
        c := Skip;
      case NullChunk =>
        c := Abort;
      case Loaded =>
        var scan := SafetyScan(t, sc, home, e.loc);
        if scan == ScanLoadFailed {
          return Abort;
        }
        var pass := scan == Safe;
        if pass {
          pass := CheckVerifiers(t.verifiers, e.loc);
        }
        c := if pass then Keep else Skip;
    }

    /**
     * The walk through the player's own queue: each polled entry's chunk is
     * fetched and the safety scan and the verifiers re-run around it.
     */
    method PollPersonal(t: Terrain, sc: Scope, player: Uuid) returns (p: Pick)
      requires Valid() && player in perPlayerLocationQueue
      modifies this
      ensures Valid()
      ensures p == PersonalPick(t, sc, old(perPlayerLocationQueue)[player], None)
      ensures perPlayerLocationQueue == old(perPlayerLocationQueue)[player := RestOf(p)]
      ensures old(Retained()) ==> Retained()
      ensures locationQueue == old(locationQueue) && fastLocations == old(fastLocations)
      ensures locAssChunks == old(locAssChunks) && keeps == old(keeps) && playerQueue == old(playerQueue)
      ensures shape == old(shape) && dispatched == old(dispatched)
    {
      ghost var goal := PersonalPick(t, sc, perPlayerLocationQueue[player], None);
      var q := perPlayerLocationQueue[player];
      var last: Option<Entry> := None;
      while q != []
        modifies this
        invariant Valid() && PersonalPick(t, sc, q, last) == goal
        invariant perPlayerLocationQueue == old(perPlayerLocationQueue)[player := q]
        invariant old(Retained()) ==> Retained()
        invariant locationQueue == old(locationQueue) && fastLocations == old(fastLocations)
        invariant locAssChunks == old(locAssChunks) && keeps == old(keeps) && playerQueue == old(playerQueue)
        invariant shape == old(shape) && dispatched == old(dispatched)
        decreases |q|
      {
        var e := q[0];
        PersonalPolled(perPlayerLocationQueue, player, q[1..], locationQueue);
        q := q[1..];
        perPlayerLocationQueue := perPlayerLocationQueue[player := q];
        var c := RecheckEntry(t, sc, e);
        match c
        case Skip =>
          last := Some(e);
        case Abort =>
          return Broke(q);
        case Keep =>
          return Picked(e, q);
      }
      p := Emptied(last);
    }

    /** The walk through the public queue: the first entry no verifier rejects. */
    method PollPublic(vs: seq<Location -> Verdict>, last0: Option<Entry>) returns (p: Pick)
      requires Valid()
      modifies this
      ensures Valid()
      ensures p == PublicPick(vs, old(locationQueue), last0) && locationQueue == RestOf(p)
      ensures old(Retained()) ==> Retained()
      ensures perPlayerLocationQueue == old(perPlayerLocationQueue) && fastLocations == old(fastLocations)
      ensures locAssChunks == old(locAssChunks) && keeps == old(keeps) && playerQueue == old(playerQueue)
      ensures shape == old(shape) && dispatched == old(dispatched)
    {
      ghost var goal := PublicPick(vs, locationQueue, last0);
      var last := last0;
      while locationQueue != []
        modifies this
        invariant Valid() && PublicPick(vs, locationQueue, last) == goal
        invariant old(Retained()) ==> Retained()
        invariant perPlayerLocationQueue == old(perPlayerLocationQueue) && fastLocations == old(fastLocations)
        invariant locAssChunks == old(locAssChunks) && keeps == old(keeps) && playerQueue == old(playerQueue)
        invariant shape == old(shape) && dispatched == old(dispatched)
        decreases |locationQueue|
      {
        var e := locationQueue[0];
        PublicPolled(perPlayerLocationQueue, locationQueue);
        locationQueue := locationQueue[1..];
        var pass := CheckVerifiers(vs, e.loc);
        if pass {
          return Picked(e, locationQueue);
        }
        last := Some(e);
      }
      p := Emptied(last);
    }

    /**
     * getLocation(sender, player, biomeNames): unless biomes are requested,
     * the player's own queue and then the public queue are polled for an
     * entry that still passes; failing that, a player allowed unqueued
     * teleports (or one who asked for biomes) gets a fresh selection, and
     * any other player joins the player queue and gets back the last entry
     * polled, which did not pass, or nothing. `sc` is the safety radius and
     * the unsafe block names as last read from the safety configuration.
     */
    method GetLocationFor(t: Terrain, s: Settings, sc: Scope, player: Uuid, unqueued: bool)
      returns (r: Result<Option<Pair>>)
      requires Valid()
      modifies this
      ensures Valid()
      ensures s.requested != {} ==>
                r == FreshPair(t, s) && perPlayerLocationQueue == old(perPlayerLocationQueue) &&
                locationQueue == old(locationQueue) && playerQueue == old(playerQueue)
      ensures s.requested == {} && player in old(perPlayerLocationQueue) ==>
                var own := PersonalPick(t, sc, old(perPlayerLocationQueue)[player], None);
                perPlayerLocationQueue == old(perPlayerLocationQueue)[player := RestOf(own)] &&
                (own.Picked? ==> r == Ok(Some(PairOf(own.entry))) &&
                                 locationQueue == old(locationQueue) && playerQueue == old(playerQueue)) &&
                (own.Broke? ==> r == Ok(None) && locationQueue == old(locationQueue) && playerQueue == old(playerQueue))
      ensures s.requested == {} && player !in old(perPlayerLocationQueue) ==>
                perPlayerLocationQueue == old(perPlayerLocationQueue)
      ensures s.requested == {} ==>
                var own := if player in old(perPlayerLocationQueue)
                           then PersonalPick(t, sc, old(perPlayerLocationQueue)[player], None) else Emptied(None);
                own.Emptied? ==>
                  var public := PublicPick(t.verifiers, old(locationQueue), own.last);
                  locationQueue == RestOf(public) &&
                  (public.Picked? ==> r == Ok(Some(PairOf(public.entry))) && playerQueue == old(playerQueue)) &&
                  (public.Emptied? && unqueued ==> r == FreshPair(t, s) && playerQueue == old(playerQueue)) &&
                  (public.Emptied? && !unqueued ==> r == Ok(PairOption(public.last)) && playerQueue == old(playerQueue) + [player])
      ensures old(Retained()) ==> Retained()
      ensures fastLocations == old(fastLocations) && locAssChunks == old(locAssChunks) && keeps == old(keeps)
      ensures shape == old(shape) && dispatched == old(dispatched)
    {
      var custom := s.requested != {};
      var last: Option<Entry> := None;
      if !custom && player in perPlayerLocationQueue {
        var own := PollPersonal(t, sc, player);
        match own
        case Picked(e, _) =>
          return Ok(Some(PairOf(e)));
        case Broke(_) =>
          return Ok(None);
        case Emptied(l) =>
          last := l;
      }
      if !custom {
        var public := PollPublic(t.verifiers, last);
        if public.Picked? {
          return Ok(Some(PairOf(public.entry)));
        }
        last := public.last;
      }
      if custom || unqueued {
        var sel := SelectLocation(t, s);
        if !sel.IsPair() {
          return Err(NullPointer);
        }
        r := Ok(Some(Pair(sel.location, sel.attempts)));
      } else {
        playerQueue := playerQueue + [player];
        r := Ok(PairOption(last));
      }
    }

  }

  // -----------------------------------------------------------------------
  // A full cache stalls waiting players (execute as written)

  function StallPlayer(): Uuid
  {
    Uuid(1, 2)
  }

  function StallEntry(): Entry
  {
    Entry(Location("world", 8, 64, 8), 1)
  }

  /** A region with cacheCap 1, one cached entry and one waiting player. */
  method StallRegion() returns (r: Region)
    ensures fresh(r) && fresh(r.params) && fresh(r.cachePipeline) && fresh(r.miscPipeline) && r.Valid()
    ensures r.params.data == map[CACHE_CAP := Num(LongNum(1))]
    ensures r.locationQueue == [StallEntry()] && r.playerQueue == [StallPlayer()] && r.dispatched == []
  {
    var shape := new Shape("SQUARE", false);
    r := new Region("default", ["Region"], [CACHE_CAP, WORLD_BORDER_OVERRIDE], map[CACHE_CAP := Num(LongNum(1))], shape);
    r.locationQueue := [StallEntry()];
    r.playerQueue := [StallPlayer()];
  }

  /**
   * As written, a cycle of execute with the online player waiting and the
   * cache full hands nothing on, and the next cycle is in the same state.
   */
  method StallAsWritten() returns (handed: seq<(Uuid, Entry)>, waiting: seq<Uuid>, cached: seq<Entry>)
    ensures handed == [] && waiting == [StallPlayer()] && cached == [StallEntry()]
  {
    var r := StallRegion();
    ghost var n := NumberOf(r.params.data, CACHE_CAP, LongNum(DEFAULT_CACHE_CAP));
    assert n == Ok(LongNum(1)) && |r.locationQueue| >= Max(n.value.LongValue(), |r.playerQueue|);
    var _, _ := r.Cycle([], (u: Uuid) => Online);
    handed, waiting, cached := r.dispatched, r.playerQueue, r.locationQueue;
  }

  /** With the corrected cycle the waiting player gets the cached entry. */
  method StallIntended() returns (handed: seq<(Uuid, Entry)>, waiting: seq<Uuid>, cached: seq<Entry>)
    ensures handed == [(StallPlayer(), StallEntry())] && waiting == [] && cached == []
  {
    var r := StallRegion();
    var status := (u: Uuid) => Online;
    assert Match([StallEntry()], [StallPlayer()], status) == Matched([(StallPlayer(), StallEntry())], [], []);
    var _, _ := r.CycleIntended([], status);
    handed, waiting, cached := r.dispatched, r.playerQueue, r.locationQueue;
  }
}
