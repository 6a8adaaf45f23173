/**
 * The fill commands. "start" clears the memory of each named region's
 * shape and registers a new fill task for it, unless one is registered
 * already; "resume" unpauses the registered tasks and hands over to
 * "start" at the first region without one.
 */
module Fill {
  import opened Common
  import opened Regions
  import opened SelectionApi

  /** A registered fill task: its region, the position it started from, and its pause flag. */
  class FillTask {
    const region: Region
    const start: int
    var pause: bool

    constructor (region: Region, start: int)
      ensures this.region == region && this.start == start && !pause
    {
      this.region := region;
      this.start := start;
      pause := false;
    }
  }

  /** Who sent a command: a player, or the console. */
  datatype Sender = Player | Console

  // -------------------------------------------------------------------
  // The regions a command works on

  /**
   * getRegions(caller, region parameter): one lookup per name given, in
   * order; without names, the caller's region if the caller is a player
   * (`playerRegion`, the result of getRegion(player)), else "default".
   * A lookup may give null.
   */
  method GetRegions(api: Api, sender: Sender, parameter: Option<seq<string>>, playerRegion: Result<Option<Region>>)
      returns (r: Result<seq<Option<Region>>>)
    ensures parameter.Some? ==>
              r.Ok? && |r.value| == |parameter.value| &&
              forall i :: 0 <= i < |r.value| ==> r.value[i] == api.GetRegion(parameter.value[i])
    ensures parameter.None? && sender.Player? ==>
              (r.Err? <==> playerRegion.Err?) && (r.Ok? ==> r.value == [playerRegion.value])
    ensures parameter.None? && sender.Console? ==> r == Ok([api.GetRegion("default")])
    ensures r.Err? ==> playerRegion.Err? && r.error == playerRegion.error
  {
    if parameter.Some? {
      var names := parameter.value;
      var regions: seq<Option<Region>> := [];
      for i := 0 to |names|
        invariant |regions| == i
        invariant forall j :: 0 <= j < i ==> regions[j] == api.GetRegion(names[j])
      {
        regions := regions + [api.GetRegion(names[i])];
      }
      r := Ok(regions);
    } else if sender.Player? {
      if playerRegion.Err? {
        return Err(playerRegion.error);
      }
      r := Ok([playerRegion.value]);
    } else {
      r := Ok([api.GetRegion("default")]);
    }
  }

  /** The index of the first null region at or after `i`, or the length if there is none. */
  function ReachedFrom(regions: seq<Option<Region>>, i: nat): (c: nat)
    requires i <= |regions|
    ensures i <= c <= |regions|
    decreases |regions| - i
  {
    if i == |regions| || regions[i].None? then i else ReachedFrom(regions, i + 1)
  }

  /** The number of regions before the first null: how far the loops get. */
  function Reached(regions: seq<Option<Region>>): nat
  {
    ReachedFrom(regions, 0)
  }

  /** Every region before `Reached` is there, and the one at `Reached`, if any, is null. */
  lemma {:induction false} ReachedFirstNull(regions: seq<Option<Region>>, i: nat)
    requires i <= |regions|
    ensures forall j :: i <= j < ReachedFrom(regions, i) ==> regions[j].Some?
    ensures ReachedFrom(regions, i) < |regions| ==> regions[ReachedFrom(regions, i)].None?
    decreases |regions| - i
  {
    if i < |regions| && regions[i].Some? {
      ReachedFirstNull(regions, i + 1);
    }
  }

  ghost function RegionsIn(regions: seq<Option<Region>>): set<Region>
  {
    set j | 0 <= j < |regions| && regions[j].Some? :: regions[j].value
  }

  ghost function ShapesOf(regions: seq<Option<Region>>): set<Shape>
    reads RegionsIn(regions)
  {
    set j | 0 <= j < |regions| && regions[j].Some? :: regions[j].value.shape
  }

  // -------------------------------------------------------------------
  // What start does, on a view of the regions

  /** What the loops see of a region: its name, whether its shape remembers positions, and the shape. */
  datatype Seen = Seen(name: string, memory: bool, shape: Shape)

  ghost function SeenOf(o: Option<Region>): Option<Seen>
    reads if o.Some? then {o.value} else {}
  {
    if o.None? then None else Some(Seen(o.value.name, o.value.shape.isMemory, o.value.shape))
  }

  ghost function View(regions: seq<Option<Region>>): (v: seq<Option<Seen>>)
    reads RegionsIn(regions)
    ensures |v| == |regions|
    ensures forall j :: 0 <= j < |v| ==> v[j] == SeenOf(regions[j])
  {
    seq(|regions|, j requires 0 <= j < |regions| reads RegionsIn(regions) => SeenOf(regions[j]))
  }

  predicate IsMemory(o: Option<Seen>)
  {
    o.Some? && o.value.memory
  }

  /** The names of the memory regions among the first `i`. */
  function MemoryNames(v: seq<Option<Seen>>, i: nat): set<string>
    requires i <= |v|
  {
    if i == 0 then {}
    else MemoryNames(v, i - 1) + (if IsMemory(v[i - 1]) then {v[i - 1].value.name} else {})
  }

  /** A name is among the memory names exactly when one of the first `i` regions is a memory region of that name. */
  lemma {:induction false} MemoryNamesMeaning(v: seq<Option<Seen>>, i: nat, name: string)
    requires i <= |v|
    ensures name in MemoryNames(v, i) <==> exists j :: 0 <= j < i && IsMemory(v[j]) && v[j].value.name == name
  {
    if i > 0 {
      MemoryNamesMeaning(v, i - 1, name);
    }
  }

  /**
   * Region `j` registers a new task: a memory region whose name had no
   * task and is not the name of an earlier memory region.
   */
  predicate Registers(v: seq<Option<Seen>>, j: nat, known: set<string>)
    requires j < |v|
  {
    IsMemory(v[j]) && v[j].value.name !in known && v[j].value.name !in MemoryNames(v, j)
  }

  /** The shapes of the regions among the first `i` that register a task. */
  function ClearedShapes(v: seq<Option<Seen>>, i: nat, known: set<string>): set<Shape>
    requires i <= |v|
  {
    if i == 0 then {}
    else ClearedShapes(v, i - 1, known) + (if Registers(v, i - 1, known) then {v[i - 1].value.shape} else {})
  }

  /** A shape is cleared exactly when it belongs to one of the first `i` regions that registers. */
  lemma {:induction false} ClearedShapesMeaning(v: seq<Option<Seen>>, i: nat, known: set<string>, s: Shape)
    requires i <= |v|
    ensures s in ClearedShapes(v, i, known) <==>
            exists j :: 0 <= j < i && Registers(v, j, known) && v[j].value.shape == s
  {
    if i > 0 {
      ClearedShapesMeaning(v, i - 1, known, s);
    }
  }

  /**
   * Starting regions whose names all have tasks already clears nothing:
   * a second start over the same regions leaves every memory alone.
   */
  lemma {:induction false} NothingClearedTwice(v: seq<Option<Seen>>, i: nat, known: set<string>)
    requires i <= |v| && MemoryNames(v, i) <= known
    ensures ClearedShapes(v, i, known) == {}
  {
    if i > 0 {
      assert MemoryNames(v, i) == MemoryNames(v, i - 1) + (if IsMemory(v[i - 1]) then {v[i - 1].value.name} else {});
      NothingClearedTwice(v, i - 1, known);
    }
  }

  /**
   * Handling region `i`: it registers exactly when it is a memory region
   * whose name has no task yet, and the names and cleared shapes grow by
   * its own.
   */
  lemma Step(v: seq<Option<Seen>>, i: nat, known: set<string>, keys: set<string>)
    requires i < |v| && v[i].Some? && keys == known + MemoryNames(v, i)
    ensures Registers(v, i, known) <==> IsMemory(v[i]) && v[i].value.name !in keys
    ensures MemoryNames(v, i + 1) == MemoryNames(v, i) + (if IsMemory(v[i]) then {v[i].value.name} else {})
    ensures ClearedShapes(v, i + 1, known) ==
            ClearedShapes(v, i, known) + (if Registers(v, i, known) then {v[i].value.shape} else {})
  {
  }

  /** What a memory shape remembers. */
  datatype Memory = Memory(badLocations: map<int, int>, biomeLocations: map<string, set<int>>, badLocationSum: int)

  ghost function MemoryOf(s: Shape): Memory
    reads s
  {
    Memory(s.badLocations, s.biomeLocations, s.badLocationSum)
  }

  /** The memory of a shape just cleared. */
  const Forgotten := Memory(map[], map[], 0)

  ghost function ShapeSet(v: seq<Option<Seen>>): set<Shape>
  {
    set j | 0 <= j < |v| && v[j].Some? :: v[j].value.shape
  }

  /** What the shape of each region remembers. */
  ghost function Memories(v: seq<Option<Seen>>): (m: seq<Memory>)
    reads ShapeSet(v)
    ensures |m| == |v| && forall j :: 0 <= j < |v| && v[j].Some? ==> m[j] == MemoryOf(v[j].value.shape)
  {
    seq(|v|, j requires 0 <= j < |v| reads ShapeSet(v) =>
      if v[j].Some? then MemoryOf(v[j].value.shape) else Forgotten)
  }

  /**
   * The shape forgets its bad positions, its biome positions and their
   * count; every other shape keeps its memory.
   */
  method Forget(shape: Shape, ghost v: seq<Option<Seen>>, ghost cleared: set<Shape>, ghost before: seq<Memory>)
    requires |before| == |v|
    requires forall j :: 0 <= j < |v| && v[j].Some? && v[j].value.shape in cleared ==> MemoryOf(v[j].value.shape) == Forgotten
    requires forall j :: 0 <= j < |v| && v[j].Some? && v[j].value.shape !in cleared ==> MemoryOf(v[j].value.shape) == before[j]
    modifies shape
    ensures MemoryOf(shape) == Forgotten
    ensures forall j :: 0 <= j < |v| && v[j].Some? && v[j].value.shape in cleared + {shape} ==>
              MemoryOf(v[j].value.shape) == Forgotten
    ensures forall j :: 0 <= j < |v| && v[j].Some? && v[j].value.shape !in cleared + {shape} ==>
              MemoryOf(v[j].value.shape) == before[j]
  {
    shape.badLocations := map[];
    shape.biomeLocations := map[];
    shape.badLocationSum := 0;
    forall j | 0 <= j < |v| && v[j].Some? && v[j].value.shape in cleared + {shape}
      ensures MemoryOf(v[j].value.shape) == Forgotten
    {
      if v[j].value.shape != shape {
        assert old(MemoryOf(v[j].value.shape)) == Forgotten;
      }
    }
    forall j | 0 <= j < |v| && v[j].Some? && v[j].value.shape !in cleared + {shape}
      ensures MemoryOf(v[j].value.shape) == before[j]
    {
      assert old(MemoryOf(v[j].value.shape)) == before[j];
    }
  }

  // -------------------------------------------------------------------
  // What resume does

  /** The index of the first region at or after `i` that is null or has no task. */
  function StopFrom(regions: seq<Option<Region>>, keys: set<string>, i: nat): (d: nat)
    requires i <= |regions|
    ensures i <= d <= |regions|
    decreases |regions| - i
  {
    if i == |regions| || regions[i].None? || regions[i].value.name !in keys then i
    else StopFrom(regions, keys, i + 1)
  }

  /** Where resume's loop stops. */
  function Stop(regions: seq<Option<Region>>, keys: set<string>): nat
  {
    StopFrom(regions, keys, 0)
  }

  /** Every region before the stop has a task; the one at the stop, if any, is null or has none. */
  lemma {:induction false} StopFirstMissing(regions: seq<Option<Region>>, keys: set<string>, i: nat)
    requires i <= |regions|
    ensures forall j :: i <= j < StopFrom(regions, keys, i) ==> regions[j].Some? && regions[j].value.name in keys
    ensures StopFrom(regions, keys, i) < |regions| ==>
              regions[StopFrom(regions, keys, i)].None? || regions[StopFrom(regions, keys, i)].value.name !in keys
    decreases |regions| - i
  {
    if i < |regions| && regions[i].Some? && regions[i].value.name in keys {
      StopFirstMissing(regions, keys, i + 1);
    }
  }

  /** The tasks of the first `d` regions, which resume unpauses. */
  function Resumed(regions: seq<Option<Region>>, tasks: map<string, FillTask>, d: nat): set<FillTask>
    requires d <= |regions|
  {
    if d == 0 then {}
    else Resumed(regions, tasks, d - 1) +
         (if regions[d - 1].Some? && regions[d - 1].value.name in tasks then {tasks[regions[d - 1].value.name]} else {})
  }

  /** A task is resumed exactly when it is the fill task of one of the first `d` regions. */
  lemma {:induction false} ResumedMeaning(regions: seq<Option<Region>>, tasks: map<string, FillTask>, d: nat, t: FillTask)
    requires d <= |regions|
    ensures t in Resumed(regions, tasks, d) <==>
            exists j :: 0 <= j < d && regions[j].Some? && regions[j].value.name in tasks && tasks[regions[j].value.name] == t
  {
    if d > 0 {
      ResumedMeaning(regions, tasks, d - 1, t);
    }
  }

  // -------------------------------------------------------------------
  // The fill tasks

  /** RTP.fillTasks: the fill tasks by region name. */
  class FillTasks {
    var tasks: map<string, FillTask>

    constructor ()
      ensures tasks == map[]
    {
      tasks := map[];
    }

    /**
     * start after the first `i` regions: every memory region name has a
     * task, the tasks that were there (`orig`) are kept, each new one is
     * for its region, from 0 and not paused; the shapes of the regions that
     * registered are cleared and every other shape keeps its memory.
     */
    ghost predicate Progress(v: seq<Option<Seen>>, i: nat, orig: map<string, FillTask>, before: seq<Memory>)
      requires i <= |v| && |before| == |v|
      reads this, tasks.Values, ShapeSet(v)
    {
      tasks.Keys == orig.Keys + MemoryNames(v, i) &&
      (forall k :: k in orig ==> tasks[k] == orig[k]) &&
      (forall k :: k in tasks && k !in orig ==> tasks[k].region.name == k && tasks[k].start == 0 && !tasks[k].pause) &&
      (forall j :: 0 <= j < |v| && v[j].Some? && v[j].value.shape in ClearedShapes(v, i, orig.Keys) ==>
         MemoryOf(v[j].value.shape) == Forgotten) &&
      (forall j :: 0 <= j < |v| && v[j].Some? && v[j].value.shape !in ClearedShapes(v, i, orig.Keys) ==>
         MemoryOf(v[j].value.shape) == before[j])
    }

    /** A region that registers nothing leaves start's progress as it was. */
    lemma Unregistered(v: seq<Option<Seen>>, i: nat, orig: map<string, FillTask>, before: seq<Memory>)
      requires i < |v| && |before| == |v| && v[i].Some?
      requires Progress(v, i, orig, before)
      requires !IsMemory(v[i]) || v[i].value.name in tasks
      ensures Progress(v, i + 1, orig, before)
    {
      Step(v, i, orig.Keys, tasks.Keys);
    }

    /**
     * One region of start's loop: a region that has a task keeps it; a
     * region whose shape is not a memory shape is skipped; otherwise the
     * shape forgets its bad and biome positions and a new task from
     * position 0 is registered under the region's name.
     */
    method StartRegion(region: Region, shape: Shape, ghost v: seq<Option<Seen>>, ghost i: nat,
                       ghost orig: map<string, FillTask>, ghost before: seq<Memory>)
      requires shape == region.shape && i < |v| && |before| == |v|
      requires v[i] == Some(Seen(region.name, shape.isMemory, shape))
      requires Progress(v, i, orig, before)
      modifies this, shape
      ensures Progress(v, i + 1, orig, before)
      ensures forall k :: k in old(tasks) ==> tasks[k] == old(tasks)[k]
      ensures forall k :: k in tasks && k !in old(tasks) ==> fresh(tasks[k])
    {
      Step(v, i, orig.Keys, tasks.Keys);
      if region.name in tasks || !shape.isMemory {
        Unregistered(v, i, orig, before);
        return;
      }
      Register(region, shape, v, i, orig, before);
    }

    /** The registering case of StartRegion: the shape is cleared and a new task is put under the region's name. */
    method Register(region: Region, shape: Shape, ghost v: seq<Option<Seen>>, ghost i: nat,
                    ghost orig: map<string, FillTask>, ghost before: seq<Memory>)
      requires shape == region.shape && i < |v| && |before| == |v|
      requires v[i] == Some(Seen(region.name, shape.isMemory, shape))
      requires Progress(v, i, orig, before)
      requires shape.isMemory && region.name !in tasks
      modifies this, shape
      ensures Progress(v, i + 1, orig, before)
      ensures tasks == old(tasks)[region.name := tasks[region.name]] && fresh(tasks[region.name])
    {
      Step(v, i, orig.Keys, tasks.Keys);
      ghost var cleared := ClearedShapes(v, i, orig.Keys);
      assert ClearedShapes(v, i + 1, orig.Keys) == cleared + {shape};
      Forget(shape, v, cleared, before);
      var task := new FillTask(region, 0);
      tasks := tasks[region.name := task];
    }

    /**
     * start's loop over the regions, up to the first null region, which is
     * a NullPointerException; otherwise the command returns true. Every
     * memory region name gets a task, tasks already registered are kept,
     * each new task is for its region, starts at 0 and is not paused, the
     * shapes of the regions that registered are cleared and every other
     * shape keeps its memory.
     */
    method Start(regions: seq<Option<Region>>) returns (r: Result<bool>)
      modifies this, ShapesOf(regions)
      ensures var v, c := old(View(regions)), Reached(regions);
        tasks.Keys == old(tasks).Keys + MemoryNames(v, c) &&
        (forall k :: k in old(tasks) ==> tasks[k] == old(tasks)[k]) &&
        (forall k :: k in tasks && k !in old(tasks) ==>
           fresh(tasks[k]) && tasks[k].region.name == k && tasks[k].start == 0 && !tasks[k].pause) &&
        (forall j :: 0 <= j < |v| && v[j].Some? && v[j].value.shape in ClearedShapes(v, c, old(tasks).Keys) ==>
           MemoryOf(v[j].value.shape) == Forgotten) &&
        (forall j :: 0 <= j < |v| && v[j].Some? && v[j].value.shape !in ClearedShapes(v, c, old(tasks).Keys) ==>
           MemoryOf(v[j].value.shape) == old(MemoryOf(v[j].value.shape)))
      ensures r == if Reached(regions) == |regions| then Ok(true) else Err(NullPointer)
    {
      ghost var v := View(regions);
      ghost var before := Memories(v);
      assert Progress(v, 0, tasks, before);
      assert ShapeSet(v) <= ShapesOf(regions) by {
        forall s | s in ShapeSet(v) ensures s in ShapesOf(regions) {
          var j :| 0 <= j < |v| && v[j].Some? && v[j].value.shape == s;
          assert regions[j].value.shape == s;
        }
      }
      var i := StartLoop(regions, v, before);
      r := if i == |regions| then Ok(true) else Err(NullPointer);
    }

    /** start's loop itself: it stops at the first null region, or after the last one. */
    method StartLoop(regions: seq<Option<Region>>, ghost v: seq<Option<Seen>>, ghost before: seq<Memory>) returns (i: nat)
      requires |v| == |regions| && |before| == |v|
      requires forall j :: 0 <= j < |v| ==> v[j] == SeenOf(regions[j])
      requires Progress(v, 0, tasks, before)
      modifies this, ShapeSet(v)
      ensures i == Reached(regions)
      ensures Progress(v, i, old(tasks), before)
      ensures forall k :: k in tasks && k !in old(tasks) ==> fresh(tasks[k])
    {
      ghost var orig := tasks;
      i := 0;
      while i < |regions| && regions[i].Some?
        invariant i <= |regions| && ReachedFrom(regions, i) == Reached(regions)
        invariant Progress(v, i, orig, before)
        invariant forall k :: k in tasks && k !in orig ==> fresh(tasks[k])
        decreases |regions| - i
      {
        var region := regions[i].value;
        var shape := region.shape;
        assert v[i] == Some(Seen(region.name, shape.isMemory, shape));
        assert shape in ShapeSet(v);
        StartRegion(region, shape, v, i, orig, before);
        i := i + 1;
      }
    }

    /**
     * start's command: with a next command given it does nothing and
     * returns true; an exception from getRegions propagates; otherwise it
     * runs start's loop over the regions.
     */
    method StartCommand(hasNext: bool, regions: Result<seq<Option<Region>>>) returns (r: Result<bool>)
      modifies this, if !hasNext && regions.Ok? then ShapesOf(regions.value) else {}
      ensures hasNext ==> r == Ok(true) && tasks == old(tasks)
      ensures !hasNext && regions.Err? ==> r == Err(regions.error) && tasks == old(tasks)
      ensures !hasNext && regions.Ok? ==>
                var v, c := old(View(regions.value)), Reached(regions.value);
                tasks.Keys == old(tasks).Keys + MemoryNames(v, c) &&
                (forall k :: k in old(tasks) ==> tasks[k] == old(tasks)[k]) &&
                (forall k :: k in tasks && k !in old(tasks) ==>
                   fresh(tasks[k]) && tasks[k].region.name == k && tasks[k].start == 0 && !tasks[k].pause) &&
                r == if c == |regions.value| then Ok(true) else Err(NullPointer)
    {
      if hasNext {
        return Ok(true);
      }
      if regions.Err? {
        return Err(regions.error);
      }
      r := Start(regions.value);
    }

    /**
     * resume's loop up to its stop: the fill task of each region is unpaused, up
     * to the first region that is null or has no task. Only pause flags
     * change.
     */
    method Unpause(regions: seq<Option<Region>>) returns (d: nat)
      modifies tasks.Values
      ensures d == Stop(regions, tasks.Keys)
      ensures forall t :: t in tasks.Values ==>
                t.pause == (if t in Resumed(regions, tasks, d) then false else old(t.pause))
    {
      d := 0;
      while d < |regions| && regions[d].Some? && regions[d].value.name in tasks
        invariant d <= |regions| && StopFrom(regions, tasks.Keys, d) == Stop(regions, tasks.Keys)
        invariant forall t :: t in tasks.Values ==>
                    t.pause == (if t in Resumed(regions, tasks, d) then false else old(t.pause))
        decreases |regions| - d
      {
        var task := tasks[regions[d].value.name];
        task.pause := false;
        d := d + 1;
      }
    }

    /**
     * resume: the tasks of the regions are unpaused in order. A null region
     * is a NullPointerException; at the first region without a task resume
     * hands the whole command to start, whose result it returns; otherwise
     * it returns true.
     */
    method Resume(regions: seq<Option<Region>>) returns (r: Result<bool>)
      modifies this, tasks.Values, ShapesOf(regions)
      ensures forall t :: t in old(tasks).Values ==>
                t.pause == (if t in Resumed(regions, old(tasks), Stop(regions, old(tasks).Keys)) then false else old(t.pause))
      ensures var d := Stop(regions, old(tasks).Keys);
        d == |regions| ==> r == Ok(true) && tasks == old(tasks)
      ensures var d := Stop(regions, old(tasks).Keys);
        d < |regions| && regions[d].None? ==> r == Err(NullPointer) && tasks == old(tasks)
      ensures var d, v, c := Stop(regions, old(tasks).Keys), old(View(regions)), Reached(regions);
        d < |regions| && regions[d].Some? ==>
          tasks.Keys == old(tasks).Keys + MemoryNames(v, c) &&
          (forall k :: k in old(tasks) ==> tasks[k] == old(tasks)[k]) &&
          (forall k :: k in tasks && k !in old(tasks) ==>
             fresh(tasks[k]) && tasks[k].region.name == k && tasks[k].start == 0 && !tasks[k].pause) &&
          (forall j :: 0 <= j < |v| && v[j].Some? && v[j].value.shape in ClearedShapes(v, c, old(tasks).Keys) ==>
             MemoryOf(v[j].value.shape) == Forgotten) &&
          (forall j :: 0 <= j < |v| && v[j].Some? && v[j].value.shape !in ClearedShapes(v, c, old(tasks).Keys) ==>
             MemoryOf(v[j].value.shape) == old(MemoryOf(v[j].value.shape))) &&
          r == if c == |regions| then Ok(true) else Err(NullPointer)
    {
      ghost var v := View(regions);
      ghost var memories := Memories(v);
      var d := Unpause(regions);
      StopFirstMissing(regions, tasks.Keys, 0);
      if d < |regions| && regions[d].Some? {
        assert View(regions) == v && Memories(v) == memories;
        r := Start(regions);
      } else {
        r := if d == |regions| then Ok(true) else Err(NullPointer);
      }
    }

    /**
     * resume's command: with a next command given it does nothing and
     * returns true; an exception from getRegions propagates; otherwise it
     * runs resume over the regions.
     */
    method ResumeCommand(hasNext: bool, regions: Result<seq<Option<Region>>>) returns (r: Result<bool>)
      modifies this, if !hasNext && regions.Ok? then tasks.Values else {},
               if !hasNext && regions.Ok? then ShapesOf(regions.value) else {}
      ensures hasNext ==> r == Ok(true) && tasks == old(tasks)
      ensures !hasNext && regions.Err? ==> r == Err(regions.error) && tasks == old(tasks)
      ensures !hasNext && regions.Ok? ==>
                var d := Stop(regions.value, old(tasks).Keys);
                (forall t :: t in old(tasks).Values ==>
                   t.pause == (if t in Resumed(regions.value, old(tasks), d) then false else old(t.pause))) &&
                (d == |regions.value| ==> r == Ok(true) && tasks == old(tasks)) &&
                (d < |regions.value| && regions.value[d].None? ==> r == Err(NullPointer) && tasks == old(tasks)) &&
                (d < |regions.value| && regions.value[d].Some? ==>
                   tasks.Keys == old(tasks).Keys + MemoryNames(old(View(regions.value)), Reached(regions.value)) &&
                   (forall k :: k in old(tasks) ==> tasks[k] == old(tasks)[k]) &&
                   r == if Reached(regions.value) == |regions.value| then Ok(true) else Err(NullPointer))
    {
      if hasNext {
        return Ok(true);
      }
      if regions.Err? {
        return Err(regions.error);
      }
      r := Resume(regions.value);
    }
  }
}
