/**
 * SelectionAPI: the registry of permanent regions, the two selection task
 * queues that compute() drains under a time budget, temporary regions built
 * from a base region, and the region a player or a world maps to.
 */
module SelectionApi {
  import opened Common
  import opened Factory
  import opened Regions
  import opened Overrides

  const REGION_PERMISSION_PREFIX: string := "rtp.regions."
  const WORLD_PERMISSION_PREFIX: string := "rtp.worlds."

  /** A queued selection task; running one is recorded, its effect is not modelled. */
  datatype Task = Task(id: int)

  /** The value of a key of a temporary region: the given one, else the base region's. */
  function Overlay(base: map<string, Value>, given: map<string, Option<Value>>, k: string): Option<Value>
    requires k in base || k in given
  {
    if k in given then given[k] else Some(base[k])
  }

  /**
   * The entries of the EnumMap tempRegion builds: in constant order, each
   * constant the base region or the given parameters have.
   */
  function TempEntries(enumClass: string, constants: seq<string>, base: map<string, Value>,
                       given: map<string, Option<Value>>): (r: seq<(EnumKey, Option<Value>)>)
    ensures forall j :: 0 <= j < |r| ==> r[j].0.enumClass == enumClass && r[j].0.name in constants
    ensures forall j :: 0 <= j < |r| ==> (r[j].0.name in base || r[j].0.name in given) &&
                                         r[j].1 == Overlay(base, given, r[j].0.name)
    decreases |constants|
  {
    if constants == [] then []
    else
      var k := constants[|constants| - 1];
      var front := TempEntries(enumClass, constants[..|constants| - 1], base, given);
      if k in base || k in given then front + [(EnumKey(enumClass, k), Overlay(base, given, k))] else front
  }

  /**
   * No given parameter named by one of the constants is null, so setData
   * copies every entry; parameters under other names are never read.
   */
  predicate NoNulls(constants: seq<string>, given: map<string, Option<Value>>)
  {
    forall k :: k in constants && k in given ==> given[k].Some?
  }

  /** The data of a temporary region: over the constants, each given value replaces the base value. */
  function TempData(constants: seq<string>, base: map<string, Value>, given: map<string, Option<Value>>): map<string, Value>
    requires NoNulls(constants, given)
  {
    map k | k in constants && (k in base || k in given) :: Overlay(base, given, k).value
  }

  /** The temporary data holds the constants set in either map, the given value winning. */
  lemma TempDataMeaning(constants: seq<string>, base: map<string, Value>, given: map<string, Option<Value>>)
    requires NoNulls(constants, given)
    ensures var d := TempData(constants, base, given);
      (forall k :: k in d <==> k in constants && (k in base || k in given)) &&
      (forall k :: k in d && k in given ==> d[k] == given[k].value) &&
      (forall k :: k in d && k !in given ==> d[k] == base[k])
  {
  }

  /** With no null parameter, setData accepts every entry. */
  lemma TempEntriesAccepted(enumClass: string, constants: seq<string>, base: map<string, Value>,
                            given: map<string, Option<Value>>)
    requires NoNulls(constants, given)
    ensures var es := TempEntries(enumClass, constants, base, given);
      FirstRefused(es, enumClass) == |es|
  {
    FirstRefusedAll(TempEntries(enumClass, constants, base, given), enumClass);
  }

  /** One more constant adds at most its own key to the temporary data. */
  lemma TempDataSnoc(rest: seq<string>, k: string, base: map<string, Value>, given: map<string, Option<Value>>)
    requires NoNulls(rest + [k], given) && NoNulls(rest, given)
    ensures k in base || k in given ==>
              TempData(rest + [k], base, given) == TempData(rest, base, given)[k := Overlay(base, given, k).value]
    ensures !(k in base || k in given) ==> TempData(rest + [k], base, given) == TempData(rest, base, given)
  {
    var d := TempData(rest + [k], base, given);
    var d0 := TempData(rest, base, given);
    assert forall x :: x in rest + [k] <==> x in rest || x == k;
    if k in base || k in given {
      assert d.Keys == d0.Keys + {k};
    } else {
      assert d.Keys == d0.Keys;
    }
  }

  /** Putting one more entry updates its key. */
  lemma PutAllSnoc(m: map<string, Value>, es: seq<(EnumKey, Option<Value>)>, x: (EnumKey, Option<Value>))
    requires forall j :: 0 <= j < |es| ==> es[j].1.Some?
    requires x.1.Some?
    ensures PutAll(m, es + [x]) == PutAll(m, es)[x.0.name := x.1.value]
  {
    assert (es + [x])[..|es|] == es;
  }

  /** Copying the entries in order gives the temporary data. */
  lemma {:induction false} TempEntriesData(enumClass: string, constants: seq<string>, base: map<string, Value>,
                                           given: map<string, Option<Value>>)
    requires NoNulls(constants, given)
    ensures PutAll(map[], TempEntries(enumClass, constants, base, given)) == TempData(constants, base, given)
    decreases |constants|
  {
    if constants == [] {
      assert TempData(constants, base, given) == map[];
    } else {
      var rest := constants[..|constants| - 1];
      var k := constants[|constants| - 1];
      assert constants == rest + [k];
      TempEntriesData(enumClass, rest, base, given);
      TempDataSnoc(rest, k, base, given);
      var front := TempEntries(enumClass, rest, base, given);
      if k in base || k in given {
        PutAllSnoc(map[], front, (EnumKey(enumClass, k), Overlay(base, given, k)));
      }
    }
  }

  /** A constant that the parameters name has its entry, with the parameter's value. */
  lemma {:induction false} TempEntriesHas(enumClass: string, constants: seq<string>, base: map<string, Value>,
                                          given: map<string, Option<Value>>, k: string)
    requires k in constants && k in given
    ensures exists j :: 0 <= j < |TempEntries(enumClass, constants, base, given)| &&
                        TempEntries(enumClass, constants, base, given)[j] == (EnumKey(enumClass, k), given[k])
    decreases |constants|
  {
    var es := TempEntries(enumClass, constants, base, given);
    var rest := constants[..|constants| - 1];
    var last := constants[|constants| - 1];
    var front := TempEntries(enumClass, rest, base, given);
    if last == k {
      assert es == front + [(EnumKey(enumClass, k), Overlay(base, given, k))];
      var j := |es| - 1;
      assert es[j] == (EnumKey(enumClass, k), given[k]);
    } else {
      assert constants == rest + [last];
      TempEntriesHas(enumClass, rest, base, given, k);
      var j :| 0 <= j < |front| && front[j] == (EnumKey(enumClass, k), given[k]);
      assert es[..|front|] == front;
      assert es[j] == front[j];
    }
  }

  /** A null parameter under a constant's name makes setData refuse an entry. */
  lemma TempEntriesRefused(enumClass: string, constants: seq<string>, base: map<string, Value>,
                           given: map<string, Option<Value>>)
    requires !NoNulls(constants, given)
    ensures var es := TempEntries(enumClass, constants, base, given);
      FirstRefused(es, enumClass) < |es|
  {
    var k :| k in constants && k in given && given[k].None?;
    TempEntriesHas(enumClass, constants, base, given, k);
  }

  /** When every entry has a value of the right class, nothing is refused. */
  lemma {:induction false} FirstRefusedAll(es: seq<(EnumKey, Option<Value>)>, enumClass: string)
    requires forall j :: 0 <= j < |es| ==> es[j].1.Some? && es[j].0.enumClass == enumClass
    ensures FirstRefused(es, enumClass) == |es|
    decreases |es|
  {
    if es != [] {
      FirstRefusedAll(es[1..], enumClass);
    }
  }

  class Api {
    var urgent: seq<Task>
    var normal: seq<Task>
    /** The tasks compute() has run, in order. */
    var ran: seq<Task>
    var permRegionLookup: map<string, Region>

    ghost function Objects(): set<object>
      reads this
    {
      permRegionLookup.Values + set r | r in permRegionLookup.Values :: r.params
    }

    ghost predicate Valid()
      reads this, Objects()
    {
      forall r :: r in permRegionLookup.Values ==> r.Valid()
    }

    constructor ()
      ensures Valid() && urgent == [] && normal == [] && ran == [] && permRegionLookup == map[]
    {
      urgent := [];
      normal := [];
      ran := [];
      permRegionLookup := map[];
    }

    /** getRegion(name): the region, or null. */
    function GetRegion(name: string): (r: Option<Region>)
      reads this
      ensures r.Some? <==> name in permRegionLookup
      ensures r.Some? ==> r.value == permRegionLookup[name]
    {
      if name in permRegionLookup then Some(permRegionLookup[name]) else None
    }

    /** getRegionExceptionally(name): the region, or IllegalStateException. */
    function GetRegionExceptionally(name: string): Result<Region>
      reads this
    {
      if name !in permRegionLookup then Err(IllegalState) else Ok(permRegionLookup[name])
    }

    /** getRegionOrDefault(name, defaultName). */
    function GetRegionOrDefault(name: string, defaultName: string): Result<Region>
      reads this
    {
      if name in permRegionLookup then Ok(permRegionLookup[name])
      else if defaultName in permRegionLookup then Ok(permRegionLookup[defaultName])
      else Err(IllegalState)
    }

    /** getRegionOrDefault(name) falls back on "DEFAULT". */
    function GetRegionOrDefaultName(name: string): Result<Region>
      reads this
    {
      GetRegionOrDefault(name, "DEFAULT")
    }

    /**
     * The three lookups agree: the exceptional one fails exactly where the
     * plain one returns null, and the defaulting one returns the named
     * region if there is one, else the default, and fails only when both
     * are missing.
     */
    lemma LookupsAgree(name: string, defaultName: string)
      ensures GetRegionExceptionally(name).Ok? <==> GetRegion(name).Some?
      ensures GetRegionExceptionally(name).Ok? ==> GetRegionExceptionally(name).value == GetRegion(name).value
      ensures GetRegionExceptionally(name).Err? ==> GetRegionExceptionally(name).error == IllegalState
      ensures var r := GetRegionOrDefault(name, defaultName);
        (GetRegion(name).Some? ==> r == Ok(GetRegion(name).value)) &&
        (GetRegion(name).None? && GetRegion(defaultName).Some? ==> r == Ok(GetRegion(defaultName).value)) &&
        (r.Err? <==> GetRegion(name).None? && GetRegion(defaultName).None?) &&
        (r.Err? ==> r.error == IllegalState)
      ensures GetRegionOrDefaultName(name) == GetRegionOrDefault(name, "DEFAULT")
    {
    }

    /** getRegion(world): the region its world configuration names, or null. */
    function GetRegionForWorld(worlds: Config, worldName: string): (r: Option<Region>)
      reads this
      ensures r == GetRegion(NodeOf(worlds, worldName).region)
    {
      var regionName := NodeOf(worlds, worldName).region;
      if regionName in permRegionLookup then Some(permRegionLookup[regionName]) else None
    }

    /**
     * getRegion(player): world overrides from the player's world, then
     * region overrides from that world's region; the final region is looked
     * up and may be null.
     */
    method GetRegionForPlayer(worlds: Config, regions: Config, granted: string -> bool, current: string)
        returns (r: Result<Option<Region>>)
      ensures var wc := Chain(worlds, Verbatim, WORLD_PERMISSION_PREFIX, granted);
        var w := Chase(wc, current, current, {});
        (w.Err? ==> r == Err(IllegalState)) &&
        (w.Ok? ==>
           var start := NodeOf(worlds, w.value).region;
           var rc := Chain(regions, Verbatim, REGION_PERMISSION_PREFIX, granted);
           var g := Chase(rc, start, start, {});
           !Blocked(wc, w.value) &&
           (g.Err? ==> r == Err(IllegalState)) &&
           (g.Ok? ==> !Blocked(rc, g.value) && r == Ok(GetRegion(g.value))))
    {
      var w := Follow(Chain(worlds, Verbatim, WORLD_PERMISSION_PREFIX, granted), current);
      if w.Err? {
        return Err(w.error);
      }
      var g := Follow(Chain(regions, Verbatim, REGION_PERMISSION_PREFIX, granted), NodeOf(worlds, w.value).region);
      if g.Err? {
        return Err(g.error);
      }
      r := Ok(GetRegion(g.value));
    }

    /**
     * compute(): urgent tasks first, then normal ones, each loop running
     * while its queue is non-empty and either the tick is not over time or
     * the minimum number of executions is not yet reached. `overTime(n)` is
     * the over-time reading after n tasks have run. Returns how many tasks
     * of each queue ran.
     */
    method Compute(overTime: nat -> int, minExecutions: int) returns (a: nat, b: nat)
      modifies this
      ensures a <= |old(urgent)| && b <= |old(normal)|
      ensures ran == old(ran) + old(urgent)[..a] + old(normal)[..b]
      ensures urgent == old(urgent)[a..] && normal == old(normal)[b..]
      ensures b > 0 ==> a == |old(urgent)|
      ensures (forall n: nat :: n <= |old(urgent)| + |old(normal)| ==> overTime(n) >= 0) ==>
                a + b == Min(Max(minExecutions, 0), |old(urgent)| + |old(normal)|)
      ensures (forall n: nat :: n <= |old(urgent)| + |old(normal)| ==> overTime(n) < 0) ==>
                a == |old(urgent)| && b == |old(normal)|
      ensures permRegionLookup == old(permRegionLookup)
    {
      var req := minExecutions;
      a := 0;
      while urgent != [] && (overTime(a) < 0 || req > 0)
        invariant a <= |old(urgent)| && urgent == old(urgent)[a..]
        invariant ran == old(ran) + old(urgent)[..a] && req == minExecutions - a
        invariant normal == old(normal) && permRegionLookup == old(permRegionLookup)
        invariant (forall n: nat :: n <= |old(urgent)| + |old(normal)| ==> overTime(n) >= 0) ==>
                    a <= Max(minExecutions, 0)
      {
        var task := urgent[0];
        urgent := urgent[1..];
        ran := ran + [task];
        assert old(urgent)[..a + 1] == old(urgent)[..a] + [task];
        a := a + 1;
        req := req - 1;
      }
      ghost var urgentLeft := urgent != [];
      b := 0;
      while normal != [] && (overTime(a + b) < 0 || req > 0)
        invariant b <= |old(normal)| && normal == old(normal)[b..]
        invariant ran == old(ran) + old(urgent)[..a] + old(normal)[..b] && req == minExecutions - a - b
        invariant urgent == old(urgent)[a..] && permRegionLookup == old(permRegionLookup)
        invariant urgentLeft ==> b == 0 && overTime(a) >= 0 && req <= 0
        invariant urgentLeft <==> a < |old(urgent)|
        invariant (forall n: nat :: n <= |old(urgent)| + |old(normal)| ==> overTime(n) < 0) ==> !urgentLeft
        invariant (forall n: nat :: n <= |old(urgent)| + |old(normal)| ==> overTime(n) >= 0) ==>
                    a + b <= Max(minExecutions, 0)
      {
        var task := normal[0];
        normal := normal[1..];
        ran := ran + [task];
        assert old(normal)[..b + 1] == old(normal)[..b] + [task];
        b := b + 1;
        req := req - 1;
      }
    }

    /**
     * tempRegion(params, baseName): the base region (by name; "default" for
     * a null, empty or unknown name) cloned and given the base data with the
     * given parameters that name region keys put over it. The base region is
     * not changed. A missing "default" is a NullPointerException; a null
     * parameter under a region key's name makes setData throw
     * IllegalArgumentException, and parameters under other names are ignored.
     */
    method TempRegion(given: map<string, Option<Value>>, baseName: Option<string>) returns (r: Result<Region>)
      requires Valid()
      ensures Valid()
      ensures var name := BaseName(baseName, permRegionLookup.Keys);
        (name !in permRegionLookup ==> r == Err(NullPointer)) &&
        (name in permRegionLookup && NoNulls(permRegionLookup[name].params.constants, given) ==>
           var base := permRegionLookup[name];
           r.Ok? && r.value.params != base.params && r.value.shape == base.shape && r.value.name == base.name &&
           r.value.params.data == TempData(base.params.constants, base.params.data, given)) &&
        (name in permRegionLookup && !NoNulls(permRegionLookup[name].params.constants, given) ==>
           r == Err(IllegalArgument))
      ensures r.Ok? ==> fresh(r.value) && r.value.Valid()
    {
      var name := BaseName(baseName, permRegionLookup.Keys);
      if name !in permRegionLookup {
        return Err(NullPointer);
      }
      var base := permRegionLookup[name];
      assert base in permRegionLookup.Values;
      r := CloneWith(base, given);
    }
  }

  /** The name tempRegion looks up: "default" for a null, empty or unknown name. */
  function BaseName(baseName: Option<string>, known: set<string>): (name: string)
    ensures name == "default" || (baseName == Some(name) && name != "" && name in known)
  {
    if baseName.None? || baseName.value == "" || baseName.value !in known then "default" else baseName.value
  }

  /** The clone of `base` holding the temporary data, or setData's error. */
  method CloneWith(base: Region, given: map<string, Option<Value>>) returns (r: Result<Region>)
    requires base.Valid()
    ensures r.Ok? ==> fresh(r.value) && fresh(r.value.params) && r.value.Valid()
    ensures r.Ok? ==> r.value.shape == base.shape && r.value.name == base.name
    ensures r.Err? ==> r.error == IllegalArgument
    ensures NoNulls(base.params.constants, given) ==>
              r.Ok? && r.value.params.data == TempData(base.params.constants, base.params.data, given)
    ensures !NoNulls(base.params.constants, given) ==> r == Err(IllegalArgument)
  {
    var entries := TempEntries(base.params.enumClass, base.params.constants, base.params.data, given);
    var clone := base.Clone();
    var out := clone.params.SetDataFromEnum(entries);
    if NoNulls(base.params.constants, given) {
      TempEntriesAccepted(base.params.enumClass, base.params.constants, base.params.data, given);
      assert entries[..|entries|] == entries;
      TempEntriesData(base.params.enumClass, base.params.constants, base.params.data, given);
    } else {
      TempEntriesRefused(base.params.enumClass, base.params.constants, base.params.data, given);
    }
    if out.Fail? {
      return Err(out.error);
    }
    r := Ok(clone);
  }
}
