/**
 * BukkitServerAccessor: the server version, read once from the server
 * implementation's package name (or from the Bukkit version string) and
 * memoised; the cache of RTP worlds, kept by id and by name; and the shape
 * function regions use, replaced only by one that works for every world.
 */
module ServerAccessor {
  import opened Common
  import opened BukkitWorld

  // -------------------------------------------------------------------
  // Version text

  /** `t` occurs in `s` at position j. */
  predicate At(s: string, t: string, j: nat)
  {
    j + |t| <= |s| && s[j..j + |t|] == t
  }

  lemma AtShift(s: string, t: string, j: nat)
    requires |s| >= 1
    ensures At(s, t, j + 1) <==> At(s[1..], t, j)
  {
    if j + 1 + |t| <= |s| {
      var a, b := s[j + 1..j + 1 + |t|], s[1..][j..j + |t|];
      assert forall k :: 0 <= k < |a| ==> a[k] == b[k];
      assert a == b;
    }
  }

  /** String.indexOf(t): the first position of `t` in `s`. */
  function IndexOf(s: string, t: string): (r: Option<nat>)
    ensures r.Some? ==> At(s, t, r.value)
    ensures forall j: nat :: (r.None? || j < r.value) ==> !At(s, t, j)
    decreases |s|
  {
    if |s| < |t| then None
    else if s[..|t|] == t then Some(0)
    else
      var rest := IndexOf(s[1..], t);
      assert forall j: nat :: At(s, t, j + 1) <==> At(s[1..], t, j) by {
        forall j: nat ensures At(s, t, j + 1) <==> At(s[1..], t, j) {
          AtShift(s, t, j);
        }
      }
      assert !At(s, t, 0);
      assert forall j: nat :: At(s, t, j) ==> j == 0 || At(s[1..], t, j - 1);
      if rest.Some? then Some(rest.value + 1) else None
  }

  predicate Contains(s: string, t: string)
  {
    IndexOf(s, t).Some?
  }

  /** The characters the version pattern `[-+^.a-zA-Z]*` matches. */
  predicate VersionPatternChar(c: char)
  {
    c == '-' || c == '+' || c == '^' || c == '.' || ('a' <= c <= 'z') || ('A' <= c <= 'Z')
  }

  /** replaceAll of the version pattern with "": every matched character is dropped. */
  function StripVersionChars(s: string): (r: string)
    ensures forall i :: 0 <= i < |r| ==> !VersionPatternChar(r[i]) && r[i] in s
    ensures |s| == 1 ==> r == (if VersionPatternChar(s[0]) then "" else s)
    decreases |s|
  {
    if s == [] then []
    else if VersionPatternChar(s[0]) then StripVersionChars(s[1..])
    else [s[0]] + StripVersionChars(s[1..])
  }

  /** Stripping a string with a first character handles that character on its own. */
  lemma StripCons(c: char, t: string)
    ensures StripVersionChars([c] + t) == (if VersionPatternChar(c) then "" else [c]) + StripVersionChars(t)
  {
    assert ([c] + t)[0] == c && ([c] + t)[1..] == t;
  }

  /**
   * Stripping works character by character: it distributes over
   * concatenation, so with the one-character case above it fixes the
   * result of every input.
   */
  lemma {:induction false} StripAppend(a: string, b: string)
    ensures StripVersionChars(a + b) == StripVersionChars(a) + StripVersionChars(b)
    decreases |a|
  {
    if a == [] {
      assert a + b == b;
    } else {
      assert a == [a[0]] + a[1..] && a + b == [a[0]] + (a[1..] + b);
      StripCons(a[0], a[1..] + b);
      StripCons(a[0], a[1..]);
      StripAppend(a[1..], b);
    }
  }

  /** A string without pattern characters is left as it is. */
  lemma {:induction false} StripUnchanged(s: string)
    ensures (forall i :: 0 <= i < |s| ==> !VersionPatternChar(s[i])) ==> StripVersionChars(s) == s
    decreases |s|
  {
    if s != [] && forall i :: 0 <= i < |s| ==> !VersionPatternChar(s[i]) {
      assert forall i :: 0 <= i < |s[1..]| ==> !VersionPatternChar(s[1..][i]) by {
        forall i | 0 <= i < |s[1..]|
          ensures !VersionPatternChar(s[1..][i])
        {
          assert s[1..][i] == s[i + 1];
        }
      }
      StripUnchanged(s[1..]);
    }
  }

  /** Stripping twice is stripping once. */
  lemma StripIdempotent(s: string)
    ensures StripVersionChars(StripVersionChars(s)) == StripVersionChars(s)
  {
  }

  /** replaceAll("\\.", "_"). */
  function DotsToUnderscores(s: string): (r: string)
    ensures |r| == |s|
    ensures forall i :: 0 <= i < |s| ==> r[i] == (if s[i] == '.' then '_' else s[i])
    decreases |s|
  {
    if s == [] then [] else [if s[0] == '.' then '_' else s[0]] + DotsToUnderscores(s[1..])
  }

  /** The version named by the Bukkit version string: its part before "-R", dots made underscores. */
  function BukkitVersionName(bukkitVersion: string): string
  {
    var end := IndexOf(bukkitVersion, "-R");
    if end.None? then "1_13_2" else DotsToUnderscores(bukkitVersion[..end.value])
  }

  /**
   * The version text getServerVersion computes on its first call: the
   * package name with the pattern characters removed when it contains
   * "1_" (as in "org.bukkit.craftbukkit.v1_16_R3"), else the Bukkit
   * version name.
   */
  function VersionText(packageName: string, bukkitVersion: string): string
  {
    if Contains(packageName, "1_") then StripVersionChars(packageName) else BukkitVersionName(bukkitVersion)
  }

  /**
   * The integer version getServerIntVersion derives from the version text:
   * 1 for no "_"-segment, the integer of the only segment, else the
   * integer of the second; 1 when that segment is not a number.
   */
  function IntVersionOf(text: string): (v: int)
    ensures INT_MIN <= v <= INT_MAX
    ensures var p := JavaSplit(text, '_');
      (|p| == 0 ==> v == 1) &&
      (|p| == 1 ==> v == ParseInt(p[0]).GetOr(1)) &&
      (|p| >= 2 ==> v == ParseInt(p[1]).GetOr(1))
  {
    var p := JavaSplit(text, '_');
    if |p| == 0 then 1
    else if |p| == 1 then ParseInt(p[0]).GetOr(1)
    else ParseInt(p[1]).GetOr(1)
  }

  lemma {:induction false} PiecesNoSep(a: string, sep: char)
    requires sep !in a
    ensures Pieces(a, sep) == [a]
    decreases |a|
  {
    if a != [] {
      PiecesNoSep(a[1..], sep);
      assert [a[0]] + a[1..] == a;
    }
  }

  lemma {:induction false} PiecesSplit(a: string, b: string, sep: char)
    requires sep !in a
    ensures Pieces(a + [sep] + b, sep) == [a] + Pieces(b, sep)
    decreases |a|
  {
    var s := a + [sep] + b;
    if a == [] {
      assert s[1..] == b;
    } else {
      assert s[1..] == a[1..] + [sep] + b;
      PiecesSplit(a[1..], b, sep);
      assert [a[0]] + a[1..] == a;
    }
  }

  lemma DigitsNoSeparator(n: nat)
    ensures '_' !in Digits(n) && '.' !in Digits(n)
  {
    var s := Digits(n);
    assert forall i :: 0 <= i < |s| ==> s[i] != '_' && s[i] != '.';
  }

  /** "a_b_c" splits into its three parts when none holds a "_" and the last is not empty. */
  lemma SplitThree(a: string, b: string, c: string)
    requires '_' !in a && '_' !in b && '_' !in c && c != []
    ensures JavaSplit(a + "_" + b + "_" + c, '_') == [a, b, c]
  {
    var s := a + "_" + b + "_" + c;
    assert s == a + ['_'] + (b + ['_'] + c);
    PiecesSplit(a, b + ['_'] + c, '_');
    PiecesSplit(b, c, '_');
    PiecesNoSep(c, '_');
    assert s[|a|] == '_';
  }

  /** A three-part version text is read by its middle part. */
  lemma IntVersionOfParts(a: string, b: string, c: string)
    requires '_' !in a && '_' !in b && '_' !in c && c != []
    ensures IntVersionOf(a + "_" + b + "_" + c) == ParseInt(b).GetOr(1)
  {
    SplitThree(a, b, c);
  }

  /** A release version "major_minor_patch" has the minor version as its integer version. */
  lemma IntVersionOfRelease(major: nat, minor: nat, patch: nat)
    requires minor <= INT_MAX
    ensures IntVersionOf(Digits(major) + "_" + Digits(minor) + "_" + Digits(patch)) == minor
  {
    DigitsNoSeparator(major);
    DigitsNoSeparator(minor);
    DigitsNoSeparator(patch);
    IntVersionOfParts(Digits(major), Digits(minor), Digits(patch));
    ParseDecimalRoundTrip(minor);
  }

  /** A version text with no "_" is read as a single number. */
  lemma IntVersionOfSingle(n: nat)
    requires n <= INT_MAX
    ensures IntVersionOf(Digits(n)) == n
  {
    DigitsNoSeparator(n);
    ParseDecimalRoundTrip(n);
  }

  // -------------------------------------------------------------------
  // The accessor

  /**
   * A shape function, by identity; `selects(w)` says whether applying it to
   * world `w` gives a shape whose select() completes without an exception.
   */
  datatype ShapeFunction = ShapeFunction(id: int, selects: string -> bool)

  /** The worlds the server has loaded: each name's world id, and each id's name. */
  datatype Server = Server(byName: map<string, Uuid>, byId: map<Uuid, string>)
  {
    /** Names and ids pair up one to one. */
    ghost predicate Consistent()
    {
      (forall n :: n in byName ==> byName[n] in byId && byId[byName[n]] == n) &&
      (forall u :: u in byId ==> byId[u] in byName && byName[byId[u]] == u)
    }
  }

  /** Every cached world is stored under its own id and its own name. */
  ghost predicate KeyedMaps(m: map<Uuid, World>, ms: map<string, World>)
  {
    (forall u :: u in m ==> m[u].id == Some(u) && m[u].name.Some?) &&
    (forall n :: n in ms ==> ms[n].name == Some(n) && ms[n].id.Some?)
  }

  /** Both maps cache the same worlds. */
  ghost predicate SyncedMaps(m: map<Uuid, World>, ms: map<string, World>)
    requires KeyedMaps(m, ms)
  {
    (forall u :: u in m ==> m[u].name.value in ms && ms[m[u].name.value] == m[u]) &&
    (forall n :: n in ms ==> ms[n].id.value in m && m[ms[n].id.value] == ms[n])
  }

  /** No cached world contradicts the server: a live id keeps its name and a live name its id. */
  ghost predicate AgreesMaps(m: map<Uuid, World>, ms: map<string, World>, server: Server)
    requires KeyedMaps(m, ms)
  {
    (forall u :: u in m && u in server.byId ==> server.byId[u] == m[u].name.value) &&
    (forall n :: n in ms && n in server.byName ==> server.byName[n] == ms[n].id.value)
  }

  /**
   * Caching a live world that is missing from one map keeps the maps in
   * step: it was missing from the other map as well.
   */
  lemma CacheInsert(m: map<Uuid, World>, ms: map<string, World>, server: Server, u: Uuid, w: World)
    requires KeyedMaps(m, ms) && SyncedMaps(m, ms) && AgreesMaps(m, ms, server) && server.Consistent()
    requires u in server.byId && w.id == Some(u) && w.name == Some(server.byId[u])
    requires u !in m || server.byId[u] !in ms
    ensures u !in m && server.byId[u] !in ms
    ensures var m', ms' := m[u := w], ms[server.byId[u] := w];
      KeyedMaps(m', ms') && SyncedMaps(m', ms') && AgreesMaps(m', ms', server)
  {
  }

  /** Caching a world under its own id and name keeps both maps keyed. */
  lemma KeyedInsert(m: map<Uuid, World>, ms: map<string, World>, u: Uuid, n: string, w: World)
    requires KeyedMaps(m, ms) && w.id == Some(u) && w.name == Some(n)
    ensures KeyedMaps(m[u := w], ms[n := w])
  {
  }

  /** Dropping a cached world from both maps keeps them in step. */
  lemma CacheRemove(m: map<Uuid, World>, ms: map<string, World>, server: Server, w: World)
    requires KeyedMaps(m, ms) && SyncedMaps(m, ms) && AgreesMaps(m, ms, server)
    requires w.id.Some? && w.id.value in m && m[w.id.value] == w
    ensures var m', ms' := m - {w.id.value}, ms - {w.name.value};
      KeyedMaps(m', ms') && SyncedMaps(m', ms') && AgreesMaps(m', ms', server)
  {
    var m', ms' := m - {w.id.value}, ms - {w.name.value};
    forall x | x in m'
      ensures m'[x].name.value in ms' && ms'[m'[x].name.value] == m'[x]
    {
      assert m[x].name.value != w.name.value;
    }
  }

  class Accessor {
    /** The server implementation's package name and Bukkit version string. */
    const packageName: string
    const bukkitVersion: string
    var version: Option<string>
    var intVersion: Option<int>
    var worldMap: map<Uuid, World>
    var worldMapStr: map<string, World>
    var shapeFunction: ShapeFunction

    /** The memoised versions are the ones the server's strings give. */
    ghost predicate Memo()
      reads this
    {
      (version.Some? ==> version.value == VersionText(packageName, bukkitVersion)) &&
      (intVersion.Some? ==> intVersion.value == IntVersionOf(VersionText(packageName, bukkitVersion)))
    }

    ghost predicate Keyed()
      reads this
    {
      KeyedMaps(worldMap, worldMapStr)
    }

    ghost predicate Synced()
      reads this
      requires Keyed()
    {
      SyncedMaps(worldMap, worldMapStr)
    }

    ghost predicate Agrees(server: Server)
      reads this
      requires Keyed()
    {
      AgreesMaps(worldMap, worldMapStr, server)
    }

    ghost predicate Valid()
      reads this
    {
      Memo() && Keyed()
    }

    constructor (packageName: string, bukkitVersion: string, shapeFunction: ShapeFunction)
      ensures this.packageName == packageName && this.bukkitVersion == bukkitVersion
      ensures Valid() && Synced() && version == None && intVersion == None
      ensures worldMap == map[] && worldMapStr == map[] && this.shapeFunction == shapeFunction
    {
      this.packageName := packageName;
      this.bukkitVersion := bukkitVersion;
      version := None;
      intVersion := None;
      worldMap := map[];
      worldMapStr := map[];
      this.shapeFunction := shapeFunction;
    }

    /**
     * getServerVersion() as written: the package name is stored before it
     * is searched for "1_", so the Bukkit-version branch returns its result without
     * memoising it and leaves the package name memoised instead.
     */
    method GetServerVersion() returns (v: string)
      modifies this
      ensures old(version).Some? ==> v == old(version).value && version == old(version)
      ensures old(version).None? && Contains(packageName, "1_") ==>
                v == VersionText(packageName, bukkitVersion) && version == Some(v)
      ensures old(version).None? && !Contains(packageName, "1_") ==>
                v == VersionText(packageName, bukkitVersion) && version == Some(packageName)
      ensures intVersion == old(intVersion) && worldMap == old(worldMap) && worldMapStr == old(worldMapStr)
      ensures shapeFunction == old(shapeFunction)
    {
      if version.None? {
        version := Some(packageName);
        if !Contains(packageName, "1_") {
          var end := IndexOf(bukkitVersion, "-R");
          if end.None? {
            return "1_13_2";
          }
          return DotsToUnderscores(bukkitVersion[..end.value]);
        } else {
          version := Some(StripVersionChars(packageName));
        }
      }
      v := version.value;
    }

    /** getServerVersion() memoising the text it returns, on both branches. */
    method GetServerVersionMemo() returns (v: string)
      requires Memo()
      modifies this
      ensures Memo() && v == VersionText(packageName, bukkitVersion) && version == Some(v)
      ensures intVersion == old(intVersion) && worldMap == old(worldMap) && worldMapStr == old(worldMapStr)
      ensures shapeFunction == old(shapeFunction)
    {
      if version.None? {
        var text;
        if !Contains(packageName, "1_") {
          var end := IndexOf(bukkitVersion, "-R");
          text := if end.None? then "1_13_2" else DotsToUnderscores(bukkitVersion[..end.value]);
        } else {
          text := StripVersionChars(packageName);
        }
        version := Some(text);
      }
      v := version.value;
    }

    /** getServerIntVersion(): computed from the version text once, then memoised. */
    method GetServerIntVersion() returns (v: int)
      requires Memo()
      modifies this
      ensures Memo() && v == IntVersionOf(VersionText(packageName, bukkitVersion)) && intVersion == Some(v)
      ensures old(intVersion).None? ==> version.Some?
      ensures old(intVersion).Some? ==> version == old(version) && intVersion == old(intVersion)
      ensures worldMap == old(worldMap) && worldMapStr == old(worldMapStr) && shapeFunction == old(shapeFunction)
    {
      if intVersion.None? {
        var text := GetServerVersionMemo();
        var split := JavaSplit(text, '_');
        if |split| == 0 {
          intVersion := Some(1);
        } else if |split| == 1 {
          var n := ParseInt(split[0]);
          intVersion := Some(if n.Some? then n.value else 1);
        } else {
          var n := ParseInt(split[1]);
          intVersion := Some(if n.Some? then n.value else 1);
        }
      }
      v := intVersion.value;
    }

    /** Drop a cached world from both maps. */
    method Forget(server: Server, world: World)
      requires Valid() && world.id.Some? && world.name.Some?
      modifies this
      ensures Valid()
      ensures worldMap == old(worldMap) - {world.id.value} && worldMapStr == old(worldMapStr) - {world.name.value}
      ensures old(Synced() && Agrees(server)) && world.id.value in old(worldMap) && old(worldMap)[world.id.value] == world ==>
                Synced() && Agrees(server)
      ensures version == old(version) && intVersion == old(intVersion) && shapeFunction == old(shapeFunction)
    {
      if Synced() && Agrees(server) && world.id.value in worldMap && worldMap[world.id.value] == world {
        CacheRemove(worldMap, worldMapStr, server, world);
      }
      worldMap := worldMap - {world.id.value};
      worldMapStr := worldMapStr - {world.name.value};
    }

    /** Cache a live world under its id and its name. */
    method Remember(server: Server, u: Uuid, w: World)
      requires Valid() && server.Consistent() && u in server.byId
      requires w.id == Some(u) && w.name == Some(server.byId[u])
      modifies this
      ensures Valid()
      ensures worldMap == old(worldMap)[u := w] && worldMapStr == old(worldMapStr)[server.byId[u] := w]
      ensures old(Synced() && Agrees(server)) && (u !in old(worldMap) || server.byId[u] !in old(worldMapStr)) ==>
                Synced() && Agrees(server)
      ensures version == old(version) && intVersion == old(intVersion) && shapeFunction == old(shapeFunction)
    {
      var m, ms := worldMap[u := w], worldMapStr[server.byId[u] := w];
      KeyedInsert(worldMap, worldMapStr, u, server.byId[u], w);
      if Synced() && Agrees(server) && (u !in worldMap || server.byId[u] !in worldMapStr) {
        CacheInsert(worldMap, worldMapStr, server, u, w);
      }
      worldMap, worldMapStr := m, ms;
    }

    /**
     * getRTPWorld(name): a live world that is not cached is cached under
     * its id and name; a cached world the server no longer has is dropped
     * from both maps and null is returned.
     */
    method GetRTPWorldByName(server: Server, name: string) returns (w: Option<World>)
      requires Valid() && server.Consistent()
      modifies this
      ensures Valid()
      ensures name in old(worldMapStr) && name in server.byName ==>
                w == Some(old(worldMapStr)[name]) && worldMap == old(worldMap) && worldMapStr == old(worldMapStr)
      ensures name in old(worldMapStr) && name !in server.byName ==>
                w == None && worldMap == old(worldMap) - {old(worldMapStr)[name].id.value} && worldMapStr == old(worldMapStr) - {name}
      ensures name !in old(worldMapStr) && name in server.byName ==>
                var u := server.byName[name];
                w.Some? && fresh(w.value) && w.value.id == Some(u) && w.value.name == Some(name) &&
                worldMap == old(worldMap)[u := w.value] && worldMapStr == old(worldMapStr)[name := w.value]
      ensures name !in old(worldMapStr) && name !in server.byName ==> w == None && worldMap == old(worldMap) && worldMapStr == old(worldMapStr)
      ensures w.Some? ==> w.value.name == Some(name)
      ensures old(Synced() && Agrees(server)) ==> Synced() && Agrees(server)
      ensures version == old(version) && intVersion == old(intVersion) && shapeFunction == old(shapeFunction)
    {
      if name in worldMapStr {
        var world := worldMapStr[name];
        if name in server.byName {
          return Some(world);
        }
        Forget(server, world);
        return None;
      } else if name in server.byName {
        var u := server.byName[name];
        var created := new World(Some(u), Some(server.byId[u]));
        Remember(server, u, created);
        return Some(created);
      }
      return None;
    }

    /** getRTPWorld(id): the same cache update, looked up by id. */
    method GetRTPWorldById(server: Server, id: Uuid) returns (w: Option<World>)
      requires Valid() && server.Consistent()
      modifies this
      ensures Valid()
      ensures id in old(worldMap) && id in server.byId ==>
                w == Some(old(worldMap)[id]) && worldMap == old(worldMap) && worldMapStr == old(worldMapStr)
      ensures id in old(worldMap) && id !in server.byId ==>
                w == None && worldMap == old(worldMap) - {id} && worldMapStr == old(worldMapStr) - {old(worldMap)[id].name.value}
      ensures id !in old(worldMap) && id in server.byId ==>
                w.Some? && fresh(w.value) && w.value.id == Some(id) && w.value.name == Some(server.byId[id]) &&
                worldMap == old(worldMap)[id := w.value] && worldMapStr == old(worldMapStr)[server.byId[id] := w.value]
      ensures id !in old(worldMap) && id !in server.byId ==> w == None && worldMap == old(worldMap) && worldMapStr == old(worldMapStr)
      ensures w.Some? ==> w.value.id == Some(id)
      ensures old(Synced() && Agrees(server)) ==> Synced() && Agrees(server)
      ensures version == old(version) && intVersion == old(intVersion) && shapeFunction == old(shapeFunction)
    {
      if id in worldMap {
        var world := worldMap[id];
        if id in server.byId {
          return Some(world);
        }
        Forget(server, world);
        return None;
      } else if id in server.byId {
        var created := new World(Some(id), Some(server.byId[id]));
        Remember(server, id, created);
        return Some(created);
      }
      return None;
    }

    /**
     * setShapeFunction(f): the function is installed only if it gives a
     * working shape for every loaded world; the scan stops at the first
     * world it fails for.
     */
    method SetShapeFunction(worlds: seq<string>, f: ShapeFunction) returns (works: bool)
      modifies this
      ensures works <==> forall i :: 0 <= i < |worlds| ==> f.selects(worlds[i])
      ensures shapeFunction == (if works then f else old(shapeFunction))
      ensures version == old(version) && intVersion == old(intVersion)
      ensures worldMap == old(worldMap) && worldMapStr == old(worldMapStr)
    {
      works := true;
      var i := 0;
      while i < |worlds|
        invariant 0 <= i <= |worlds|
        invariant forall j :: 0 <= j < i ==> f.selects(worlds[j])
      {
        if !f.selects(worlds[i]) {
          works := false;
          break;
        }
        i := i + 1;
      }
      if works {
        shapeFunction := f;
      }
    }
  }

  // -------------------------------------------------------------------
  // The version memo

  lemma AtFirst(s: string, t: string, j: nat)
    requires At(s, t, j) && |t| >= 1
    ensures s[j] == t[0]
  {
    assert s[j..j + |t|][0] == s[j];
  }

  /** A name without the first character of `t` does not contain `t`. */
  lemma NotContained(s: string, t: string)
    requires |t| >= 1 && t[0] !in s
    ensures !Contains(s, t)
  {
    var r := IndexOf(s, t);
    assert forall j: nat :: At(s, t, j) ==> s[j] == t[0] by {
      forall j: nat | At(s, t, j) ensures s[j] == t[0] {
        AtFirst(s, t, j);
      }
    }
  }

  const MODERN_PACKAGE: string := "org.bukkit.craftbukkit"
  const MODERN_BUKKIT_VERSION: string := "1.20.1-R0.1-SNAPSHOT"

  lemma SplitWhole(s: string, sep: char)
    requires sep !in s
    ensures JavaSplit(s, sep) == [s]
  {
  }

  /** Text that starts with neither a sign nor a digit is not a number. */
  lemma NotANumber(s: string)
    requires |s| >= 1 && s[0] != '-' && s[0] != '+' && !IsDigit(s[0])
    ensures ParseInt(s) == None
  {
  }

  lemma ModernPackageText()
    ensures !Contains(MODERN_PACKAGE, "1_")
    ensures IntVersionOf(MODERN_PACKAGE) == 1
  {
    var p := MODERN_PACKAGE;
    assert p[0] == 'o';
    assert forall i :: 0 <= i < |p| ==> p[i] != '1' && p[i] != '_';
    NotContained(p, "1_");
    SplitWhole(p, '_');
    NotANumber(p);
  }

  lemma ModernReleaseEnd()
    ensures IndexOf(MODERN_BUKKIT_VERSION, "-R") == Some(6)
  {
    var bv := MODERN_BUKKIT_VERSION;
    assert At(bv, "-R", 6) by {
      assert bv[6..8] == "-R";
    }
    assert forall j: nat :: j < 6 ==> bv[j] != '-';
    assert forall j: nat :: At(bv, "-R", j) ==> bv[j] == '-' by {
      forall j: nat | At(bv, "-R", j) ensures bv[j] == '-' {
        AtFirst(bv, "-R", j);
      }
    }
  }

  lemma ModernDots()
    ensures DotsToUnderscores("1.20.1") == "1_20_1"
  {
    var d := DotsToUnderscores("1.20.1");
    assert d[0] == '1' && d[1] == '_' && d[2] == '2' && d[3] == '0' && d[4] == '_' && d[5] == '1';
  }

  lemma ModernPrefix()
    ensures MODERN_BUKKIT_VERSION[..6] == "1.20.1"
  {
  }

  lemma ModernReleaseName()
    ensures BukkitVersionName(MODERN_BUKKIT_VERSION) == "1_20_1"
  {
    ModernReleaseEnd();
    ModernPrefix();
    ModernDots();
  }

  lemma ModernSplit()
    ensures JavaSplit("1_20_1", '_') == ["1", "20", "1"]
  {
    SplitThree("1", "20", "1");
    assert "1" + "_" + "20" + "_" + "1" == "1_20_1";
  }

  lemma ParseTwenty()
    ensures ParseInt("20") == Some(20)
  {
    ParseDecimalRoundTrip(20);
    assert DecimalString(20) == "20" by {
      assert Digits(2) == "2";
    }
  }

  lemma ModernIntVersion()
    ensures IntVersionOf("1_20_1") == 20
  {
    ModernSplit();
    ParseTwenty();
  }

  /** The version a 1.20.1 Bukkit server without a versioned package reports, and its integer version. */
  lemma ModernBukkitVersion()
    ensures !Contains(MODERN_PACKAGE, "1_")
    ensures VersionText(MODERN_PACKAGE, MODERN_BUKKIT_VERSION) == "1_20_1"
    ensures IntVersionOf("1_20_1") == 20
    ensures IntVersionOf(MODERN_PACKAGE) == 1
  {
    ModernPackageText();
    ModernReleaseName();
    ModernIntVersion();
  }

  /**
   * As written, a server whose package name has no "1_" reports its
   * version once; the second call returns the memoised package name, and
   * the integer version read from it is 1.
   */
  method VersionTwiceAsWritten() returns (first: string, second: string)
    ensures first == "1_20_1" && second == MODERN_PACKAGE
    ensures IntVersionOf(first) == 20 && IntVersionOf(second) == 1
  {
    ModernBukkitVersion();
    var a := new Accessor(MODERN_PACKAGE, MODERN_BUKKIT_VERSION, ShapeFunction(0, w => true));
    first := a.GetServerVersion();
    second := a.GetServerVersion();
  }

  /** Memoising the returned text, every call reports the same version. */
  method VersionTwiceIntended() returns (first: string, second: string)
    ensures first == "1_20_1" && second == "1_20_1"
  {
    var a := new Accessor(MODERN_PACKAGE, MODERN_BUKKIT_VERSION, ShapeFunction(0, w => true));
    ModernBukkitVersion();
    first := a.GetServerVersionMemo();
    second := a.GetServerVersionMemo();
  }
}
