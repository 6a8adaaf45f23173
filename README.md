# LiteRTP core in Dafny

A verified model of the core of LiteRTP, a Minecraft plugin that teleports players to random safe locations. It covers:

- **Regions.** How a region picks a location. It draws a chunk from its shape, re-draws on a biome miss, lets the vertical adjustor choose a height, scans blocks for unsafe materials (for each coordinate within the safety radius, the block at that in-chunk offset of the candidate chunk shifted by the coordinate's own chunk offset), and asks the global verifiers.
- **Location caches.** How a region keeps its caches of locations (public, per-player and "fast" futures) topped up and hands cached locations to waiting players.
- **Chunk keep counts.** How the chunks held for cached locations are reference-counted on the world.
- **Permission override chains.** How the chains for worlds and regions are followed.
- **Parameter maps.** How a region's parameters are stored, overlaid and read as numbers.
- **Server version.** How the server accessor works out the Minecraft version.
- **World cache.** How the server accessor keeps its world cache in step with the server.
- **YAML database.** How the database reads and writes tables.
- **Fill commands.** How `fill start` and `fill resume` register, clear and unpause fill tasks.

Java semantics are written out where they matter:

- truncating `/` and `%` (`Common.JavaDiv`, `Common.JavaRem`);
- `String.split` dropping trailing empty pieces;
- `Integer.valueOf` with its 32-bit range;
- `toUpperCase`.

## Modules

| file | module | models |
|---|---|---|
| common.dfy | Common | Java integer division, string splitting, number parsing, upper-casing, `Option`/`Result` |
| chunk_math.dfy | ChunkMath | block-to-chunk coordinate arithmetic |
| bukkit_world.dfy | BukkitWorld | `BukkitRTPWorld`: the chunk keep counts and force-loading, getChunkAt's cached path, equality |
| factory_value.dfy | Factory | `FactoryValue`: the parameter map, getNumber, setData, equals |
| overrides.dfy | Overrides | the permission override chains shared by `RTP.getWorld` and `SelectionAPI.getRegion(player)` |
| rtp_world.dfy | Rtp | `RTP.getWorld` |
| selection_api.dfy | SelectionApi | `SelectionAPI`: region lookups, tempRegion, compute |
| server_accessor.dfy | ServerAccessor | `BukkitServerAccessor`: server version, world cache, shape function |
| yaml_db.dfy | YamlDatabase | `YamlFileDatabase`: read, write, setSection |
| selection.dfy | Selection | `Region.getLocation(biomeNames)`: the selection loop, the safety scan, the global verifiers |
| region_spec.dfy | RegionSpec | value-level specifications of the region's queues: chunk requests, keep-count balance, matching, re-checks |
| region.dfy | Regions | `Region`: the caches, chunk sets, execute, the cache task, getLocation(sender, player, biomes), shutDown, clone |
| fill.dfy | Fill | `FillStartCmd` and `FillResumeCmd` |

Things the code takes from outside become parameters of the model:

- **The world.** A `Terrain` value gives the model's view of the world:
  - a draw oracle for random chunk selection;
  - chunk load outcomes, the vertical adjustor, biomes, blocks, the border predicate and the verifiers.
- **Server and permission state.** The Bukkit server, player permissions, the clock budget (`overTime`) and player status are inputs too.

A region's invariants:

- **`Valid()`.**
  - Its parameters are valid and include cacheCap and worldBorderOverride.
  - Its two task pipelines are distinct.
  - Its keep counts are `Balanced` (RegionSpec): each chunk set the region made has a count of 1 while stored and 0 once released.
- **`Retained()`.** Every location in the public queue, a personal queue or a completed fast future still has its chunk set stored.

## Model

| member | source | states |
|---|---|---|
| Common.JavaDiv | src/main/java/io/github/dailystruggle/rtp/bukkit/server/substitutions/BukkitRTPWorld.java:41-42 | Java's `/` by a positive divisor: the quotient's magnitude is the floor of the magnitudes' quotient and its sign follows the dividend (rounds toward zero) |
| Common.JavaRem | src/main/java/io/github/dailystruggle/rtp/bukkit/server/substitutions/BukkitRTPWorld.java:44-45 | Java's `%` by a positive divisor: quotient times divisor plus remainder is the dividend, the remainder lies strictly between minus and plus the divisor and has the dividend's sign |
| Common.Upper | src/main/java/io/github/dailystruggle/rtp/common/RTP.java:127 | the ASCII part of String.toUpperCase: the result has the input's length and each character is upper-cased on its own, a-z to A-Z, every other character unchanged |
| Common.UpperIdempotent | src/main/java/io/github/dailystruggle/rtp/common/RTP.java:127 | upper-casing an upper-cased name changes nothing |
| Common.UpperFixed | src/main/java/io/github/dailystruggle/rtp/common/RTP.java:127 | a name without lower-case letters is its own upper case |
| Common.UpperAppend | src/main/java/io/github/dailystruggle/rtp/common/RTP.java:127-128 | upper-casing distributes over concatenation, so the ".YML" suffix survives a later upper-casing |
| Common.Digits | src/main/java/io/github/dailystruggle/rtp/bukkit/server/BukkitServerAccessor.java:126-139 | Integer.toString of a natural number is a non-empty run of decimal digits |
| Common.ParseInt | src/main/java/io/github/dailystruggle/rtp/bukkit/server/BukkitServerAccessor.java:126-139 | Integer.valueOf succeeds only on non-empty text and only with a value inside the 32-bit int range; otherwise it is the NumberFormatException path |
| Common.DigitsRoundTrip | src/main/java/io/github/dailystruggle/rtp/bukkit/server/BukkitServerAccessor.java:126-139 | reading back the decimal digits of n gives n |
| Common.ParseDecimalRoundTrip | src/main/java/io/github/dailystruggle/rtp/bukkit/server/BukkitServerAccessor.java:126-139 | Integer.valueOf(Integer.toString(n)) == n for every 32-bit int n, negative ones included |
| Common.Pieces | src/main/java/io/github/dailystruggle/rtp/bukkit/server/BukkitServerAccessor.java:123 | splitting on a separator always yields at least one piece |
| Common.DropTrailingEmpty | src/main/java/io/github/dailystruggle/rtp/bukkit/server/BukkitServerAccessor.java:123 | String.split drops exactly the trailing empty pieces: the result is a prefix, ends in a non-empty piece when non-empty, and only empty pieces were dropped |
| Common.PiecesJoin | src/main/java/io/github/dailystruggle/rtp/bukkit/server/BukkitServerAccessor.java:123 | joining the pieces with the separator gives the input back, and no piece contains the separator |
| ChunkMath.ChunkIndexFloor | src/main/java/io/github/dailystruggle/rtp/bukkit/server/substitutions/BukkitRTPWorld.java:41-42 | the chunk index `x > 0 ? x / 16 : x / 16 - 1` is floor(x / 16) except at non-positive multiples of 16, where it is one less |
| ChunkMath.BlockInChunk | src/main/java/io/github/dailystruggle/rtp/bukkit/server/substitutions/BukkitRTPWorld.java:44-47 | the in-chunk index `x % 16`, plus 16 when negative, lies in [0, 16) and is x mod 16 |
| ChunkMath.ScanLocalise | src/main/java/io/github/dailystruggle/rtp/common/selection/region/Region.java:650-678 | the safety scan's in-chunk coordinate lies in [0, 16) for every x; chunk offset times 16 plus it gives x back, except for negative multiples of 16, where it gives x - 16 |
| BukkitWorld.Kept | src/main/java/io/github/dailystruggle/rtp/bukkit/server/substitutions/BukkitRTPWorld.java:199-204 | keeping a tracked chunk adds exactly one to its count and changes no other entry |
| BukkitWorld.Loaded | src/main/java/io/github/dailystruggle/rtp/bukkit/server/substitutions/BukkitRTPWorld.java:206-221 | completion of the load of an untracked chunk: increments the count if the chunk became tracked meanwhile, tracks it with count 1 if a chunk came back, and throws IllegalStateException otherwise |
| BukkitWorld.Forgotten | src/main/java/io/github/dailystruggle/rtp/bukkit/server/substitutions/BukkitRTPWorld.java:226-237 | forgetting an untracked chunk changes nothing; a count that drops to 0 or below removes the entry; otherwise the count goes down by one and nothing else changes |
| BukkitWorld.ForgetAfterKeep | src/main/java/io/github/dailystruggle/rtp/bukkit/server/substitutions/BukkitRTPWorld.java:199-237 | keeping and then forgetting a tracked chunk restores the map |
| BukkitWorld.ForgetAfterLoad | src/main/java/io/github/dailystruggle/rtp/bukkit/server/substitutions/BukkitRTPWorld.java:206-237 | tracking a freshly loaded chunk and then forgetting it restores the map |
| BukkitWorld.CountsStayPositive | src/main/java/io/github/dailystruggle/rtp/bukkit/server/substitutions/BukkitRTPWorld.java:196-237 | keep, load completion and forget all preserve "every tracked count is at least 1" |
| BukkitWorld.Unforced | src/main/java/io/github/dailystruggle/rtp/bukkit/server/substitutions/BukkitRTPWorld.java:241 | the force-load releases forgetChunks issues: one per tracked chunk, each with `false` |
| BukkitWorld.World.constructor | src/main/java/io/github/dailystruggle/rtp/bukkit/server/substitutions/BukkitRTPWorld.java:101-117 | a world has an id exactly when it has a name, tracks no chunk and has issued no force-load request |
| BukkitWorld.World.KeepChunkAt | src/main/java/io/github/dailystruggle/rtp/bukkit/server/substitutions/BukkitRTPWorld.java:196-223 | a tracked chunk is kept (count + 1, force-loaded again); an untracked one starts a load and changes nothing yet |
| BukkitWorld.World.ChunkLoaded | src/main/java/io/github/dailystruggle/rtp/bukkit/server/substitutions/BukkitRTPWorld.java:207-221 | the load callback of keepChunkAt: the chunk map becomes `Loaded(...)`, force-loading the chunk, or the callback throws and nothing changes |
| BukkitWorld.World.ForgetChunkAt | src/main/java/io/github/dailystruggle/rtp/bukkit/server/substitutions/BukkitRTPWorld.java:225-237 | the chunk map becomes `Forgotten(...)`; the force-load is lifted exactly when the entry disappears |
| BukkitWorld.World.ForgetChunks | src/main/java/io/github/dailystruggle/rtp/bukkit/server/substitutions/BukkitRTPWorld.java:239-243 | the chunk map is emptied and every chunk it tracked has its force-load lifted |
| BukkitWorld.World.ForceLoadedByCount | src/main/java/io/github/dailystruggle/rtp/bukkit/server/substitutions/BukkitRTPWorld.java:384-387 | isForceLoaded holds exactly for tracked chunks, whose counts are at least 1; forgetting a chunk with count 1 clears it |
| BukkitWorld.World.CachedChunk | src/main/java/io/github/dailystruggle/rtp/bukkit/server/substitutions/BukkitRTPWorld.java:142-151 | the cached path of getChunkAt completes with the tracked chunk exactly when the chunk is tracked with a chunk object |
| BukkitWorld.World.HashCode | src/main/java/io/github/dailystruggle/rtp/bukkit/server/substitutions/BukkitRTPWorld.java:395-398 | hashCode is the hash of the world id, and is defined exactly when the world has an id (a world built from a null Bukkit world has none) |
| BukkitWorld.World.EqualsHash | src/main/java/io/github/dailystruggle/rtp/bukkit/server/substitutions/BukkitRTPWorld.java:395-408 | worlds that are equal (same id) have equal hash codes, and equality is symmetric |
| BukkitWorld.BiomeLookup | src/main/java/io/github/dailystruggle/rtp/bukkit/server/substitutions/BukkitRTPWorld.java:41-47 | getBiome's block indices lie in [0, 16) and its chunk is the chunk index of x and z |
| BukkitWorld.BiomeLookupBlock | src/main/java/io/github/dailystruggle/rtp/bukkit/server/substitutions/BukkitRTPWorld.java:41-47 | 16 times the chunk index plus the block index gives x back, except at non-positive multiples of 16 (then x - 16), likewise for z |
| Factory.NumberOf | src/main/java/io/github/dailystruggle/rtp/common/factory/FactoryValue.java:138-170 | getNumber's value: the default when absent, a Number as stored, a Character's digit or else the default, ClassCastException for a String (the cast at line 152), IllegalArgumentException for anything else |
| Factory.NumberOfStable | src/main/java/io/github/dailystruggle/rtp/common/factory/FactoryValue.java:141-169 | after getNumber writes its result back, a second call, with any default, returns the same value |
| Factory.FirstRefused | src/main/java/io/github/dailystruggle/rtp/common/factory/FactoryValue.java:80-93 | how far setData(EnumMap) gets: every entry before this index has a value and the region's key class, and the entry at it does not |
| Factory.PutAll | src/main/java/io/github/dailystruggle/rtp/common/factory/FactoryValue.java:80-93 | copying entries in gives exactly the old keys and the entries' keys |
| Factory.PutAllLast | src/main/java/io/github/dailystruggle/rtp/common/factory/FactoryValue.java:80-93 | after copying, a key holds the value of its last entry |
| Factory.MergeKeeps | src/main/java/io/github/dailystruggle/rtp/common/factory/FactoryValue.java:100-112 | setData(Map) leaves a key it has no accepted entry for as it was, present or absent |
| Factory.MergeLast | src/main/java/io/github/dailystruggle/rtp/common/factory/FactoryValue.java:100-112 | setData(Map) stores, under an enum constant's name, the value of its last non-null entry |
| Factory.CompareFromMeaning | src/main/java/io/github/dailystruggle/rtp/common/factory/FactoryValue.java:256-263 | equals' loop returns true exactly when every key of this data is in the other's data with the same value (same class and equal, or equal ignoring case as text); a false that comes from a missing key of the other's is a NullPointerException |
| Factory.FactoryValue.constructor | src/main/java/io/github/dailystruggle/rtp/common/factory/FactoryValue.java:50-60 | a new value has empty data and has not computed its key names |
| Factory.FactoryValue.GetData | src/main/java/io/github/dailystruggle/rtp/common/factory/FactoryValue.java:68-70 | getData returns a copy that has exactly the data's keys and values; being a value, nothing done to it reaches `data` |
| Factory.FactoryValue.GetDatum | src/main/java/io/github/dailystruggle/rtp/common/factory/FactoryValue.java:72-75 | getData(key) is the stored value, or null when absent |
| Factory.FactoryValue.SetDataFromEnum | src/main/java/io/github/dailystruggle/rtp/common/factory/FactoryValue.java:80-93 | data is reset and then filled up to the first entry with a null value or a foreign key, which throws IllegalArgumentException |
| Factory.FactoryValue.SetDataFromNames | src/main/java/io/github/dailystruggle/rtp/common/factory/FactoryValue.java:100-112 | data becomes the merge: null keys, null values and names that are not constants are skipped, other keys keep their values |
| Factory.FactoryValue.Set | src/main/java/io/github/dailystruggle/rtp/common/factory/FactoryValue.java:120-124 | set throws IllegalArgumentException on a null key or value and changes nothing; otherwise only that key changes |
| Factory.FactoryValue.Clone | src/main/java/io/github/dailystruggle/rtp/common/factory/FactoryValue.java:127-136 | the clone has equal but separate data: the copy is a fresh object, so later sets on one do not reach the other |
| Factory.FactoryValue.GetNumber | src/main/java/io/github/dailystruggle/rtp/common/factory/FactoryValue.java:138-170 | returns `NumberOf` of the old data; on success writes the result back under the key, on a throw leaves data alone |
| Factory.FactoryValue.Keys | src/main/java/io/github/dailystruggle/rtp/common/factory/FactoryValue.java:172-175 | keys are the names of the enum constants, computed once and then returned as memoised |
| Factory.FactoryValue.Equals | src/main/java/io/github/dailystruggle/rtp/common/factory/FactoryValue.java:251-264 | false unless the other is of a compatible class with the same key class; otherwise the comparison of this object's keys only |
| Overrides.Apply | src/main/java/io/github/dailystruggle/rtp/common/RTP.java:127-128 | one override step of getWorld: the upper-cased override plus ".YML", unless the upper-cased override is exactly ".YML"; the region chain uses the override verbatim |
| Overrides.ChaseStops | src/main/java/io/github/dailystruggle/rtp/common/selection/SelectionAPI.java:161-169 | when an override chain ends, it ends after k steps, each through a blocked name, at a name that is not blocked (no permission needed or permission held) |
| Overrides.ChaseLoops | src/main/java/io/github/dailystruggle/rtp/common/selection/SelectionAPI.java:161-169 | when an override chain fails, it is with IllegalStateException, after revisiting a name every step up to which was blocked |
| Overrides.ChaseUnblocked | src/main/java/io/github/dailystruggle/rtp/common/selection/SelectionAPI.java:161 | a start that is not blocked is the result, unchanged |
| Overrides.Follow | src/main/java/io/github/dailystruggle/rtp/common/selection/SelectionAPI.java:161-169 | the while loop over an override chain computes `Chase`; it stops at an unblocked name or throws IllegalStateException |
| SelectionApi.TempEntries | src/main/java/io/github/dailystruggle/rtp/common/selection/SelectionAPI.java:138-144 | each entry tempRegion hands to setData has the region key class, a constant present in the base data or in the parameters, and the parameter value when there is one, else the base value |
| SelectionApi.TempDataMeaning | src/main/java/io/github/dailystruggle/rtp/common/selection/SelectionAPI.java:138-144 | tempRegion's data has exactly the constants present in the base or in the parameters; a parameter overrides and every other key keeps the base value |
| SelectionApi.TempEntriesAccepted | src/main/java/io/github/dailystruggle/rtp/common/selection/SelectionAPI.java:149 | without null parameters, setData accepts every entry tempRegion builds |
| SelectionApi.TempEntriesData | src/main/java/io/github/dailystruggle/rtp/common/selection/SelectionAPI.java:138-149 | copying tempRegion's entries in gives its data |
| SelectionApi.Api.constructor | src/main/java/io/github/dailystruggle/rtp/common/selection/SelectionAPI.java:26-29 | the API starts with empty task queues and no regions |
| SelectionApi.Api.GetRegion | src/main/java/io/github/dailystruggle/rtp/common/selection/SelectionAPI.java:39-41 | getRegion(name) is the stored region, or null when absent |
| SelectionApi.Api.LookupsAgree | src/main/java/io/github/dailystruggle/rtp/common/selection/SelectionAPI.java:39-84 | getRegionExceptionally agrees with getRegion and throws IllegalStateException when absent; getRegionOrDefault returns the named region, else the default one, and throws IllegalStateException when neither exists; the one-argument form falls back to "DEFAULT" |
| SelectionApi.Api.GetRegionForWorld | src/main/java/io/github/dailystruggle/rtp/common/selection/SelectionAPI.java:189-196 | getRegion(world) is the region named by the world's `region` setting, with no override chain |
| SelectionApi.Api.GetRegionForPlayer | src/main/java/io/github/dailystruggle/rtp/common/selection/SelectionAPI.java:153-187 | the world chain, then the region chain from the resulting world's region; each ends at an unblocked name or throws IllegalStateException; the result is the lookup of the final region name |
| SelectionApi.Api.Compute | src/main/java/io/github/dailystruggle/rtp/common/selection/SelectionAPI.java:115-131 | every urgent task runs before any normal one, in FIFO order; when the server is over time throughout, it runs exactly min(minRTPExecutions, queued) tasks; when it is never over time, it runs every queued task |
| SelectionApi.Api.TempRegion | src/main/java/io/github/dailystruggle/rtp/common/selection/SelectionAPI.java:133-151 | a null, empty or unknown base name falls back to "default"; when that is missing too the requireNonNull fails with NullPointerException; otherwise the result is a fresh region with the base name and shape, its own parameter object, and data overlaid with the parameters when no parameter that names an enum constant is null; when one is, setData throws IllegalArgumentException |
| SelectionApi.BaseName | src/main/java/io/github/dailystruggle/rtp/common/selection/SelectionAPI.java:135-136 | the base name used is the given one only when it is non-empty and known; otherwise "default" |
| SelectionApi.CloneWith | src/main/java/io/github/dailystruggle/rtp/common/selection/SelectionAPI.java:148-149 | the clone with the new data is a fresh region with its own parameters, the base name and shape; it succeeds with the overlaid data exactly when no parameter naming an enum constant is null, and otherwise fails with setData's IllegalArgumentException |
| Rtp.ApplyYml | src/main/java/io/github/dailystruggle/rtp/common/RTP.java:127-128 | every name an override step produces ends in ".YML" |
| Rtp.WalkYml | src/main/java/io/github/dailystruggle/rtp/common/RTP.java:122-131 | after at least one override step, the world name ends in ".YML" |
| Rtp.GetWorld | src/main/java/io/github/dailystruggle/rtp/common/RTP.java:114-134 | getWorld follows the override chain: it stops at an unblocked world, or throws IllegalStateException on a revisited name |
| Rtp.GetWorldNames | src/main/java/io/github/dailystruggle/rtp/common/RTP.java:117-133 | an unblocked starting world is looked up unchanged; any other result is the start or a ".YML" name |
| Rtp.DefaultOverrideName | src/main/java/io/github/dailystruggle/rtp/common/RTP.java:127-128 | the default override "DEFAULT.YML" becomes "DEFAULT.YML.YML" |
| Rtp.AppendYml | src/main/java/io/github/dailystruggle/rtp/common/RTP.java:127-128 | an upper-case name longer than ".YML" gets ".YML" appended |
| Rtp.UpperDefault | src/main/java/io/github/dailystruggle/rtp/common/RTP.java:127 | "DEFAULT.YML" is already upper case |
| ServerAccessor.IndexOf | src/main/java/io/github/dailystruggle/rtp/bukkit/server/BukkitServerAccessor.java:108 | String.indexOf: the first position where the text occurs, or none |
| ServerAccessor.StripVersionChars | src/main/java/io/github/dailystruggle/rtp/bukkit/server/BukkitServerAccessor.java:100-114 | removing versionPattern's characters leaves only other characters, each from the input; a single character is kept exactly when it is outside the pattern |
| ServerAccessor.StripIdempotent | src/main/java/io/github/dailystruggle/rtp/bukkit/server/BukkitServerAccessor.java:100-114 | removing versionPattern's characters twice is removing them once |
| ServerAccessor.StripUnchanged | src/main/java/io/github/dailystruggle/rtp/bukkit/server/BukkitServerAccessor.java:100-114 | a string without versionPattern's characters is left as it is |
| ServerAccessor.StripCons | src/main/java/io/github/dailystruggle/rtp/bukkit/server/BukkitServerAccessor.java:100-114 | the first character of a string is dropped exactly when the pattern matches it, and the rest is stripped on its own |
| ServerAccessor.StripAppend | src/main/java/io/github/dailystruggle/rtp/bukkit/server/BukkitServerAccessor.java:100-114 | removal works character by character: it distributes over concatenation, so with the one-character case the result is the input with every pattern character removed, in order |
| ServerAccessor.DotsToUnderscores | src/main/java/io/github/dailystruggle/rtp/bukkit/server/BukkitServerAccessor.java:111 | replaceAll("\\.", "_") replaces exactly the dots |
| ServerAccessor.IntVersionOf | src/main/java/io/github/dailystruggle/rtp/bukkit/server/BukkitServerAccessor.java:121-143 | getServerIntVersion: zero pieces give 1, one piece its integer value, two or more the second piece's; a piece that is not an int gives 1 |
| ServerAccessor.IntVersionOfParts | src/main/java/io/github/dailystruggle/rtp/bukkit/server/BukkitServerAccessor.java:123-139 | for a version major_minor_patch the int version is minor's value |
| ServerAccessor.IntVersionOfRelease | src/main/java/io/github/dailystruggle/rtp/bukkit/server/BukkitServerAccessor.java:123-139 | for a decimal release a_b_c the int version is b |
| ServerAccessor.IntVersionOfSingle | src/main/java/io/github/dailystruggle/rtp/bukkit/server/BukkitServerAccessor.java:126-131 | a single decimal piece gives its own value |
| ServerAccessor.CacheInsert | src/main/java/io/github/dailystruggle/rtp/bukkit/server/BukkitServerAccessor.java:149-153 | adding a live world under its id and its name keeps the two maps keyed, in sync and in agreement with the server |
| ServerAccessor.CacheRemove | src/main/java/io/github/dailystruggle/rtp/bukkit/server/BukkitServerAccessor.java:154-158 | removing a world from both maps keeps them keyed, in sync and in agreement with the server |
| ServerAccessor.Accessor.constructor | src/main/java/io/github/dailystruggle/rtp/bukkit/server/BukkitServerAccessor.java:44-48 | nothing is memoised and no world is cached at first |
| ServerAccessor.Accessor.GetServerVersion | src/main/java/io/github/dailystruggle/rtp/bukkit/server/BukkitServerAccessor.java:102-118 | a memoised version is returned as is; otherwise a package name with "1_" is stripped of versionPattern and memoised, and one without it yields the text from the Bukkit version (or "1_13_2" without "-R") while the raw package name is memoised |
| ServerAccessor.Accessor.GetServerVersionMemo | src/main/java/io/github/dailystruggle/rtp/bukkit/server/BukkitServerAccessor.java:102-118 | when the memo holds what the method computes, it returns that text and keeps it memoised |
| ServerAccessor.Accessor.GetServerIntVersion | src/main/java/io/github/dailystruggle/rtp/bukkit/server/BukkitServerAccessor.java:121-143 | the int version of the server version, memoised so that later calls return the same value; once memoised, a call reads only the memo and changes nothing |
| ServerAccessor.Accessor.GetRTPWorldByName | src/main/java/io/github/dailystruggle/rtp/bukkit/server/BukkitServerAccessor.java:146-160 | a cached live world is returned; a cached world that no longer exists is removed from both maps and null returned; a live uncached one is made and put in both maps; otherwise null; maps that were in step and agreed with the server still are |
| ServerAccessor.Accessor.GetRTPWorldById | src/main/java/io/github/dailystruggle/rtp/bukkit/server/BukkitServerAccessor.java:163-177 | the same cache synchronisation, keyed by id, keeping the maps in step and in agreement with the server |
| ServerAccessor.Accessor.SetShapeFunction | src/main/java/io/github/dailystruggle/rtp/bukkit/server/BukkitServerAccessor.java:185-201 | true exactly when the new function selects for every world, and only then is it installed; otherwise the old one stays |
| ServerAccessor.ModernBukkitVersion | src/main/java/io/github/dailystruggle/rtp/bukkit/server/BukkitServerAccessor.java:102-143 | on a server whose package name lacks "1_" and whose Bukkit version is "1.20.1-R0.1-SNAPSHOT", the version text is "1_20_1" (int version 20) while the package name's int version is 1 |
| ServerAccessor.VersionTwiceAsWritten | src/main/java/io/github/dailystruggle/rtp/bukkit/server/BukkitServerAccessor.java:102-143 | as written, the first call returns "1_20_1" and the second the memoised package name, so the int version drops from 20 to 1 |
| ServerAccessor.VersionTwiceIntended | src/main/java/io/github/dailystruggle/rtp/bukkit/server/BukkitServerAccessor.java:102-118 | memoising the computed text, both calls return "1_20_1" |
| YamlDatabase.TableFile | src/main/java/io/github/dailystruggle/rtp/common/database/options/YamlFileDatabase.java:95-107 | a table name gets ".yml" appended unless it already ends with ".yml", ignoring case; the result always ends with ".yml" |
| YamlDatabase.TableFileIdempotent | src/main/java/io/github/dailystruggle/rtp/common/database/options/YamlFileDatabase.java:95-107 | normalising a normalised table name changes nothing |
| YamlDatabase.MergeNode | src/main/java/io/github/dailystruggle/rtp/common/database/options/YamlFileDatabase.java:188-202 | a plain value is overwritten; a subsection paired with a plain value (a string, number, boolean or list) throws IllegalArgumentException; any error comes from a subsection |
| YamlDatabase.MergeSection | src/main/java/io/github/dailystruggle/rtp/common/database/options/YamlFileDatabase.java:181-204 | setSection keeps the section's keys: keys missing from the map keep their values, keys in both are merged, nothing new is added; it throws IllegalArgumentException exactly when one of those merges does |
| YamlDatabase.MergeNodeIdempotent | src/main/java/io/github/dailystruggle/rtp/common/database/options/YamlFileDatabase.java:181-204 | merging the same value again changes nothing |
| YamlDatabase.MergeSectionIdempotent | src/main/java/io/github/dailystruggle/rtp/common/database/options/YamlFileDatabase.java:181-204 | applying setSection twice with the same map is applying it once |
| YamlDatabase.MergeNothing | src/main/java/io/github/dailystruggle/rtp/common/database/options/YamlFileDatabase.java:181-186 | setSection with an empty map leaves the section as it is |
| YamlDatabase.SetSection | src/main/java/io/github/dailystruggle/rtp/common/database/options/YamlFileDatabase.java:181-204 | the loop over the section's entries computes `MergeSection` |
| YamlDatabase.SectionValue | src/main/java/io/github/dailystruggle/rtp/common/database/options/YamlFileDatabase.java:143-151 | a string is looked up in the shape or vert factory only for a section named shape or vert; every other value, a number or boolean included, passes through unchanged |
| YamlDatabase.WriteKey | src/main/java/io/github/dailystruggle/rtp/common/database/options/YamlFileDatabase.java:136-166 | a key that is absent or plain is set to the value; only writing into a section can fail, and then with IllegalArgumentException; a successful write into a section keeps its keys |
| YamlDatabase.SectionNeedsMap | src/main/java/io/github/dailystruggle/rtp/common/database/options/YamlFileDatabase.java:140-163 | a string written over a section not named shape or vert throws IllegalArgumentException |
| YamlDatabase.OtherNeedsMap | src/main/java/io/github/dailystruggle/rtp/common/database/options/YamlFileDatabase.java:140-163 | a plain value that is not a string passes both `instanceof String` tests unchanged, so written over any section, shape and vert included, it throws IllegalArgumentException |
| YamlDatabase.Current | src/main/java/io/github/dailystruggle/rtp/common/database/options/YamlFileDatabase.java:137 | file.get(key): the stored node, or null |
| YamlDatabase.WriteAllKeys | src/main/java/io/github/dailystruggle/rtp/common/database/options/YamlFileDatabase.java:135-168 | a successful write has the file's keys plus the written ones; unwritten keys are unchanged; plain or absent written keys hold the new value |
| YamlDatabase.WrittenAll | src/main/java/io/github/dailystruggle/rtp/common/database/options/YamlFileDatabase.java:135-168 | conversely, contents that agree with every per-key write and keep every other key are the result of the write |
| YamlDatabase.YamlFile.constructor | src/main/java/io/github/dailystruggle/rtp/common/database/options/YamlFileDatabase.java:109 | a file object starts with nothing loaded |
| YamlDatabase.YamlFile.WriteKeys | src/main/java/io/github/dailystruggle/rtp/common/database/options/YamlFileDatabase.java:135-168 | the per-key loop of write: succeeds exactly when `WriteAll` does and then holds its result; keys not written keep their values; a failure is IllegalArgumentException |
| YamlDatabase.Database.constructor | src/main/java/io/github/dailystruggle/rtp/common/database/options/YamlFileDatabase.java:92 | a database is its map of table files |
| YamlDatabase.Database.Read | src/main/java/io/github/dailystruggle/rtp/common/database/options/YamlFileDatabase.java:92-103 | read answers only for a file that is present and on disk and a key it holds, and then with the stored value; otherwise empty |
| YamlDatabase.Database.Write | src/main/java/io/github/dailystruggle/rtp/common/database/options/YamlFileDatabase.java:106-169 | write uses the table's file or a new one; a file not on disk is first filled from "default.yml" (or created empty); the keys are then written as `WriteAll` says; no other file changes |
| Selection.DefaultBiomeSet | src/main/java/io/github/dailystruggle/rtp/common/selection/region/Region.java:417-438 | with the whitelist the upper-cased configured biomes; otherwise the server's biomes whose upper case is not configured |
| Selection.AcceptsAppend | src/main/java/io/github/dailystruggle/rtp/common/selection/region/Region.java:138-149 | adding a verifier accepts a location exactly when the old chain and the new verifier both do |
| Selection.CheckVerifiers | src/main/java/io/github/dailystruggle/rtp/common/selection/region/Region.java:130-152 | checkGlobalRegionVerifiers: true exactly when no verifier returns false (a throwing verifier is skipped); a false names a verifier that rejected |
| Selection.VerifierRegistry.constructor | src/main/java/io/github/dailystruggle/rtp/common/selection/region/Region.java:37 | the global verifier list starts empty |
| Selection.VerifierRegistry.Add | src/main/java/io/github/dailystruggle/rtp/common/selection/region/Region.java:108-117 | addGlobalRegionVerifier appends the verifier |
| Selection.VerifierRegistry.Clear | src/main/java/io/github/dailystruggle/rtp/common/selection/region/Region.java:119-128 | clearGlobalRegionVerifiers empties the list |
| Selection.VerifierRegistry.Check | src/main/java/io/github/dailystruggle/rtp/common/selection/region/Region.java:130-152 | false when taking the lock is interrupted; otherwise the verdict of the chain in registration order |
| Selection.ScanSafeSound | src/main/java/io/github/dailystruggle/rtp/common/selection/region/Region.java:642-710 | a scan that passes had every chunk it needed and found no unsafe material among the blocks it reads for the coordinates within the radius, in-height blocks only |
| Selection.ScanSafeComplete | src/main/java/io/github/dailystruggle/rtp/common/selection/region/Region.java:642-710 | conversely, available chunks and safe blocks at every position the scan reads make it pass |
| Selection.ScanSafeIff | src/main/java/io/github/dailystruggle/rtp/common/selection/region/Region.java:642-710 | the scan passes exactly when its chunks are available and every block it reads is safe |
| Selection.ScanEmptyRadius | src/main/java/io/github/dailystruggle/rtp/common/selection/region/Region.java:650 | a safety radius of 0 or less scans nothing and passes |
| Selection.ScanColumn | src/main/java/io/github/dailystruggle/rtp/common/selection/region/Region.java:693-707 | the innermost loop over y: passes exactly when no in-height block of the column is unsafe |
| Selection.ScanRow | src/main/java/io/github/dailystruggle/rtp/common/selection/region/Region.java:664-708 | the loop over z with its chunk fetches: computes the row's result and keeps every held chunk available |
| Selection.SafetyScan | src/main/java/io/github/dailystruggle/rtp/common/selection/region/Region.java:642-710 | the three nested loops compute `Scan` |
| Selection.ExamineCandidate | src/main/java/io/github/dailystruggle/rtp/common/selection/region/Region.java:596-726 | fetch, adjust, biome check, scan and verifiers in the source's order compute `Examine` |
| Selection.DrawCandidate | src/main/java/io/github/dailystruggle/rtp/common/selection/region/Region.java:489-580 | one draw with the inner biome-redraw loop: a failed recall ends the selection with RecallFailed; otherwise the outer loop's outcome is that of the post-draw steps, with the border count and location unchanged, and the attempt counters move only when a biome redraw happened |
| Selection.Attempt | src/main/java/io/github/dailystruggle/rtp/common/selection/region/Region.java:489-727 | one iteration of the outer loop: either finishes the selection or moves the counters forward keeping the same outcome |
| Selection.SelectLocation | src/main/java/io/github/dailystruggle/rtp/common/selection/region/Region.java:410-764 | getLocation(biomeNames) as written computes `Select(.., false)` |
| Selection.FoundPassedChecks | src/main/java/io/github/dailystruggle/rtp/common/selection/region/Region.java:612-718 | a found location came from a loaded chunk and the vertical adjustor, has a wanted biome, passed the block scan (safe blocks at every position it reads, which away from the origin chunk are not the blocks around the location) and has the approval of every verifier |
| Selection.OuterSound | src/main/java/io/github/dailystruggle/rtp/common/selection/region/Region.java:489-764 | from any loop state, the returned attempts lie in [1, bound]; a pass carries an acceptable location; a location is returned only on a pass or, as written, when the biome budget ran out |
| Selection.SelectSound | src/main/java/io/github/dailystruggle/rtp/common/selection/region/Region.java:410-764 | every selection returns a sound pair |
| Selection.Checked | src/main/java/io/github/dailystruggle/rtp/common/selection/region/Region.java:580 | the correction: the biome-budget exit forgets the location; everything else is kept |
| Selection.OuterFix | src/main/java/io/github/dailystruggle/rtp/common/selection/region/Region.java:625-640 | from any loop state, the corrected loop returns the as-written result with the location dropped after a biome-budget exit |
| Selection.FixIsChecked | src/main/java/io/github/dailystruggle/rtp/common/selection/region/Region.java:410-764 | the corrected selection is the as-written one after `Checked` |
| Selection.SelectCheckedLocation | src/main/java/io/github/dailystruggle/rtp/common/selection/region/Region.java:410-764 | the corrected selection; a location it returns passed every check |
| Selection.BorderGivesUp | src/main/java/io/github/dailystruggle/rtp/common/selection/region/Region.java:583-593 | when no drawn chunk is inside the border, the selection returns (null, 1001) on the 1001st border failure |
| Selection.BorderLoop | src/main/java/io/github/dailystruggle/rtp/common/selection/region/Region.java:583-593 | the same from any number of earlier border failures |
| Selection.StaleNames | src/main/java/io/github/dailystruggle/rtp/common/selection/region/Region.java:417-438 | the example's biome set is {"PLAINS"} |
| Selection.StaleExamine | src/main/java/io/github/dailystruggle/rtp/common/selection/region/Region.java:612-640 | in the example the chunk's centre biome is wanted but the adjusted location's is not |
| Selection.StaleFirstAttempt | src/main/java/io/github/dailystruggle/rtp/common/selection/region/Region.java:625-640 | the example's first attempt ends in a post-adjust biome miss that keeps the location as written |
| Selection.StaleSecondAttempt | src/main/java/io/github/dailystruggle/rtp/common/selection/region/Region.java:580 | the second attempt then hits the biome budget |
| Selection.StaleLocationExample | src/main/java/io/github/dailystruggle/rtp/common/selection/region/Region.java:580-764 | as written the selection returns a location whose biome is unwanted; corrected it returns none |
| RegionSpec.ReleaseBalanced | src/main/java/io/github/dailystruggle/rtp/common/selection/region/Region.java:866-871 | releasing and removing a stored chunk set keeps the keep counts equal to the number of stored references |
| RegionSpec.AddBalanced | src/main/java/io/github/dailystruggle/rtp/common/selection/region/Region.java:861-862 | a new set, kept once and stored, keeps the counts balanced |
| RegionSpec.EmptyBalanced | src/main/java/io/github/dailystruggle/rtp/common/selection/region/Region.java:783-784 | once no set is stored, every keep count is 0: shutDown releases everything |
| RegionSpec.GridShape | src/main/java/io/github/dailystruggle/rtp/common/selection/region/Region.java:853-858 | m rows of the nested request loops are m*(2r+1) chunks, exactly those of the first m columns around the centre, within r in z |
| RegionSpec.RequestsCover | src/main/java/io/github/dailystruggle/rtp/common/selection/region/Region.java:829-858 | chunks() requests exactly (2r+1)^2 chunks, those within r of the centre chunk in both axes, and none for a negative radius |
| RegionSpec.NegativeRadiusNeverReused | src/main/java/io/github/dailystruggle/rtp/common/selection/region/Region.java:829-832 | for a negative radius the requested set is smaller than the reuse threshold (2r+1)^2, so a stored set is replaced on every call |
| RegionSpec.MatchDrains | src/main/java/io/github/dailystruggle/rtp/common/selection/region/Region.java:174-221 | unless a stale player is met, matching stops only when the cache or the player queue is empty |
| RegionSpec.MatchFifo | src/main/java/io/github/dailystruggle/rtp/common/selection/region/Region.java:174-221 | the k-th match gets the k-th cached entry and an online player; the unused entries and players are suffixes of the queues |
| RegionSpec.MatchInOrder | src/main/java/io/github/dailystruggle/rtp/common/selection/region/Region.java:174-221 | the matched players are exactly the online players among those polled, in queue order |
| RegionSpec.RecheckOf | src/main/java/io/github/dailystruggle/rtp/common/selection/region/Region.java:240-359 | re-checking a personal entry keeps it exactly when its chunk loads, its scan is safe and the verifiers accept; it aborts on a null chunk or a failed scan fetch |
| RegionSpec.PublicPick | src/main/java/io/github/dailystruggle/rtp/common/selection/region/Region.java:363-370 | the public walk never aborts |
| RegionSpec.PersonalPickSound | src/main/java/io/github/dailystruggle/rtp/common/selection/region/Region.java:240-359 | an entry the personal walk returns is the one polled last, passes all checks, and the queue keeps what follows it |
| RegionSpec.PersonalPickRest | src/main/java/io/github/dailystruggle/rtp/common/selection/region/Region.java:240-361 | an aborted walk leaves a suffix; an emptied walk reports the last entry polled |
| RegionSpec.PublicPickFirst | src/main/java/io/github/dailystruggle/rtp/common/selection/region/Region.java:363-370 | the public walk returns the first entry the verifiers accept, dropping those before it, or empties the queue reporting the last polled |
| Regions.OverrideStored | src/main/java/io/github/dailystruggle/rtp/common/selection/region/Region.java:907-913 | reading worldBorderOverride stores a parsed string back as a boolean, with the same meaning, and changes no other key |
| Regions.Without | src/main/java/io/github/dailystruggle/rtp/common/selection/region/Region.java:949-956 | removing a set of locations from the chunk-set map |
| Regions.FreshPairSound | src/main/java/io/github/dailystruggle/rtp/common/selection/region/Region.java:372-378 | as written, a fresh selection's location passed every check or is the stale location the biome budget leaves; its attempts are within the bound |
| Regions.FreshPairIntendedSound | src/main/java/io/github/dailystruggle/rtp/common/selection/region/Region.java:372-378 | over the corrected selection a fresh location passed every check; it succeeds exactly when the as-written one does and differs only by dropping the biome budget's stale location |
| Regions.TaskPipe.constructor | src/main/java/io/github/dailystruggle/rtp/common/selection/region/Region.java:57-58 | a pipeline starts empty and running |
| Regions.TaskPipe.Add | src/main/java/io/github/dailystruggle/rtp/common/selection/region/Region.java:97 | add appends a task |
| Regions.TaskPipe.Poll | src/main/java/io/github/dailystruggle/rtp/common/selection/region/Region.java:166 | poll takes the first task, or none from an empty pipeline |
| Regions.TaskPipe.Stop | src/main/java/io/github/dailystruggle/rtp/common/selection/region/Region.java:778 | stop marks the pipeline stopped and keeps its tasks |
| Regions.TaskPipe.Clear | src/main/java/io/github/dailystruggle/rtp/common/selection/region/Region.java:779 | clear drops every task |
| Regions.Shape.constructor | src/main/java/io/github/dailystruggle/rtp/common/commands/fill/FillStartCmd.java:56-60 | a shape has a name and is a memory shape or not (the test line 58 makes); its fill memory starts empty: no bad locations, no biome locations, a zero sum |
| Regions.Region.constructor | src/main/java/io/github/dailystruggle/rtp/common/selection/region/Region.java:60-99 | a new region has the given data and empty queues, its cache pipeline not yet filled |
| Regions.Region.Copy | src/main/java/io/github/dailystruggle/rtp/common/selection/region/Region.java:790-799 | the copy made by clone, with fresh empty queues and the same pipelines |
| Regions.Region.Prefill | src/main/java/io/github/dailystruggle/rtp/common/selection/region/Region.java:95-98 | the constructor's loop adds public Cache tasks up to cacheCap; a bad cacheCap value throws and adds none |
| Regions.Region.PublicQueueLength | src/main/java/io/github/dailystruggle/rtp/common/selection/region/Region.java:894-896 | the public queue length is the number of cached entries |
| Regions.Region.PersonalQueueLength | src/main/java/io/github/dailystruggle/rtp/common/selection/region/Region.java:898-904 | a player with no queue and no fast future has personal length 0 |
| Regions.Region.QueueLengthsAdd | src/main/java/io/github/dailystruggle/rtp/common/selection/region/Region.java:886-904 | the total queue length is the public length plus the personal one |
| Regions.Region.HasLocationMeaning | src/main/java/io/github/dailystruggle/rtp/common/selection/region/Region.java:224-228 | hasLocation holds exactly when the public queue is non-empty or the player has a personal queue, which may be empty |
| Regions.Region.ChunkRequests | src/main/java/io/github/dailystruggle/rtp/common/selection/region/Region.java:853-858 | the nested request loops produce `Requests`, which `RequestsCover` describes |
| Regions.Region.Chunks | src/main/java/io/github/dailystruggle/rtp/common/selection/region/Region.java:828-864 | a stored set with at least (2r+1)^2 chunks is reused; otherwise the stored set is released and removed, and with a shape, vert and world a fresh set of exactly the requested chunks is kept and stored, else null |
| Regions.Region.RemoveChunks | src/main/java/io/github/dailystruggle/rtp/common/selection/region/Region.java:866-871 | the set is released and removed; a location without one changes nothing |
| Regions.Region.RemoveChunksIn | src/main/java/io/github/dailystruggle/rtp/common/selection/region/Region.java:949-956 | removeChunks for every drained location |
| Regions.Region.FastQueue | src/main/java/io/github/dailystruggle/rtp/common/selection/region/Region.java:873-879 | an existing future is returned; else a pending one is stored and a player Cache task queued; the personal length grows by one exactly then |
| Regions.Region.Queue | src/main/java/io/github/dailystruggle/rtp/common/selection/region/Region.java:881-884 | the player gets an (empty) personal queue if they had none, and a player Cache task is queued; hasLocation then holds |
| Regions.Region.ReadOverride | src/main/java/io/github/dailystruggle/rtp/common/selection/region/Region.java:907-913 | the worldBorderOverride value, with a string stored back parsed |
| Regions.Region.GetShape | src/main/java/io/github/dailystruggle/rtp/common/selection/region/Region.java:906-960 | with the override on and a differing border shape, the shape is replaced and every queued location dropped with its chunk set released; otherwise the queues are untouched |
| Regions.Region.ShutDown | src/main/java/io/github/dailystruggle/rtp/common/selection/region/Region.java:767-788 | with a world it stops and clears the cache pipeline, empties all queues and maps, and releases every chunk set (all keep counts 0); without one it changes none of its queues, maps, chunk sets or cache pipeline |
| Regions.Region.Clone | src/main/java/io/github/dailystruggle/rtp/common/selection/region/Region.java:790-799 | the clone has its own copy of the data, the same name, shape and pipelines, and empty queues and maps |
| Regions.Region.Route | src/main/java/io/github/dailystruggle/rtp/common/selection/region/Region.java:1047-1058 | on success a public task's entry joins the public queue, a player's completes their pending fast future or joins their personal queue; on failure the set is released and removed; every queued location keeps its set |
| Regions.Region.TopUpOnce | src/main/java/io/github/dailystruggle/rtp/common/selection/region/Region.java:1061-1062 | one public task is added exactly when the pipeline and the cache are short of cap plus the waiting players |
| Regions.Region.CacheRun | src/main/java/io/github/dailystruggle/rtp/common/selection/region/Region.java:1027-1064 | reads cacheCap (a bad value throws, nothing changes); runs the as-written selection (so a biome budget's stale location can be chosen); when the chosen location's chunk set has completed, `routed` is `Entry(location, attempts)` with its completion and the callback's effect holds: on success a public task appends the entry to the public queue, a player task completes the player's pending fast future or else extends the player's own queue, and the set stays stored; on failure the set is dropped and no queue changes; with no completed set no queue changes; for a chosen location every other chunk set is untouched, and unless the load failed the set stored under it is the one chunks hands back (the stored set when it has enough chunks, otherwise a new one with the next keep id and the (2r+1)^2 requests); finally one public task is queued exactly when the pipeline plus the cache is short of max(cacheCap, waiting players) plus the waiting players |
| Regions.Region.Place | src/main/java/io/github/dailystruggle/rtp/common/selection/region/Region.java:1042-1059 | chunks(location, radius) then the completion callback: a reused set with enough chunks or a new one completing as the load does decides `routed`, and a completed set routes the entry as the callback does; other chunk sets are untouched, and unless the load failed the set stored under the location is the one chunks hands back |
| Regions.Region.TopUp | src/main/java/io/github/dailystruggle/rtp/common/selection/region/Region.java:164-165 | tasks are added until pipeline plus cache reaches cap plus waiting players, and no more |
| Regions.Region.MatchPlayers | src/main/java/io/github/dailystruggle/rtp/common/selection/region/Region.java:174-221 | the matching loop hands on exactly `Match`'s pairs and leaves its queues; chunk sets stay retained |
| Regions.Region.Cycle | src/main/java/io/github/dailystruggle/rtp/common/selection/region/Region.java:159-221 | as written: a bad cacheCap throws and nothing changes; with at least max(cacheCap, waiting players) cached entries nothing is matched and nothing changes, even with players waiting; otherwise the old queue is a prefix of the queue after the cache pipeline, that queue is matched to the waiting players as `Match` says, the players left are a suffix of those waiting, and unless one is stale the cycle ends with an empty cache or no waiting player |
| Regions.Region.CycleIntended | src/main/java/io/github/dailystruggle/rtp/common/selection/region/Region.java:159-221 | corrected: a full cache skips only the top-up and the cached entries are still matched as `Match` says; in every case the players are matched against the queue after the cache pipeline, which extends the old one; unless a player is stale the cycle ends with an empty cache or no waiting player |
| Regions.Region.RecheckEntry | src/main/java/io/github/dailystruggle/rtp/common/selection/region/Region.java:246-359 | the re-check of a polled personal entry computes `RecheckOf` |
| Regions.Region.PollPersonal | src/main/java/io/github/dailystruggle/rtp/common/selection/region/Region.java:238-361 | the personal walk computes `PersonalPick` and leaves the rest of the queue stored |
| Regions.Region.PollPublic | src/main/java/io/github/dailystruggle/rtp/common/selection/region/Region.java:363-370 | the public walk computes `PublicPick` and leaves the rest of the queue |
| Regions.Region.GetLocationFor | src/main/java/io/github/dailystruggle/rtp/common/selection/region/Region.java:230-398 | with biomes asked for, a fresh as-written selection; else the personal queue (a re-check that cannot load gives null), then the public queue; failing both, a fresh selection when unqueued is allowed, otherwise the player joins the player queue and gets the last entry polled |
| Regions.StallRegion | src/main/java/io/github/dailystruggle/rtp/common/selection/region/Region.java:60-99 | a region with cacheCap 1, one cached entry and one waiting player |
| Regions.StallAsWritten | src/main/java/io/github/dailystruggle/rtp/common/selection/region/Region.java:159-165 | as written the waiting player gets nothing and the state repeats |
| Regions.StallIntended | src/main/java/io/github/dailystruggle/rtp/common/selection/region/Region.java:159-221 | corrected, the waiting player gets the cached entry |
| Regions.Region.RunPipeline | src/main/java/io/github/dailystruggle/rtp/common/selection/region/Region.java:157-166 | running a pipeline's tasks keeps the region valid, only appends to the public queue (at most one entry per run) and leaves its player queue, shape and hand-offs alone |
| Regions.Region.Execute | src/main/java/io/github/dailystruggle/rtp/common/selection/region/Region.java:154-222 | one execute as written keeps the region valid and its shape; what it does to the queues is stated on Cycle |
| Regions.Region.ExecuteIntended | src/main/java/io/github/dailystruggle/rtp/common/selection/region/Region.java:154-222 | the corrected execute keeps the region valid and its shape; what it does to the queues is stated on CycleIntended |
| Fill.FillTask.constructor | src/main/java/io/github/dailystruggle/rtp/common/commands/fill/FillStartCmd.java:74 | a new fill task for a region, starting at the given position and not paused |
| Fill.GetRegions | src/main/java/io/github/dailystruggle/rtp/common/commands/fill/FillStartCmd.java:85-94 | one lookup per explicit name, in order; else the player's region (its errors passed on); else the "default" region |
| Fill.ReachedFirstNull | src/main/java/io/github/dailystruggle/rtp/common/commands/fill/FillStartCmd.java:44-45 | start's loop gets through the non-null regions and stops at the first null one, where region.name throws |
| Fill.MemoryNamesMeaning | src/main/java/io/github/dailystruggle/rtp/common/commands/fill/FillStartCmd.java:58-74 | the names registered so far are those of memory-shape regions reached |
| Fill.ClearedShapesMeaning | src/main/java/io/github/dailystruggle/rtp/common/commands/fill/FillStartCmd.java:47-72 | the shapes cleared are those of reached memory regions with no task before |
| Fill.NothingClearedTwice | src/main/java/io/github/dailystruggle/rtp/common/commands/fill/FillStartCmd.java:47-54 | once every memory region's name has a task, a further start clears nothing |
| Fill.Forget | src/main/java/io/github/dailystruggle/rtp/common/commands/fill/FillStartCmd.java:70-72 | clearing a shape's fill memory changes no other shape's |
| Fill.FillTasks.constructor | src/main/java/io/github/dailystruggle/rtp/common/commands/fill/FillStartCmd.java:45 | no fill task is registered at first |
| Fill.FillTasks.StartRegion | src/main/java/io/github/dailystruggle/rtp/common/commands/fill/FillStartCmd.java:45-79 | one region of start: a running task is kept, a non-memory shape is skipped, a memory shape is cleared and a fresh task registered |
| Fill.FillTasks.Register | src/main/java/io/github/dailystruggle/rtp/common/commands/fill/FillStartCmd.java:70-74 | a memory region without a task gets a fresh FillTask(region, 0) and nothing else changes |
| Fill.FillTasks.Start | src/main/java/io/github/dailystruggle/rtp/common/commands/fill/FillStartCmd.java:43-82 | start registers a fresh task for each reached memory region without one, keeps existing tasks, clears exactly those shapes, and returns true unless it met a null region |
| Fill.FillTasks.StartLoop | src/main/java/io/github/dailystruggle/rtp/common/commands/fill/FillStartCmd.java:44-80 | the loop over regions, up to the first null one |
| Fill.FillTasks.StartCommand | src/main/java/io/github/dailystruggle/rtp/common/commands/fill/FillStartCmd.java:40-83 | with a next command, returns true and does nothing; an error in getRegions is passed on; otherwise start |
| Fill.StopFirstMissing | src/main/java/io/github/dailystruggle/rtp/common/commands/fill/FillResumeCmd.java:42-47 | resume's loop gets through regions that have tasks and stops at the first null region or region without a task |
| Fill.ResumedMeaning | src/main/java/io/github/dailystruggle/rtp/common/commands/fill/FillResumeCmd.java:43-49 | the tasks unpaused are those of the regions reached |
| Fill.FillTasks.Unpause | src/main/java/io/github/dailystruggle/rtp/common/commands/fill/FillResumeCmd.java:42-57 | the tasks of the regions before the first one without a task are unpaused, no other task changes |
| Fill.FillTasks.Resume | src/main/java/io/github/dailystruggle/rtp/common/commands/fill/FillResumeCmd.java:41-57 | unpauses up to the first region without a task; then delegates to start, which sees the same regions; with every region having a task it returns true and registers nothing |
| Fill.FillTasks.ResumeCommand | src/main/java/io/github/dailystruggle/rtp/common/commands/fill/FillResumeCmd.java:38-58 | with a next command, returns true and does nothing; an error in getRegions is passed on; otherwise resume |

## Where the code differs from its documented intent

The model follows the code in each case below:

- **Chunk-load failures in `getLocation(biomeNames)`** (`Region.java:601-610`). A chunk load that throws makes the method return (null, attempts so far) at once, and a null chunk makes it return null. Neither is counted as an exhausted attempt.
- **Missing shape, vert or world.** A missing shape or vert at the start of selection (`Region.java:451-461`) makes the method return null rather than a failure pair. So does a missing shape, vert or world in `chunks()`.
- **Exceeding the biome re-draw budget.** This does not always produce a null location; see the first finding. `Cache.run` and `getLocation(sender, ...)` use that as-written selection, so the stale location can be cached and handed to a player (`Regions.FreshPairSound`); `Regions.FreshPairIntended` is the corrected fresh pair.
- **Which blocks the safety scan reads** (`Region.java:650-678`). For a coordinate within the safety radius, the scan adds that absolute coordinate's chunk offset to the candidate chunk's position. Away from the origin chunk, the chunk it reads is therefore not the one that holds the coordinate, and the blocks it checks are not those around the location (`Selection.ScanChunk`).
- **Where `execute` stops.** `execute` does not always go on to match cached locations with waiting players. It returns early once the cache is full; see the second finding.
- **World border failures.** They are counted in total, not consecutively: the counter is never reset. The selection gives up on the 1001st failure (`Selection.BorderGivesUp`).
- **Version int of the modern package name.** The package-name text that `getServerVersion` memoises on a modern server gives an int version of 1; see the third finding.

## Left out

- **Concurrency.** Semaphores and the `ConcurrentHashMap`/`ConcurrentLinkedQueue` types are left out, and threads are not modelled. Every operation runs to completion in sequence.
- **Futures.** A `CompletableFuture` is an `Option`-like completion value, and a chunk set's `complete` future is an `Option<bool>`.
- **Randomness.** Random chunk selection is the oracle `Terrain.draw`, indexed by attempt.
- **Time.** `System.nanoTime` and the time budget are the `overTime` input.
- **Messages.** Messages, announcements, logging and the verbose failure map of `getLocation` are left out, because they only report.
- **TeleportData and processingPlayers.** They are reduced to the per-player status `Waiting` (stale, offline, online). `dispatched` records each hand-off to a LoadChunks task.
- **Teleport pipelines.** LoadChunks, `onPlayerQueuePop` and the teleport pipelines are not part of this model.
- **MemoryShape bookkeeping during selection.** `addBadLocation` and `addBiomeLocation` are left out. The fill memory is modelled only as far as the fill commands clear it.
- **Shape and vertical-adjustor construction.** `getShape` and `getVert` build these by reflection from the factory maps. They are inputs: the border's shape, whether it equals the current one (`sameShape`), and `hasShape`/`hasVert`. Whether the region's world exists is the `worldKnown` input of `ShutDown`.
- **Floating point.** Parsing a String in `getNumber` is not modelled, because of floating point and because of the cast it goes through; see `Factory.NumberOf`.
- **FillTask.java.** It is not part of this model. A fill task is its region, its start and its pause flag, and a new task is not paused.
- **Platform and command layers.** The Bukkit platform glue, configuration parsing, the legacy `leafcraft` code and the command framework are not part of this model. Configuration files become `Config` maps of world and region nodes.
- **Shapes of YAML values.** A written value is modelled as a string (`Text`), another plain value such as a number, boolean or list (`Other`, kept only as its text), a map (`Entries`) or a parameter store (`Factory`). Lists are not told apart from other plain values, since both fail the section merge alike. The name of a configuration section is modelled as its key.
- **Order and partial state in YAML writes.** `YamlFile.WriteKeys` and `Database.Write` go through the keys in an order the model chooses. A write that throws may have applied earlier keys, and the model states nothing about that state.
- **YamlDatabase.Current:** a key is taken as a top-level name: SimpleYaml reads a key holding '.' as a path into nested sections, and that path is not modelled; keys are assumed to contain no '.'.
- **YamlDatabase.YamlFile.WriteKeys:** likewise, each key is set at the top level, and keys are assumed to contain no '.'; a dotted key's creation of nested sections is not modelled.
- **YamlDatabase.Database.Read:** likewise, the key is looked up at the top level of the file's contents, and keys are assumed to contain no '.'.
- **YamlDatabase.Database.Write:** likewise, keys are written at the top level through `YamlFile.WriteKeys`, and keys are assumed to contain no '.'; for a dotted key the model states nothing about the nested sections SimpleYaml would read or create.
- **Database.Write:** the I/O failures of `copyTo`, `createNewFile` and `loadWithComments` are not modelled. A file that exists on disk is modelled as already loaded.
- **Factory.NumberOf:** the String branch is modelled as the ClassCastException of its `(Character)` cast. The Double parse and its fallback after the cast are unreachable and left out. Its Character branch maps only the ASCII digits 0-9; Integer.parseInt also takes other Unicode decimal digits.
- **Selection.VerifierRegistry.Check:** an interrupted lock counts as a rejection. The lock is the `interrupted` input.
- **ServerAccessor.Accessor.GetServerIntVersion:** it requires the memo to hold the computed version text. It is therefore stated over the corrected `getServerVersion`. The as-written sequence of calls is `ServerAccessor.VersionTwiceAsWritten`.
- **Regions.Region.Execute:** its contract states only that the region stays valid and keeps its shape. The effect on the queues of the cache cycle that follows the misc pipeline is stated on `Regions.Region.Cycle`. Execute's own contract does not relate the queues before the misc pipeline to those after the cycle.
- **Regions.Region.ExecuteIntended:** likewise, with its effect stated on `Regions.Region.CycleIntended`.
- **Regions.Region.RunPipeline:** it does not state which tasks ran or what each did. A single task's effect is stated on `Regions.Region.CacheRun`; the loop only keeps the region valid and the public queue growing at its end.
- **Regions.Region.GetLocationFor:** it does not call `getShape` (Region.java:233), so the border-shape refresh and the queue drain of `getShape` are not part of it. That refresh is modelled only in `Regions.Region.GetShape`, and the queues here are those before any refresh.
- **Regions.Region.CacheRun:** likewise, its selection takes the shape as the `hasShape` input and skips the refresh `getShape` may make (Region.java:451).
- **Regions.Region.Chunks:** likewise, the null shape test and the refresh of `getShape` at Region.java:844 are left out; the region's shape is used as it is.
- **Regions.Region.ShutDown:** the `getShape` at Region.java:768 is the `worldKnown` input; its refresh is left out.
- **Fill.FillTasks.StartRegion:** the shape is the region's shape field; the refresh of `region.getShape()` at FillStartCmd.java:56 is left out.
- **Common.Upper:** only the ASCII letters a-z are mapped. The ROOT locale is assumed, and the other Unicode mappings are dropped, including those that change a string's length. The same holds for everything built on it: `Common.EqualsIgnoreCase`, `Common.ParseBoolean`, the `.YML` file names and the factory overrides.
- **Selection.ScanRow:** a chunk fetched for the safety scan is taken to be non-null. The source keeps the fetched chunk with `keep(true)`, so a future that completes with null throws NullPointerException (Region.java:684-686), outside the catch of InterruptedException and ExecutionException. The model records only whether the fetch failed. `Selection.SafetyScan`, `Selection.ExamineCandidate` and the selection built on them inherit this.
- **Regions.Region.RecheckEntry:** likewise, a scan chunk fetched while re-checking a personal entry is taken to be non-null (Region.java:340-342), so the NullPointerException there is not modelled; `RegionSpec.RecheckOf` inherits this. A null home chunk is modelled, as `Abort`.
- **Selection.SafetyScan:** inherits the non-null scan chunk of `Selection.ScanRow`.
- **Selection.ExamineCandidate:** inherits the non-null scan chunk of `Selection.ScanRow`; a candidate whose scan would meet a null chunk is modelled as the scan's own verdict, not as NullPointerException.
- **RegionSpec.RecheckOf:** inherits the non-null scan chunk of `Regions.Region.RecheckEntry`.
- **SelectionApi.Api.Compute:** a task is an id whose run changes nothing the model tracks. A failed selection that puts itself back at the end of a queue (SelectionAPI.java:22-25) is not modelled. With such tasks Java may run a task again in the same compute and need not end with empty queues, so the exact count and the full drain hold only for tasks that do not re-queue.
- **Override defaults.** `Overrides.Node` holds the override already defaulted. A caller therefore builds one `Config` per chain: getWorld's defaults an unset override to "DEFAULT.YML" (RTP.java:127), getRegion(player)'s to "default" (SelectionAPI.java:166).
- **Common.ParseInt:** only the ASCII digits 0-9 are accepted. Integer.valueOf also accepts other Unicode decimal digits, and those are not modelled. The same holds for `Factory.NumberOf`, whose Character branch (FactoryValue.java:160) maps only an ASCII digit to its number.
- **Regions.Shape.constructor:** MemoryShape.java is not part of this model. A shape's fill memory starts empty, which is the state `fill start` restores by clearing it (FillStartCmd.java:70-72).
- **Regions.Region.PersonalQueueLength:** it states only the case of a player with no personal queue and no future.
- **Fill.FillTasks.StartCommand:** it does not restate the shape-clearing facts, which are on `Fill.FillTasks.Start`.
- **Fill.FillTasks.ResumeCommand:** likewise.
- **Fill.FillTasks.Resume:** the delegation to `fill start` gets the same regions. The source looks them up a second time, and the model assumes the lookup returns the same result.

## Findings

| source | as written | input that shows it | evidently intended | confidence | as-written member | corrected member |
|---|---|---|---|---|---|---|
| src/main/java/io/github/dailystruggle/rtp/common/selection/region/Region.java:625-640 | After a post-adjust biome miss, `location` keeps the adjusted candidate, and the loop breaks at line 580 once the biome budget is spent. Line 764 then returns that candidate although its biome is not wanted. | One chunk whose centre biome is wanted but whose adjusted location's biome is not, with a biome budget of 1 (`StaleTerrain`, `StaleSettings`) | a returned location has passed every check | not executed | Selection.StaleLocationExample | Selection.SelectCheckedLocation |
| src/main/java/io/github/dailystruggle/rtp/common/selection/region/Region.java:163 | `return` when the cache is full leaves the method before the loop that gives cached locations to waiting players. This happens when the cache has at least max(cacheCap, players waiting) entries. | cacheCap 1, one cached location, one waiting online player (`StallRegion`) | with a full cache only the top-up is skipped; players are still matched | not executed | Regions.StallAsWritten | Regions.StallIntended |
| src/main/java/io/github/dailystruggle/rtp/bukkit/server/BukkitServerAccessor.java:103-113 | Without "1_" in the package name, the first call memoises the package name but returns the text computed from the Bukkit version. Later calls therefore return the package name, and `getServerIntVersion` computed after them gives 1. | a package name without "1_" on Bukkit version "1.20.1-R0.1-SNAPSHOT" | every call returns "1_20_1" (int version 20) | not executed | ServerAccessor.VersionTwiceAsWritten | ServerAccessor.VersionTwiceIntended |
