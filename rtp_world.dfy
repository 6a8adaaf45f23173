/**
 * RTP.getWorld(player): the world a player teleports in, found by following
 * world overrides from the player's current world. Each override is
 * upper-cased and given a ".YML" suffix before it is looked up.
 */
module Rtp {
  import opened Common
  import opened Overrides

  const WORLD_PERMISSION_PREFIX: string := "rtp.worlds."

  function WorldChain(worlds: Config, granted: string -> bool): Chain
  {
    Chain(worlds, UpperYml, WORLD_PERMISSION_PREFIX, granted)
  }

  /** An upper-case name ending in ".YML". */
  predicate YmlName(name: string)
  {
    |name| >= 4 && name[|name| - 4..] == ".YML" && Upper(name) == name
  }

  /** Every stepped override is an upper-case name ending in ".YML". */
  lemma ApplyYml(override: string)
    ensures YmlName(Apply(UpperYml, override))
  {
    var u := Upper(override);
    UpperIdempotent(override);
    if u != ".YML" {
      UpperAppend(u, ".YML");
      assert Upper(".YML") == ".YML";
    }
  }

  /** Past its start, every name of a world walk is a stepped override. */
  lemma {:induction false} WalkYml(ch: Chain, name: string, k: nat)
    requires ch.step == UpperYml && k >= 1
    ensures YmlName(Walk(ch, name, k))
    decreases k
  {
    if k == 1 {
      assert Walk(ch, name, 1) == Walk(ch, Next(ch, name), 0);
      ApplyYml(NodeOf(ch.config, name).override);
    } else {
      WalkYml(ch, Next(ch, name), k - 1);
    }
  }

  /**
   * getWorld's override loop; the resulting name is then looked up with
   * the server accessor's getRTPWorld(name).
   */
  method GetWorld(worlds: Config, granted: string -> bool, current: string) returns (r: Result<string>)
    ensures var ch := WorldChain(worlds, granted);
      r == Chase(ch, current, current, {}) &&
      (r.Ok? ==> !Blocked(ch, r.value)) && (r.Err? ==> r.error == IllegalState)
  {
    r := Follow(WorldChain(worlds, granted), current);
  }

  /**
   * A world the player may use is kept as it is; any other world found is
   * an upper-case name ending in ".YML".
   */
  lemma GetWorldNames(worlds: Config, granted: string -> bool, current: string)
    ensures var ch := WorldChain(worlds, granted);
      var r := Chase(ch, current, current, {});
      (!Blocked(ch, current) ==> r == Ok(current)) &&
      (r.Ok? ==> r.value == current || YmlName(r.value))
  {
    var ch := WorldChain(worlds, granted);
    var r := Chase(ch, current, current, {});
    ChaseStops(ch, current, current, {});
    if r.Ok? && r.value != current {
      var k: nat :| Walk(ch, current, k) == r.value && !Blocked(ch, r.value) && BlockedBefore(ch, current, k);
      WalkYml(ch, current, k);
    }
  }

  /** The unset override "DEFAULT.YML" is looked up as "DEFAULT.YML.YML". */
  lemma DefaultOverrideName()
    ensures Apply(UpperYml, "DEFAULT.YML") == "DEFAULT.YML" + ".YML"
  {
    UpperDefault();
    AppendYml("DEFAULT.YML");
  }

  /** An upper-case name longer than ".YML" only gains the suffix. */
  lemma AppendYml(s: string)
    requires Upper(s) == s && |s| > 4
    ensures Apply(UpperYml, s) == s + ".YML"
  {
    assert |s| != |".YML"|;
  }

  /** "DEFAULT.YML" has no lower-case letter to change. */
  lemma UpperDefault()
    ensures Upper("DEFAULT.YML") == "DEFAULT.YML"
  {
    var s := "DEFAULT.YML";
    assert forall i :: 0 <= i < |s| ==> !('a' <= s[i] <= 'z') by {
      forall i | 0 <= i < |s| ensures !('a' <= s[i] <= 'z') {
        assert s[i] in "DEFAULT.YML";
      }
    }
    UpperFixed(s);
  }
}
