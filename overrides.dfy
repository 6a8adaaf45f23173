/**
 * Permission override chains. A world (or region) configuration may
 * require a permission; a player without it is sent on to the configured
 * override, and so on, until a world the player may use is reached. A name
 * met twice is an infinite override loop (IllegalStateException).
 */
module Overrides {
  import opened Common

  /**
   * One configuration as the chain reads it: the text of its
   * requirePermission value (false when unset), its override name and its
   * region name (each already defaulted when unset).
   */
  datatype Node = Node(requirePermission: string, override: string, region: string)

  /**
   * The configurations by name; `fallback` is what the parser lookup
   * gives for a name with no configuration of its own.
   */
  datatype Config = Config(nodes: map<string, Node>, fallback: Node)

  /** How an override name is turned into the next name looked up. */
  datatype Step = Verbatim | UpperYml

  function NodeOf(c: Config, name: string): Node
  {
    if name in c.nodes then c.nodes[name] else c.fallback
  }

  /**
   * RTP.getWorld upper-cases the override and appends ".YML" unless the
   * result is exactly ".YML"; the region lookups use the override as it is.
   */
  function Apply(step: Step, override: string): (name: string)
    ensures step == UpperYml && Upper(override) == ".YML" ==> name == ".YML"
    ensures step == UpperYml && Upper(override) != ".YML" ==>
              |name| == |override| + 4 && name[..|override|] == Upper(override) && name[|override|..] == ".YML"
    ensures step == Verbatim ==> name == override
  {
    match step
    case Verbatim => override
    case UpperYml =>
      var u := Upper(override);
      if u == ".YML" then u else u + ".YML"
  }

  /**
   * One override chain: the configurations, how overrides are stepped, the
   * permission prefix ("rtp.worlds." or "rtp.regions.") and the
   * permissions the player holds.
   */
  datatype Chain = Chain(config: Config, step: Step, prefix: string, granted: string -> bool)

  /** The player may not use `name`: it requires a permission the player lacks. */
  predicate Blocked(ch: Chain, name: string)
  {
    ParseBoolean(NodeOf(ch.config, name).requirePermission) && !ch.granted(ch.prefix + name)
  }

  function Next(ch: Chain, name: string): string
  {
    Apply(ch.step, NodeOf(ch.config, name).override)
  }

  /** Every name a chain from `start` can visit: the start and the stepped overrides. */
  ghost function Candidates(ch: Chain, start: string): set<string>
  {
    {start} + {Apply(ch.step, ch.config.fallback.override)} +
      set n | n in ch.config.nodes.Values :: Apply(ch.step, n.override)
  }

  lemma NextIsCandidate(ch: Chain, start: string, name: string)
    ensures Next(ch, name) in Candidates(ch, start)
  {
    if name in ch.config.nodes {
      assert ch.config.nodes[name] in ch.config.nodes.Values;
    }
  }

  /**
   * The chain from `name`, with the names already attempted: the first
   * name the player may use, or IllegalStateException at a name met again.
   */
  ghost function Chase(ch: Chain, start: string, name: string, attempted: set<string>): Result<string>
    requires name in Candidates(ch, start) && attempted <= Candidates(ch, start)
    decreases |Candidates(ch, start) - attempted|
  {
    if !Blocked(ch, name) then Ok(name)
    else if name in attempted then Err(IllegalState)
    else
      NextIsCandidate(ch, start, name);
      assert Candidates(ch, start) - (attempted + {name}) < Candidates(ch, start) - attempted;
      Chase(ch, start, Next(ch, name), attempted + {name})
  }

  /** The k-th name of the chain from `name`. */
  function Walk(ch: Chain, name: string, k: nat): string
    decreases k
  {
    if k == 0 then name else Walk(ch, Next(ch, name), k - 1)
  }

  /** The first k names of the walk are all blocked. */
  ghost predicate BlockedBefore(ch: Chain, name: string, k: nat)
  {
    forall j: nat :: j < k ==> Blocked(ch, Walk(ch, name, j))
  }

  /** The k-th name of the walk was attempted already or met earlier in the walk. */
  ghost predicate Repeated(ch: Chain, name: string, k: nat, attempted: set<string>)
  {
    Walk(ch, name, k) in attempted || exists j: nat :: j < k && Walk(ch, name, j) == Walk(ch, name, k)
  }

  lemma BlockedBeforeShift(ch: Chain, name: string, k: nat)
    requires Blocked(ch, name) && BlockedBefore(ch, Next(ch, name), k)
    ensures BlockedBefore(ch, name, k + 1)
  {
    forall j: nat | j < k + 1
      ensures Blocked(ch, Walk(ch, name, j))
    {
      if j > 0 {
        assert Walk(ch, name, j) == Walk(ch, Next(ch, name), j - 1);
      }
    }
  }

  lemma RepeatedShift(ch: Chain, name: string, k: nat, attempted: set<string>)
    requires Repeated(ch, Next(ch, name), k, attempted + {name})
    ensures Repeated(ch, name, k + 1, attempted)
  {
    var next := Next(ch, name);
    assert Walk(ch, name, k + 1) == Walk(ch, next, k);
    if Walk(ch, next, k) in attempted {
    } else if Walk(ch, next, k) == name {
      assert Walk(ch, name, 0) == Walk(ch, name, k + 1);
    } else {
      var j: nat :| j < k && Walk(ch, next, j) == Walk(ch, next, k);
      assert Walk(ch, name, j + 1) == Walk(ch, next, j);
    }
  }

  /** A chain that ends in a name stops at the first name of its walk the player may use. */
  lemma {:induction false} ChaseStops(ch: Chain, start: string, name: string, attempted: set<string>)
    requires name in Candidates(ch, start) && attempted <= Candidates(ch, start)
    ensures var r := Chase(ch, start, name, attempted);
      r.Ok? ==> exists k: nat :: Walk(ch, name, k) == r.value && !Blocked(ch, r.value) && BlockedBefore(ch, name, k)
    decreases |Candidates(ch, start) - attempted|
  {
    var r := Chase(ch, start, name, attempted);
    if !Blocked(ch, name) {
      assert Walk(ch, name, 0) == r.value && BlockedBefore(ch, name, 0);
    } else if name !in attempted && r.Ok? {
      var next := Next(ch, name);
      NextIsCandidate(ch, start, name);
      assert Candidates(ch, start) - (attempted + {name}) < Candidates(ch, start) - attempted;
      ChaseStops(ch, start, next, attempted + {name});
      var k: nat :| Walk(ch, next, k) == r.value && !Blocked(ch, r.value) && BlockedBefore(ch, next, k);
      BlockedBeforeShift(ch, name, k);
      assert Walk(ch, name, k + 1) == r.value;
    }
  }

  /** A chain that fails met a name again while every name so far was blocked. */
  lemma {:induction false} ChaseLoops(ch: Chain, start: string, name: string, attempted: set<string>)
    requires name in Candidates(ch, start) && attempted <= Candidates(ch, start)
    ensures var r := Chase(ch, start, name, attempted);
      r.Err? ==> r.error == IllegalState &&
                 exists k: nat :: BlockedBefore(ch, name, k + 1) && Repeated(ch, name, k, attempted)
    decreases |Candidates(ch, start) - attempted|
  {
    var r := Chase(ch, start, name, attempted);
    if Blocked(ch, name) && name in attempted {
      assert BlockedBefore(ch, name, 1) && Repeated(ch, name, 0, attempted);
    } else if Blocked(ch, name) && r.Err? {
      var next := Next(ch, name);
      NextIsCandidate(ch, start, name);
      assert Candidates(ch, start) - (attempted + {name}) < Candidates(ch, start) - attempted;
      ChaseLoops(ch, start, next, attempted + {name});
      var k: nat :| BlockedBefore(ch, next, k + 1) && Repeated(ch, next, k, attempted + {name});
      BlockedBeforeShift(ch, name, k + 1);
      RepeatedShift(ch, name, k, attempted);
    }
  }

  /** A start the player may use is the chain's result, unchanged. */
  lemma ChaseUnblocked(ch: Chain, start: string)
    requires !Blocked(ch, start)
    ensures Chase(ch, start, start, {}) == Ok(start)
  {
  }

  /**
   * The override loop: while the current name is blocked, a name met
   * before aborts; otherwise it is recorded and its override followed.
   */
  method Follow(ch: Chain, start: string) returns (r: Result<string>)
    ensures r == Chase(ch, start, start, {})
    ensures r.Ok? ==> !Blocked(ch, r.value)
    ensures r.Err? ==> r.error == IllegalState
  {
    ghost var goal := Chase(ch, start, start, {});
    var name := start;
    var attempted: set<string> := {};
    while Blocked(ch, name)
      invariant name in Candidates(ch, start) && attempted <= Candidates(ch, start)
      invariant Chase(ch, start, name, attempted) == goal
      decreases |Candidates(ch, start) - attempted|
    {
      if name in attempted {
        return Err(IllegalState);
      }
      NextIsCandidate(ch, start, name);
      assert Candidates(ch, start) - (attempted + {name}) < Candidates(ch, start) - attempted;
      attempted := attempted + {name};
      name := Next(ch, name);
    }
    r := Ok(name);
  }
}
