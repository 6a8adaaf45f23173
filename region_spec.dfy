/**
 * The values a region's cache works with, and the pure specifications of
 * its queue operations: the chunk requests kept for a cached location, the
 * keep counts of the chunk sets, the matching of waiting players to cached
 * locations, and the picks of getLocation(sender, player, biomes) from the
 * personal and the public queue.
 */
module RegionSpec {
  import opened Common
  import opened Selection

  /** A cached selection: the location and the number of attempts it took. */
  datatype Entry = Entry(loc: Location, attempts: int)

  /** A returned pair: a location or null, and the number of attempts. */
  datatype Pair = Pair(loc: Option<Location>, attempts: int)

  function PairOf(e: Entry): Pair
  {
    Pair(Some(e.loc), e.attempts)
  }

  /** A fast-queue future: not yet completed, or completed with an entry. */
  datatype Future = Pending | Done(entry: Entry)

  /** A Cache task: one for the public queue, or one for a player. */
  datatype CacheTask = CacheTask(player: Option<Uuid>)

  /**
   * The chunk requests kept loaded for a cached location. `id` names the set
   * (two calls of chunks() never share one); `completion` is how its load
   * future ends: Some(b) when it completes with b, None while it does not.
   */
  datatype ChunkSet = ChunkSet(id: nat, chunks: seq<ChunkPos>, completion: Option<bool>)

  /** `n` copies of `x`. */
  function Repeat<T>(x: T, n: nat): (r: seq<T>)
    ensures |r| == n && forall k :: 0 <= k < n ==> r[k] == x
  {
    seq(n, _ => x)
  }

  // ---------------------------------------------------------------------
  // Keep counts

  /** Some stored chunk set has this id. */
  ghost predicate Stored(sets: map<Location, ChunkSet>, id: nat)
  {
    exists l :: l in sets && sets[l].id == id
  }

  /**
   * The keep counts balance: every chunk set a region made has an entry in
   * `keeps`, the sets still stored have distinct ids, and a set is kept
   * once while stored and released exactly once when it is dropped.
   */
  ghost predicate Balanced(keeps: seq<int>, sets: map<Location, ChunkSet>)
  {
    (forall l :: l in sets ==> sets[l].id < |keeps|) &&
    (forall l, l' :: l in sets && l' in sets && l != l' ==> sets[l].id != sets[l'].id) &&
    (forall id :: 0 <= id < |keeps| ==> keeps[id] == if Stored(sets, id) then 1 else 0)
  }

  /** Releasing the set stored at `l` and removing it keeps the balance. */
  lemma ReleaseBalanced(keeps: seq<int>, sets: map<Location, ChunkSet>, l: Location)
    requires Balanced(keeps, sets) && l in sets
    ensures sets[l].id < |keeps|
    ensures Balanced(keeps[sets[l].id := keeps[sets[l].id] - 1], sets - {l})
  {
    var id := sets[l].id;
    var keeps' := keeps[id := keeps[id] - 1];
    var sets' := sets - {l};
    assert Stored(sets, id);
    forall j | 0 <= j < |keeps'|
      ensures keeps'[j] == if Stored(sets', j) then 1 else 0
    {
      if j != id {
        if Stored(sets, j) {
          var l' :| l' in sets && sets[l'].id == j;
          assert l' != l;
          assert l' in sets' && sets'[l'].id == j;
        }
      }
    }
  }

  /** Storing a freshly kept set under a free location keeps the balance. */
  lemma AddBalanced(keeps: seq<int>, sets: map<Location, ChunkSet>, l: Location, cs: seq<ChunkPos>, c: Option<bool>)
    requires Balanced(keeps, sets) && l !in sets
    ensures Balanced(keeps + [1], sets[l := ChunkSet(|keeps|, cs, c)])
  {
    var sets' := sets[l := ChunkSet(|keeps|, cs, c)];
    var keeps' := keeps + [1];
    forall j | 0 <= j < |keeps'|
      ensures keeps'[j] == if Stored(sets', j) then 1 else 0
    {
      if j == |keeps| {
        assert sets'[l].id == j;
      } else {
        assert keeps'[j] == keeps[j];
        if Stored(sets', j) {
          var l' :| l' in sets' && sets'[l'].id == j;
          assert l' != l;
          assert Stored(sets, j);
        }
        if Stored(sets, j) {
          var l' :| l' in sets && sets[l'].id == j;
          assert sets'[l'].id == j;
        }
      }
    }
  }

  /** With nothing stored, every set a region made has been released. */
  lemma EmptyBalanced(keeps: seq<int>)
    requires Balanced(keeps, map[])
    ensures forall id :: 0 <= id < |keeps| ==> keeps[id] == 0
  {
  }

  // ---------------------------------------------------------------------
  // The chunk requests of chunks(location, radius)

  /** The number of chunks chunks() wants for a radius: (2r + 1)^2. */
  function Wanted(radius: int): int
  {
    (2 * radius + 1) * (2 * radius + 1)
  }

  /** Row x of the request grid: chunks (x, cz - r) .. (x, cz - r + n - 1). */
  function Row(x: int, cz: int, r: int, n: nat): (row: seq<ChunkPos>)
    ensures |row| == n
  {
    seq(n, k => ChunkPos(x, cz - r + k))
  }

  /** The first m rows of the request grid, each row 2r + 1 chunks long. */
  function Grid(cx: int, cz: int, r: int, m: nat): seq<ChunkPos>
    requires r >= 0
    decreases m
  {
    if m == 0 then [] else Grid(cx, cz, r, m - 1) + Row(cx - r + m - 1, cz, r, 2 * r + 1)
  }

  /** The requests chunks() makes around chunk (cx, cz); none for a negative radius. */
  function Requests(cx: int, cz: int, r: int): seq<ChunkPos>
  {
    if r < 0 then [] else Grid(cx, cz, r, 2 * r + 1)
  }

  lemma {:induction false} GridShape(cx: int, cz: int, r: int, m: nat)
    requires r >= 0
    ensures |Grid(cx, cz, r, m)| == m * (2 * r + 1)
    ensures forall p :: p in Grid(cx, cz, r, m) <==>
              cx - r <= p.x < cx - r + m && cz - r <= p.z <= cz + r
    decreases m
  {
    if m > 0 {
      GridShape(cx, cz, r, m - 1);
      var row := Row(cx - r + m - 1, cz, r, 2 * r + 1);
      forall p: ChunkPos | p.x == cx - r + m - 1 && cz - r <= p.z <= cz + r
        ensures p in row
      {
        assert row[p.z - (cz - r)] == p;
      }
    }
  }

  /**
   * chunks() asks for exactly the (2r + 1)^2 chunks of the square of radius
   * r around (cx, cz), or for none when r is negative.
   */
  lemma RequestsCover(cx: int, cz: int, r: int)
    ensures r >= 0 ==> |Requests(cx, cz, r)| == Wanted(r)
    ensures r < 0 ==> Requests(cx, cz, r) == []
    ensures forall p :: p in Requests(cx, cz, r) <==> Abs(p.x - cx) <= r && Abs(p.z - cz) <= r
  {
    if r >= 0 {
      GridShape(cx, cz, r, 2 * r + 1);
    }
  }

  /**
   * A set made for a negative radius holds no chunk while (2r + 1)^2 is
   * positive, so chunks() never reuses it.
   */
  lemma NegativeRadiusNeverReused(cx: int, cz: int, r: int)
    requires r < 0
    ensures |Requests(cx, cz, r)| < Wanted(r)
  {
    var w := 2 * r + 1;
    assert w <= -1;
    assert w * w >= 1 by {
      assert w * w == (-w) * (-w);
    }
  }

  // ---------------------------------------------------------------------
  // Matching waiting players to cached locations (execute)

  /**
   * How a polled waiting player is handled: their teleport data is missing
   * or already completed, they are offline, or they are online.
   */
  datatype Waiting = Stale | Offline | Online

  datatype Matched = Matched(pairs: seq<(Uuid, Entry)>, locations: seq<Entry>, players: seq<Uuid>)

  /**
   * The matching loop of execute: while both queues are non-empty, poll a
   * player; a stale player ends the loop, an offline one is dropped, and an
   * online one gets the next cached location.
   */
  function Match(locations: seq<Entry>, players: seq<Uuid>, status: Uuid -> Waiting): (m: Matched)
    decreases |players|
  {
    if locations == [] || players == [] then Matched([], locations, players)
    else match status(players[0])
      case Stale => Matched([], locations, players[1..])
      case Offline => Match(locations, players[1..], status)
      case Online =>
        var rest := Match(locations[1..], players[1..], status);
        Matched([(players[0], locations[0])] + rest.pairs, rest.locations, rest.players)
  }

  /**
   * When no waiting player is stale, matching stops only once the cache or
   * the player queue is empty.
   */
  lemma {:induction false} MatchDrains(locations: seq<Entry>, players: seq<Uuid>, status: Uuid -> Waiting)
    ensures var m := Match(locations, players, status);
      (forall k :: 0 <= k < |players| ==> status(players[k]) != Stale) ==> m.locations == [] || m.players == []
    decreases |players|
  {
    if locations != [] && players != [] && status(players[0]) != Stale {
      if status(players[0]) == Offline {
        MatchDrains(locations, players[1..], status);
      } else {
        MatchDrains(locations[1..], players[1..], status);
      }
    }
  }

  /** The online players of a list, in order. */
  function OnlineOf(players: seq<Uuid>, status: Uuid -> Waiting): seq<Uuid>
    decreases |players|
  {
    if players == [] then []
    else (if status(players[0]) == Online then [players[0]] else []) + OnlineOf(players[1..], status)
  }

  function Firsts(pairs: seq<(Uuid, Entry)>): (r: seq<Uuid>)
    ensures |r| == |pairs| && forall k :: 0 <= k < |pairs| ==> r[k] == pairs[k].0
  {
    seq(|pairs|, k requires 0 <= k < |pairs| => pairs[k].0)
  }

  /**
   * Matching is first come, first served: the k-th matched player gets the
   * k-th cached location and is online, the locations left are those after
   * the matched ones, and the players left are a suffix of the waiting queue.
   */
  lemma {:induction false} MatchFifo(locations: seq<Entry>, players: seq<Uuid>, status: Uuid -> Waiting)
    ensures var m := Match(locations, players, status);
      |m.pairs| <= |locations| && |m.pairs| <= |players| &&
      (forall k :: 0 <= k < |m.pairs| ==> m.pairs[k].1 == locations[k] && status(m.pairs[k].0) == Online) &&
      m.locations == locations[|m.pairs|..] &&
      |m.players| <= |players| && m.players == players[|players| - |m.players|..]
    decreases |players|
  {
    if locations != [] && players != [] {
      match status(players[0])
      case Stale =>
      case Offline =>
        MatchFifo(locations, players[1..], status);
        var m := Match(locations, players[1..], status);
        assert players[1..][|players[1..]| - |m.players|..] == players[|players| - |m.players|..];
      case Online =>
        var m := Match(locations, players, status);
        var rest := Match(locations[1..], players[1..], status);
        MatchFifo(locations[1..], players[1..], status);
        assert m.pairs == [(players[0], locations[0])] + rest.pairs;
        forall k | 0 <= k < |m.pairs|
          ensures m.pairs[k].1 == locations[k] && status(m.pairs[k].0) == Online
        {
          if k > 0 {
            assert m.pairs[k] == rest.pairs[k - 1];
          }
        }
        assert locations[1..][|rest.pairs|..] == locations[|m.pairs|..];
        assert players[1..][|players[1..]| - |rest.players|..] == players[|players| - |m.players|..];
    }
  }

  /**
   * The matched players are exactly the online players among those polled
   * from the waiting queue, in their order in the queue.
   */
  lemma {:induction false} MatchInOrder(locations: seq<Entry>, players: seq<Uuid>, status: Uuid -> Waiting)
    ensures var m := Match(locations, players, status);
      |m.players| <= |players| &&
      Firsts(m.pairs) == OnlineOf(players[..|players| - |m.players|], status)
    decreases |players|
  {
    var m := Match(locations, players, status);
    if locations == [] || players == [] {
      assert players[..|players| - |m.players|] == [];
    } else if status(players[0]) == Stale {
      assert players[..|players| - |m.players|] == [players[0]];
      assert OnlineOf([players[0]], status) == [] + OnlineOf([], status);
    } else {
      var locs := if status(players[0]) == Online then locations[1..] else locations;
      var rest := Match(locs, players[1..], status);
      MatchInOrder(locs, players[1..], status);
      var n := |players| - |m.players|;
      assert m.players == rest.players;
      var polled := players[..n];
      assert polled[0] == players[0] && polled[1..] == players[1..][..|players[1..]| - |rest.players|];
      if status(players[0]) == Online {
        assert m.pairs == [(players[0], locations[0])] + rest.pairs;
        assert Firsts(m.pairs) == [players[0]] + Firsts(rest.pairs);
      } else {
        assert m.pairs == rest.pairs;
      }
    }
  }

  // ---------------------------------------------------------------------
  // The picks of getLocation(sender, player, biomes)

  /** How a walk through a queue ends. */
  datatype Pick =
    | Picked(entry: Entry, rest: seq<Entry>)       // an entry passed and is returned
    | Broke(rest: seq<Entry>)                      // a chunk was null or failed: the method returns null
    | Emptied(last: Option<Entry>)                 // the queue ran out; the last polled entry, if any

  /** The chunk holding a block position, as getLocation(sender, ...) computes it. */
  function HomeChunk(loc: Location): ChunkPos
  {
    ChunkPos(ChunkMath.ChunkIndex(loc.x), ChunkMath.ChunkIndex(loc.z))
  }

  /** How one polled entry of a player's own queue fares when it is checked again. */
  datatype Recheck = Skip | Abort | Keep

  /**
   * The entry's chunk is fetched: a failed future skips the entry, a null
   * chunk aborts; a loaded chunk is scanned around the entry, where a
   * failed fetch aborts and a safe scan with no rejecting verifier keeps it.
   */
  function RecheckOf(t: Terrain, sc: Scope, e: Entry): (c: Recheck)
    ensures c == Keep <==>
              t.load(HomeChunk(e.loc)) == Loaded && Scan(t, sc, HomeChunk(e.loc), e.loc) == Safe &&
              Accepts(t.verifiers, e.loc)
    ensures c == Abort <==>
              t.load(HomeChunk(e.loc)) == NullChunk ||
              (t.load(HomeChunk(e.loc)) == Loaded && Scan(t, sc, HomeChunk(e.loc), e.loc) == ScanLoadFailed)
  {
    var home := HomeChunk(e.loc);
    match t.load(home)
    case LoadFailed => Skip
    case NullChunk => Abort
    case Loaded =>
      var scan := Scan(t, sc, home, e.loc);
      if scan == ScanLoadFailed then Abort
      else if scan == Safe && Accepts(t.verifiers, e.loc) then Keep
      else Skip
  }

  /**
   * The walk through a player's own queue: every polled entry is checked
   * again; skipped ones are passed over, an abort ends the walk, and the
   * first kept entry is returned.
   */
  function PersonalPick(t: Terrain, sc: Scope, q: seq<Entry>, last: Option<Entry>): Pick
    decreases |q|
  {
    if q == [] then Emptied(last)
    else
      match RecheckOf(t, sc, q[0])
      case Skip => PersonalPick(t, sc, q[1..], Some(q[0]))
      case Abort => Broke(q[1..])
      case Keep => Picked(q[0], q[1..])
  }

  /** The walk through the public queue: the first entry no verifier rejects. */
  function PublicPick(vs: seq<Location -> Verdict>, q: seq<Entry>, last: Option<Entry>): (p: Pick)
    ensures !p.Broke?
    decreases |q|
  {
    if q == [] then Emptied(last)
    else if Accepts(vs, q[0].loc) then Picked(q[0], q[1..])
    else PublicPick(vs, q[1..], Some(q[0]))
  }

  /**
   * A personal pick returns an entry of the queue that loads, passes the
   * safety scan around itself and every verifier, and leaves the queue
   * holding what follows it.
   */
  lemma {:induction false} PersonalPickSound(t: Terrain, sc: Scope, q: seq<Entry>, last: Option<Entry>)
    ensures var p := PersonalPick(t, sc, q, last);
      p.Picked? ==>
        |p.rest| < |q| && q[|q| - |p.rest| - 1] == p.entry && p.rest == q[|q| - |p.rest|..] &&
        t.load(HomeChunk(p.entry.loc)) == Loaded &&
        Scan(t, sc, HomeChunk(p.entry.loc), p.entry.loc) == Safe && Accepts(t.verifiers, p.entry.loc)
    decreases |q|
  {
    if q != [] {
      PersonalPickSound(t, sc, q[1..], Some(q[0]));
      var p := PersonalPick(t, sc, q, last);
      if p.Picked? && p != Picked(q[0], q[1..]) {
        assert p == PersonalPick(t, sc, q[1..], Some(q[0]));
        assert p.rest == q[1..][|q[1..]| - |p.rest|..];
        assert q[|q| - |p.rest| - 1] == q[1..][|q[1..]| - |p.rest| - 1];
      }
    }
  }

  /**
   * An aborted personal pick leaves a proper suffix of the queue, and a pick
   * that runs out reports the last entry of the queue as the last one polled.
   */
  lemma {:induction false} PersonalPickRest(t: Terrain, sc: Scope, q: seq<Entry>, last: Option<Entry>)
    ensures var p := PersonalPick(t, sc, q, last);
      (p.Broke? ==> |p.rest| < |q| && p.rest == q[|q| - |p.rest|..]) &&
      (p.Emptied? ==> (q == [] && p.last == last) || (q != [] && p.last == Some(q[|q| - 1])))
    decreases |q|
  {
    if q != [] {
      PersonalPickRest(t, sc, q[1..], Some(q[0]));
      var p := PersonalPick(t, sc, q, last);
      if p.Broke? && p != Broke(q[1..]) {
        assert p == PersonalPick(t, sc, q[1..], Some(q[0]));
        assert p.rest == q[1..][|q[1..]| - |p.rest|..];
      }
      if p.Emptied? && q[1..] != [] {
        assert q[1..][|q[1..]| - 1] == q[|q| - 1];
      }
    }
  }

  /**
   * The public pick returns the first entry of the queue that no verifier
   * rejects, after dropping every entry before it, all of which were
   * rejected; when no entry passes, the queue is used up.
   */
  lemma {:induction false} PublicPickFirst(vs: seq<Location -> Verdict>, q: seq<Entry>, last: Option<Entry>)
    ensures var p := PublicPick(vs, q, last);
      !p.Broke? &&
      (p.Picked? ==>
        var k := |q| - |p.rest| - 1;
        0 <= k && q[k] == p.entry && p.rest == q[k + 1..] && Accepts(vs, p.entry.loc) &&
        forall j :: 0 <= j < k ==> !Accepts(vs, q[j].loc)) &&
      (p.Emptied? ==> (forall j :: 0 <= j < |q| ==> !Accepts(vs, q[j].loc)) &&
                      ((q == [] && p.last == last) || (q != [] && p.last == Some(q[|q| - 1]))))
    decreases |q|
  {
    if q != [] && !Accepts(vs, q[0].loc) {
      PublicPickFirst(vs, q[1..], Some(q[0]));
      var p := PublicPick(vs, q[1..], Some(q[0]));
      if p.Picked? {
        var k := |q| - |p.rest| - 1;
        assert q[1..][k - 1] == q[k];
        assert q[1..][k..] == q[k + 1..];
        forall j | 0 <= j < k
          ensures !Accepts(vs, q[j].loc)
        {
          if j > 0 {
            assert q[j] == q[1..][j - 1];
          }
        }
      }
      if p.Emptied? {
        forall j | 0 <= j < |q|
          ensures !Accepts(vs, q[j].loc)
        {
          if j > 0 {
            assert q[j] == q[1..][j - 1];
          }
        }
        if q[1..] != [] {
          assert q[1..][|q[1..]| - 1] == q[|q| - 1];
        }
      }
    }
  }
}
