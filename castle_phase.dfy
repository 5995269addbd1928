/**
 * The castle-conversion rule phase: after a tile is placed, every player who
 * owns a two-segment castle-base city on it, and still has castles left, is
 * offered in seating order (from the turn player, wrapping around) the chance
 * to turn those cities into castles.
 */
module CastlePhase {
  import opened Wrappers
  import opened CastleVisitor

  datatype Location = Location(mask: nat)
  datatype Position = Position(x: int, y: int)
  datatype FeaturePointer = FeaturePointer(position: Position, location: Location)

  /**
   * A feature of the placed tile: a city, with the segments `Feature.walk`
   * visits from it in walk order, or any other kind of feature.
   */
  datatype Feature = City(location: Location, region: seq<CitySegment>) | OtherFeature(location: Location)

  datatype Tile = Tile(position: Position, features: seq<Feature>)

  /** `SelectActionEvent(player, action, passAllowed)` posted to the game. */
  datatype Event = SelectAction(player: PlayerId, options: set<FeaturePointer>, passAllowed: bool)

  /** The capability's per-tile scratch map: qualifying city locations per player. */
  type CastleBases = map<PlayerId, set<Location>>

  /** Number of seats from `from` forward to `to`, wrapping past seat n-1 to seat 0. */
  function Dist(from: nat, to: nat, n: nat): (d: nat)
    requires from < n && to < n
    ensures d < n
  {
    if from <= to then to - from else to + n - from
  }

  /** The seat `d` places after `from`, wrapping around. */
  function Seat(from: nat, d: nat, n: nat): (s: nat)
    requires from < n && d < n
    ensures s < n && Dist(from, s, n) == d
  {
    if from + d < n then from + d else from + d - n
  }

  /**
   * `p` is the first seat at or after `turn`, in seating order and wrapping
   * around, that holds an entry in `bases`.
   */
  ghost predicate IsFirstEligible(bases: CastleBases, turn: nat, n: nat, p: nat)
    requires turn < n
  {
    p < n && p in bases && forall d | 0 <= d < Dist(turn, p, n) :: Seat(turn, d, n) !in bases
  }

  /** The wrap-around choice is unique: at most one seat is the first eligible one. */
  lemma FirstEligibleUnique(bases: CastleBases, turn: nat, n: nat, p: nat, q: nat)
    requires turn < n
    requires IsFirstEligible(bases, turn, n, p) && IsFirstEligible(bases, turn, n, q)
    ensures p == q
  {
    assert Seat(turn, Dist(turn, p, n), n) == p;
    assert Seat(turn, Dist(turn, q, n), n) == q;
  }

  /** The turn player is chosen whenever it has an entry of its own. */
  lemma TurnPlayerFirst(bases: CastleBases, turn: nat, n: nat, p: nat)
    requires turn < n && turn in bases
    requires IsFirstEligible(bases, turn, n, p)
    ensures p == turn
  {
    assert IsFirstEligible(bases, turn, n, turn);
    FirstEligibleUnique(bases, turn, n, p, turn);
  }

  /** Castles player `p` has left; every seated player has an entry in the capability. */
  function CastlesOf(castles: map<PlayerId, nat>, p: PlayerId): nat
  {
    if p in castles then castles[p] else 0
  }

  /** Feature `f` is a city of `p`'s that the scan keeps: a castle base owned by `p`, who has castles left. */
  ghost predicate Qualifies(f: Feature, castles: map<PlayerId, nat>, p: PlayerId)
  {
    f.City? && CastleBaseOwner(f.region) == Some(p) && CastlesOf(castles, p) != 0
  }

  /** One step of `enter`'s scan: a qualifying city adds its location to its owner's set. */
  function ScanFeature(bases: CastleBases, f: Feature, castles: map<PlayerId, nat>): CastleBases
  {
    if !f.City? then bases
    else
      var owner := CastleBaseOwner(f.region);
      if owner.None? || CastlesOf(castles, owner.value) == 0 then bases
      else bases[owner.value := (if owner.value in bases then bases[owner.value] else {}) + {f.location}]
  }

  /** The map `enter` builds from the tile's features, in feature order. */
  function ScanTile(features: seq<Feature>, castles: map<PlayerId, nat>): CastleBases
  {
    if features == [] then map[]
    else ScanFeature(ScanTile(features[..|features| - 1], castles), features[|features| - 1], castles)
  }

  /**
   * The scan keeps exactly the qualifying cities: location `l` is in `p`'s set
   * iff some feature of the tile is a qualifying city of `p`'s at `l`; and no
   * player's set is empty.
   */
  lemma {:induction false} ScanTileExact(features: seq<Feature>, castles: map<PlayerId, nat>, p: PlayerId, l: Location)
    ensures p in ScanTile(features, castles) ==> ScanTile(features, castles)[p] != {}
    ensures (p in ScanTile(features, castles) && l in ScanTile(features, castles)[p])
            <==> exists k | 0 <= k < |features| :: Qualifies(features[k], castles, p) && features[k].location == l
    decreases |features|
  {
    if features != [] {
      var init := features[..|features| - 1];
      var last := features[|features| - 1];
      ScanTileExact(init, castles, p, l);
      if exists k | 0 <= k < |init| :: Qualifies(init[k], castles, p) && init[k].location == l {
        var k :| 0 <= k < |init| && Qualifies(init[k], castles, p) && init[k].location == l;
        assert features[k] == init[k];
      }
      if exists k | 0 <= k < |features| :: Qualifies(features[k], castles, p) && features[k].location == l {
        var k :| 0 <= k < |features| && Qualifies(features[k], castles, p) && features[k].location == l;
        if k < |init| {
          assert init[k] == features[k];
        }
      }
    }
  }

  /** Every key of the scanned map is a player with castles left, and it is empty iff no city qualifies. */
  lemma ScanTileKeys(features: seq<Feature>, castles: map<PlayerId, nat>)
    ensures forall p | p in ScanTile(features, castles) :: CastlesOf(castles, p) > 0
    ensures ScanTile(features, castles) == map[]
            <==> forall k, p | 0 <= k < |features| :: !Qualifies(features[k], castles, p)
  {
    var m := ScanTile(features, castles);
    forall p | p in m ensures CastlesOf(castles, p) > 0 {
      ScanTileExact(features, castles, p, Location(0));
      var l :| l in m[p];
      ScanTileExact(features, castles, p, l);
    }
    if m != map[] {
      var p :| p in m;
      ScanTileExact(features, castles, p, Location(0));
      var l :| l in m[p];
      ScanTileExact(features, castles, p, l);
    }
    forall k, p | 0 <= k < |features| && Qualifies(features[k], castles, p) ensures m != map[] {
      ScanTileExact(features, castles, p, features[k].location);
    }
  }

  /** After one consumption step the map has one entry fewer: the self-loop of the phase terminates. */
  lemma ConsumeShrinks(bases: CastleBases, p: PlayerId)
    requires p in bases
    ensures |bases - {p}| == |bases| - 1
  {
    assert (bases - {p}).Keys == bases.Keys - {p};
  }

  /** The options offered for a set of locations of the tile at `position`. */
  function Offer(position: Position, locs: set<Location>): set<FeaturePointer>
  {
    set l | l in locs :: FeaturePointer(position, l)
  }

  /**
   * The loop of `enter` over the tile's features: a qualifying city's location
   * is added to its owner's set, the map being created at the first one.
   */
  method ScanCastleBases(features: seq<Feature>, castles: map<PlayerId, nat>) returns (bases: Option<CastleBases>)
    ensures bases == if ScanTile(features, castles) == map[] then None else Some(ScanTile(features, castles))
  {
    bases := None;
    var i := 0;
    while i < |features|
      invariant 0 <= i <= |features|
      invariant bases == if ScanTile(features[..i], castles) == map[] then None else Some(ScanTile(features[..i], castles))
    {
      assert features[..i + 1][..i] == features[..i];
      var f := features[i];
      if f.City? {
        var owner, _ := FindCastleBase(f.region);
        if owner.Some? && CastlesOf(castles, owner.value) != 0 {
          if bases.None? {
            bases := Some(map[]);
          }
          var locs := if owner.value in bases.value then bases.value[owner.value] else {};
          bases := Some(bases.value[owner.value := locs + {f.location}]);
        }
      }
      i := i + 1;
    }
    assert features[..i] == features;
  }

  /** The loop of `prepareCastleAction` that wraps `pi` around the table from the turn player. */
  method FindCastlePlayer(bases: CastleBases, turn: PlayerId, n: nat) returns (pi: PlayerId)
    requires turn < n && bases != map[]
    requires forall p | p in bases :: p < n
    ensures IsFirstEligible(bases, turn, n, pi)
  {
    ghost var k :| k in bases;
    ghost var steps := 0;
    pi := turn;
    while pi !in bases
      invariant pi < n && steps < n && pi == Seat(turn, steps, n)
      invariant forall d | 0 <= d < steps :: Seat(turn, d, n) !in bases
      invariant steps + Dist(pi, k, n) == Dist(turn, k, n)
      decreases Dist(pi, k, n)
    {
      pi := pi + 1;
      if pi == n {
        pi := 0;
      }
      steps := steps + 1;
    }
  }

  /** The `for` loop of `prepareCastleAction` that turns locations into feature pointers at `position`. */
  method BuildCastleAction(position: Position, locs: set<Location>) returns (action: set<FeaturePointer>)
    ensures forall fp :: fp in action <==> fp.position == position && fp.location in locs
  {
    action := {};
    var rest := locs;
    while rest != {}
      invariant rest <= locs
      invariant forall fp :: fp in action <==> fp.position == position && fp.location in locs - rest
      decreases rest
    {
      var l :| l in rest;
      action := action + {FeaturePointer(position, l)};
      rest := rest - {l};
    }
  }

  /** The castle capability: castles left per player and the phase's scratch state. */
  class CastleCapability {
    var castles: map<PlayerId, nat>
    var currentTileCastleBases: Option<CastleBases>
    var castlePlayer: Option<PlayerId>
    /** Cities turned into castles, in order (`convertCityToCastle`). */
    var converted: seq<FeaturePointer>

    constructor (castles: map<PlayerId, nat>)
      ensures this.castles == castles && currentTileCastleBases == None && castlePlayer == None && converted == []
    {
      this.castles := castles;
      currentTileCastleBases := None;
      castlePlayer := None;
      converted := [];
    }
  }

  /** The phase object, over the game state it reads (players, turn player, placed tile). */
  class CastlePhase {
    const castleCap: CastleCapability?
    const playerCount: nat
    var turnPlayer: PlayerId
    var tile: Tile
    /** Events posted to the game, in order. */
    var events: seq<Event>
    /** How many times `next()` handed control to the successor phase. */
    var nextCalls: nat

    constructor (castleCap: CastleCapability?, playerCount: nat, turnPlayer: PlayerId, tile: Tile)
      ensures this.castleCap == castleCap && this.playerCount == playerCount
      ensures this.turnPlayer == turnPlayer && this.tile == tile && events == [] && nextCalls == 0
      ensures && castleCap != null && castleCap.currentTileCastleBases == None && castleCap.castlePlayer == None
              && 0 < playerCount && turnPlayer < playerCount
              && (forall p | 0 <= p < playerCount :: p in castleCap.castles)
              && (forall k | 0 <= k < |tile.features| && tile.features[k].City? :: RegionSeated(tile.features[k].region, playerCount))
              ==> Valid()
    {
      this.castleCap := castleCap;
      this.playerCount := playerCount;
      this.turnPlayer := turnPlayer;
      this.tile := tile;
      events := [];
      nextCalls := 0;
    }

    /** Every figure on every city region of the tile belongs to a seated player. */
    ghost predicate TileSeated()
      reads this
    {
      forall k | 0 <= k < |tile.features| && tile.features[k].City? :: RegionSeated(tile.features[k].region, playerCount)
    }

    /** The scratch map holds only seated players with castles left and non-empty location sets. */
    ghost predicate BasesOk(bases: CastleBases)
      reads this, castleCap
      requires castleCap != null
    {
      forall p | p in bases :: p < playerCount && CastlesOf(castleCap.castles, p) > 0 && bases[p] != {}
    }

    /** The invariant between calls, except what it says about the castle player. */
    ghost predicate Core()
      reads this, castleCap
    {
      && castleCap != null
      && 0 < playerCount && turnPlayer < playerCount
      && TileSeated()
      && (forall p | 0 <= p < playerCount :: p in castleCap.castles)
      && (castleCap.currentTileCastleBases.Some? ==> BasesOk(castleCap.currentTileCastleBases.value))
    }

    /**
     * The invariant between calls: in addition, a castle player is seated, has a
     * castle left, and has had its entry consumed from the (still present) map.
     */
    ghost predicate Valid()
      reads this, castleCap
    {
      && Core()
      && (castleCap.castlePlayer.Some? ==>
            && castleCap.castlePlayer.value < playerCount
            && CastlesOf(castleCap.castles, castleCap.castlePlayer.value) > 0
            && castleCap.currentTileCastleBases.Some?
            && castleCap.castlePlayer.value !in castleCap.currentTileCastleBases.value)
    }

    /** `isActive`: the phase runs only in games with the castle capability. */
    predicate IsActive()
      reads this
    {
      castleCap != null
    }

    /** `getActivePlayer`: the castle player while one is set, otherwise the turn player. */
    function GetActivePlayer(): (p: PlayerId)
      reads this, castleCap
      requires castleCap != null
      ensures castleCap.castlePlayer == Some(p) || (castleCap.castlePlayer == None && p == turnPlayer)
      ensures Valid() ==> p < playerCount
    {
      if castleCap.castlePlayer.Some? then castleCap.castlePlayer.value else turnPlayer
    }

    /**
     * The state `prepareCastleAction` leaves when it starts from map `b`: an
     * empty map clears the castle player and the map and calls `next()`; otherwise
     * the first eligible player from the turn player on becomes the castle player,
     * its entry is removed, and exactly its locations are offered at the tile's
     * position with pass allowed.
     */
    ghost predicate Prepared(b: CastleBases, oldEvents: seq<Event>, oldNextCalls: nat)
      reads this, castleCap
      requires castleCap != null && turnPlayer < playerCount
    {
      if b == map[] then
        && castleCap.castlePlayer == None
        && castleCap.currentTileCastleBases == None
        && GetActivePlayer() == turnPlayer
        && events == oldEvents
        && nextCalls == oldNextCalls + 1
      else
        && castleCap.castlePlayer.Some?
        && var p := castleCap.castlePlayer.value;
        && IsFirstEligible(b, turnPlayer, playerCount, p)
        && GetActivePlayer() == p
        && castleCap.currentTileCastleBases == Some(b - {p})
        && events == oldEvents + [SelectAction(p, Offer(tile.position, b[p]), true)]
        && nextCalls == oldNextCalls
    }

    /** `prepareCastleAction`: offer the next eligible player its castles, or leave the phase. */
    method PrepareCastleAction()
      requires Core() && castleCap.currentTileCastleBases.Some?
      modifies castleCap`currentTileCastleBases, castleCap`castlePlayer, this`events, this`nextCalls
      ensures Valid()
      ensures Prepared(old(castleCap.currentTileCastleBases.value), old(events), old(nextCalls))
      ensures castleCap.currentTileCastleBases.Some? ==>
                |castleCap.currentTileCastleBases.value| == |old(castleCap.currentTileCastleBases.value)| - 1
    {
      var bases := castleCap.currentTileCastleBases.value;
      if bases == map[] {
        castleCap.castlePlayer := None;
        castleCap.currentTileCastleBases := None;
        nextCalls := nextCalls + 1;
        return;
      }
      var pi := FindCastlePlayer(bases, turnPlayer, playerCount);
      castleCap.castlePlayer := Some(pi);
      var locs := bases[pi];
      castleCap.currentTileCastleBases := Some(bases - {pi});
      ConsumeShrinks(bases, pi);
      var action := BuildCastleAction(tile.position, locs);
      assert action == Offer(tile.position, locs);
      events := events + [SelectAction(pi, action, true)];
    }

    /**
     * `enter`: scan the cities of the placed tile. If none qualifies, call
     * `next()` leaving the scratch state as it was and posting nothing; otherwise
     * install the scanned map and prepare the first castle action.
     */
    method Enter()
      requires Valid()
      modifies castleCap`currentTileCastleBases, castleCap`castlePlayer, this`events, this`nextCalls
      ensures Valid()
      ensures var m := ScanTile(tile.features, castleCap.castles);
              if m == map[] then
                && castleCap.currentTileCastleBases == old(castleCap.currentTileCastleBases)
                && castleCap.castlePlayer == old(castleCap.castlePlayer)
                && events == old(events)
                && nextCalls == old(nextCalls) + 1
              else Prepared(m, old(events), old(nextCalls))
    {
      var features := tile.features;
      var castles := castleCap.castles;
      var bases := ScanCastleBases(features, castles);
      if bases.None? {
        nextCalls := nextCalls + 1;
        return;
      }
      ScanTileKeys(features, castles);
      forall p | p in bases.value ensures p < playerCount && bases.value[p] != {} {
        ScanTileExact(features, castles, p, Location(0));
        var l :| l in bases.value[p];
        ScanTileExact(features, castles, p, l);
        var k :| 0 <= k < |features| && Qualifies(features[k], castles, p) && features[k].location == l;
        CastleBaseOwnerSeated(features[k].region, playerCount, p);
      }
      castleCap.currentTileCastleBases := bases;
      PrepareCastleAction();
    }

    /** `pass`: the castle player declines; the next eligible player is looked for. No count changes. */
    method Pass()
      requires Valid() && castleCap.currentTileCastleBases.Some?
      modifies castleCap`currentTileCastleBases, castleCap`castlePlayer, this`events, this`nextCalls
      ensures Valid()
      ensures castleCap.castles == old(castleCap.castles)
      ensures Prepared(old(castleCap.currentTileCastleBases.value), old(events), old(nextCalls))
      ensures castleCap.currentTileCastleBases.Some? ==>
                |castleCap.currentTileCastleBases.value| == |old(castleCap.currentTileCastleBases.value)| - 1
    {
      PrepareCastleAction();
    }

    /**
     * `deployCastle`: the castle player spends one castle on the city at
     * `(pos, loc)`, which is converted; then the next eligible player is looked for.
     */
    method DeployCastle(pos: Position, loc: Location)
      requires Valid() && castleCap.castlePlayer.Some?
      modifies castleCap, this`events, this`nextCalls
      ensures Valid()
      ensures var owner := old(castleCap.castlePlayer.value);
              castleCap.castles == old(castleCap.castles)[owner := old(castleCap.castles[owner]) - 1]
      ensures castleCap.converted == old(castleCap.converted) + [FeaturePointer(pos, loc)]
      ensures Prepared(old(castleCap.currentTileCastleBases.value), old(events), old(nextCalls))
      ensures castleCap.currentTileCastleBases.Some? ==>
                |castleCap.currentTileCastleBases.value| == |old(castleCap.currentTileCastleBases.value)| - 1
    {
      var owner := castleCap.castlePlayer.value;
      castleCap.castles := castleCap.castles[owner := castleCap.castles[owner] - 1];
      castleCap.converted := castleCap.converted + [FeaturePointer(pos, loc)];
      PrepareCastleAction();
    }
  }

  /**
   * Two players; the placed tile completes one two-segment castle-base city
   * holding a follower of player 0 only. With a castle left, player 0 is offered
   * that city, deploys, and the phase then clears its scratch state and moves on.
   */
  method SingleBaseScenario()
  {
    var tile := ScenarioTile();
    var castles := map[0 := 1, 1 := 1];
    ScenarioScan(castles);
    var cap := new CastleCapability(castles);
    var phase := new CastlePhase(cap, 2, 0, tile);
    phase.Enter();
    assert ScanTile(phase.tile.features, cap.castles) == map[0 := {Location(1)}];
    assert 0 in ScanTile(phase.tile.features, cap.castles);
    assert phase.Prepared(map[0 := {Location(1)}], [], 0);
    assert IsFirstEligible(map[0 := {Location(1)}], 0, 2, cap.castlePlayer.value);
    assert cap.castlePlayer == Some(0);
    assert cap.currentTileCastleBases == Some(map[]);
    assert Offer(Position(0, 0), {Location(1)}) == {FeaturePointer(Position(0, 0), Location(1))};
    assert phase.events == [SelectAction(0, {FeaturePointer(Position(0, 0), Location(1))}, true)];
    phase.DeployCastle(Position(0, 0), Location(1));
    assert cap.castles[0] == 0;
    assert cap.castlePlayer == None && cap.currentTileCastleBases == None;
    assert phase.nextCalls == 1 && |phase.events| == 1;
  }

  /** The same tile when player 0 has no castle left: nothing is offered and the phase moves on. */
  method NoCastleLeftScenario()
  {
    var tile := ScenarioTile();
    var castles := map[0 := 0, 1 := 1];
    ScenarioScan(castles);
    var cap := new CastleCapability(castles);
    var phase := new CastlePhase(cap, 2, 0, tile);
    phase.Enter();
    assert cap.castlePlayer == None && cap.currentTileCastleBases == None;
    assert phase.events == [] && phase.nextCalls == 1;
  }

  /** The placed tile of both scenarios: one city at location 1 whose region is two castle-base segments. */
  function ScenarioTile(): Tile
  {
    Tile(Position(0, 0), [City(Location(1), [CitySegment(true, [Follower(0, false)]), CitySegment(true, [])])])
  }

  /** What `enter`'s scan finds on the scenario tile, owned by player 0. */
  lemma ScenarioScan(castles: map<PlayerId, nat>)
    requires 0 in castles
    ensures ScanTile(ScenarioTile().features, castles)
            == if castles[0] == 0 then map[] else map[0 := {Location(1)}]
  {
    var region := [CitySegment(true, [Follower(0, false)]), CitySegment(true, [])];
    assert Followers([Follower(0, false)]) == [Follower(0, false)] by {
      assert [Follower(0, false)][..0] == [];
    }
    assert SegmentFollowers(region) == [Follower(0, false)] by {
      assert region[..1] == [region[0]];
      assert region[..1][..0] == [];
    }
    assert SingleOwner([Follower(0, false)]) == Some(0) by {
      assert [Follower(0, false)][1..] == [];
    }
    assert CastleBaseOwner(region) == Some(0);
    var fs := ScenarioTile().features;
    assert fs[..0] == [];
    assert ScanTile(fs, castles) == ScanFeature(map[], fs[0], castles);
    if castles[0] != 0 {
      assert {} + {Location(1)} == {Location(1)};
      assert ScanFeature(map[], fs[0], castles) == map[0 := {Location(1)}];
    }
  }
}
