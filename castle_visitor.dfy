/**
 * The castle-base test of the castle-conversion phase: a visitor that walks the
 * city region of a feature and decides whether that region is a two-segment
 * castle base held by a single player.
 */
module CastleVisitor {
  import opened Wrappers

  /** A seat at the table; the seats are 0 .. N-1 in seating order. */
  type PlayerId = nat

  /**
   * A figure standing on a city segment. Followers (the Mayor among them) take
   * part in ownership; special figures (builder, pig, barn, ...) do not.
   */
  datatype Meeple = Follower(player: PlayerId, isMayor: bool) | Special(player: PlayerId)

  /** One city segment met by the walk: its castle-base flag and its figures. */
  datatype CitySegment = CitySegment(castleBase: bool, meeples: seq<Meeple>)

  predicate IsMayor(m: Meeple) {
    m.Follower? && m.isMayor
  }

  /** The followers among `ms`, in their order on the segment. */
  function Followers(ms: seq<Meeple>): (fs: seq<Meeple>)
    ensures |fs| <= |ms|
    ensures forall k | 0 <= k < |fs| :: fs[k].Follower? && fs[k] in ms
    ensures forall k | 0 <= k < |ms| :: ms[k].Follower? ==> ms[k] in fs
  {
    if ms == [] then []
    else Followers(ms[..|ms| - 1]) + (if ms[|ms| - 1].Follower? then [ms[|ms| - 1]] else [])
  }

  /** The followers of a sequence of segments, segment by segment. */
  function SegmentFollowers(region: seq<CitySegment>): seq<Meeple>
  {
    if region == [] then []
    else SegmentFollowers(region[..|region| - 1]) + Followers(region[|region| - 1].meeples)
  }

  /**
   * The owner that `getResult`'s loop settles on, continuing from `owner`: a
   * follower of another player than the owner found so far ends the search with
   * no owner; the first follower that is not a Mayor becomes the owner.
   */
  function ResolveOwner(fs: seq<Meeple>, owner: Option<PlayerId>): Option<PlayerId>
  {
    if fs == [] then owner
    else if owner.Some? && owner.value != fs[0].player then None
    else ResolveOwner(fs[1..], if owner.None? && !IsMayor(fs[0]) then Some(fs[0].player) else owner)
  }

  /** The owner decided by `getResult` for a qualifying region's followers. */
  function SingleOwner(fs: seq<Meeple>): Option<PlayerId>
  {
    ResolveOwner(fs, None)
  }

  /** `k` is the position of the first follower in `fs` that is not a Mayor. */
  ghost predicate FirstNonMayorAt(fs: seq<Meeple>, k: int)
  {
    0 <= k < |fs| && !IsMayor(fs[k]) && forall j | 0 <= j < k :: IsMayor(fs[j])
  }

  /**
   * Independent statement of single ownership: the first non-Mayor follower
   * belongs to `p`, and so does every follower after it (Mayors before it are
   * not looked at).
   */
  ghost predicate OwnedBy(fs: seq<Meeple>, p: PlayerId)
  {
    exists k :: FirstNonMayorAt(fs, k) && forall j | k <= j < |fs| :: fs[j].player == p
  }

  /**
   * The source's castle-base rule stated on the whole region: it qualifies only
   * when the walk finds exactly two segments, both castle bases, and then its
   * owner is the single owner of the followers on them.
   */
  function CastleBaseOwner(region: seq<CitySegment>): Option<PlayerId>
  {
    if |region| == 2 && region[0].castleBase && region[1].castleBase
    then SingleOwner(SegmentFollowers(region))
    else None
  }

  /** Once an owner is known, the result keeps it exactly when every follower left is that owner's. */
  lemma {:induction false} ResolveFromOwner(fs: seq<Meeple>, q: PlayerId, p: PlayerId)
    ensures ResolveOwner(fs, Some(q)) == Some(p) <==> q == p && forall j | 0 <= j < |fs| :: fs[j].player == p
    decreases |fs|
  {
    if fs != [] {
      ResolveFromOwner(fs[1..], q, p);
      if q == fs[0].player {
        assert forall j | 1 <= j < |fs| :: fs[j].player == fs[1..][j - 1].player;
      }
    }
  }

  /** `getResult`'s owner is `p` exactly when the followers are owned by `p` in the sense of `OwnedBy`. */
  lemma {:induction false} SingleOwnerIff(fs: seq<Meeple>, p: PlayerId)
    ensures SingleOwner(fs) == Some(p) <==> OwnedBy(fs, p)
    decreases |fs|
  {
    if fs == [] {
      assert !OwnedBy(fs, p);
    } else if IsMayor(fs[0]) {
      SingleOwnerIff(fs[1..], p);
      if OwnedBy(fs, p) {
        var k :| FirstNonMayorAt(fs, k) && forall j | k <= j < |fs| :: fs[j].player == p;
        assert FirstNonMayorAt(fs[1..], k - 1);
        assert forall j | k - 1 <= j < |fs[1..]| :: fs[1..][j].player == p by {
          forall j | k - 1 <= j < |fs[1..]| ensures fs[1..][j].player == p {
            assert fs[1..][j] == fs[j + 1];
          }
        }
      }
      if OwnedBy(fs[1..], p) {
        var k :| FirstNonMayorAt(fs[1..], k) && forall j | k <= j < |fs[1..]| :: fs[1..][j].player == p;
        assert FirstNonMayorAt(fs, k + 1) by {
          forall j | 0 <= j < k + 1 ensures IsMayor(fs[j]) {
            if j > 0 { assert fs[j] == fs[1..][j - 1]; }
          }
        }
        assert forall j | k + 1 <= j < |fs| :: fs[j].player == p by {
          forall j | k + 1 <= j < |fs| ensures fs[j].player == p {
            assert fs[j] == fs[1..][j - 1];
          }
        }
      }
    } else {
      ResolveFromOwner(fs[1..], fs[0].player, p);
      assert FirstNonMayorAt(fs, 0);
      if OwnedBy(fs, p) {
        var k :| FirstNonMayorAt(fs, k) && forall j | k <= j < |fs| :: fs[j].player == p;
        assert k == 0;
        assert forall j | 0 <= j < |fs[1..]| :: fs[1..][j].player == p by {
          forall j | 0 <= j < |fs[1..]| ensures fs[1..][j].player == p {
            assert fs[1..][j] == fs[j + 1];
          }
        }
      }
      if SingleOwner(fs) == Some(p) {
        assert forall j | 0 <= j < |fs| :: fs[j].player == p by {
          forall j | 0 <= j < |fs| ensures fs[j].player == p {
            if j > 0 { assert fs[j] == fs[1..][j - 1]; }
          }
        }
      }
    }
  }

  /** The owner found is the player of a non-Mayor follower present in the region. */
  lemma OwnerHasFollower(fs: seq<Meeple>, p: PlayerId)
    requires SingleOwner(fs) == Some(p)
    ensures exists k | 0 <= k < |fs| :: !IsMayor(fs[k]) && fs[k].player == p
  {
    SingleOwnerIff(fs, p);
    var k :| FirstNonMayorAt(fs, k) && forall j | k <= j < |fs| :: fs[j].player == p;
    assert !IsMayor(fs[k]) && fs[k].player == p;
  }

  /** A region on which only Mayors stand has no owner: a Mayor never becomes the owner. */
  lemma OnlyMayorsNoOwner(fs: seq<Meeple>)
    requires forall k | 0 <= k < |fs| :: IsMayor(fs[k])
    ensures SingleOwner(fs) == None
  {
    if SingleOwner(fs).Some? {
      OwnerHasFollower(fs, SingleOwner(fs).value);
    }
  }

  /** Non-Mayor followers of two different players leave the region without an owner. */
  lemma RivalFollowersNoOwner(fs: seq<Meeple>, a: nat, b: nat)
    requires a < |fs| && b < |fs|
    requires !IsMayor(fs[a]) && !IsMayor(fs[b]) && fs[a].player != fs[b].player
    ensures SingleOwner(fs) == None
  {
    forall p: PlayerId ensures SingleOwner(fs) != Some(p) {
      SingleOwnerIff(fs, p);
      forall k | FirstNonMayorAt(fs, k) ensures !(forall j | k <= j < |fs| :: fs[j].player == p) {
        assert k <= a && k <= b;
      }
    }
  }

  /** Followers all of one player, at least one of them not a Mayor, make that player the owner. */
  lemma UnanimousOwner(fs: seq<Meeple>, p: PlayerId, a: nat)
    requires a < |fs| && !IsMayor(fs[a])
    requires forall k | 0 <= k < |fs| :: fs[k].player == p
    ensures SingleOwner(fs) == Some(p)
  {
    var k := FirstNonMayor(fs, a);
    assert OwnedBy(fs, p);
    SingleOwnerIff(fs, p);
  }

  /** Finds the first non-Mayor follower, knowing one stands at `a`. */
  lemma FirstNonMayor(fs: seq<Meeple>, a: nat) returns (k: nat)
    requires a < |fs| && !IsMayor(fs[a])
    ensures k <= a && FirstNonMayorAt(fs, k)
    decreases a
  {
    if exists j | 0 <= j < a :: !IsMayor(fs[j]) {
      var j :| 0 <= j < a && !IsMayor(fs[j]);
      k := FirstNonMayor(fs, j);
    } else {
      k := a;
    }
  }

  /**
   * The owner rule depends on the order in which the followers were met: a
   * Mayor of another player met before the first follower is ignored, met after
   * it voids the ownership.
   */
  lemma MayorOrderMatters()
    ensures SingleOwner([Follower(1, true), Follower(0, false)]) == Some(0)
    ensures SingleOwner([Follower(0, false), Follower(1, true)]) == None
  {
  }

  /** A region is a castle base only with exactly two segments, both castle bases. */
  lemma CastleBaseShape(region: seq<CitySegment>)
    requires CastleBaseOwner(region).Some?
    ensures |region| == 2 && region[0].castleBase && region[1].castleBase
  {
  }

  /** Every figure on the region belongs to one of the seats 0 .. n-1. */
  ghost predicate RegionSeated(region: seq<CitySegment>, n: nat)
  {
    forall j, i | 0 <= j < |region| && 0 <= i < |region[j].meeples| :: region[j].meeples[i].player < n
  }

  lemma {:induction false} SegmentFollowersSeated(region: seq<CitySegment>, n: nat)
    requires RegionSeated(region, n)
    ensures forall k | 0 <= k < |SegmentFollowers(region)| :: SegmentFollowers(region)[k].player < n
    decreases |region|
  {
    if region != [] {
      var init := region[..|region| - 1];
      var last := region[|region| - 1].meeples;
      assert RegionSeated(init, n) by {
        forall j, i | 0 <= j < |init| && 0 <= i < |init[j].meeples| ensures init[j].meeples[i].player < n {
          assert init[j] == region[j];
        }
      }
      SegmentFollowersSeated(init, n);
      var fs := Followers(last);
      forall k | 0 <= k < |fs| ensures fs[k].player < n {
        assert fs[k] in last;
      }
    }
  }

  /** The owner of a castle base is a seated player when all its figures are. */
  lemma CastleBaseOwnerSeated(region: seq<CitySegment>, n: nat, p: PlayerId)
    requires RegionSeated(region, n) && CastleBaseOwner(region) == Some(p)
    ensures p < n
  {
    SegmentFollowersSeated(region, n);
    OwnerHasFollower(SegmentFollowers(region), p);
  }

  /** The visitor passed to `f.walk` by the castle phase; it changes its three fields as segments are visited. */
  class FindCastleBaseVisitor {
    var size: nat
    var castleBase: bool
    var followers: seq<Meeple>

    constructor ()
      ensures size == 0 && castleBase && followers == []
    {
      size := 0;
      castleBase := true;
      followers := [];
    }

    /**
     * `visit`: a segment that is not a castle base clears the flag and stops the
     * walk at once; otherwise its followers are collected, it is counted, and the
     * walk goes on only while at most two segments have been counted.
     */
    method Visit(c: CitySegment) returns (proceed: bool)
      modifies this
      ensures !c.castleBase ==> !castleBase && !proceed && size == old(size) && followers == old(followers)
      ensures c.castleBase ==> castleBase == old(castleBase) && size == old(size) + 1
                               && followers == old(followers) + Followers(c.meeples)
                               && proceed == (size <= 2)
    {
      if !c.castleBase {
        castleBase := false;
        return false;
      }
      var i := 0;
      while i < |c.meeples|
        invariant 0 <= i <= |c.meeples|
        invariant followers == old(followers) + Followers(c.meeples[..i])
        invariant size == old(size) && castleBase == old(castleBase)
      {
        assert c.meeples[..i + 1][..i] == c.meeples[..i];
        if c.meeples[i].Follower? {
          followers := followers + [c.meeples[i]];
        }
        i := i + 1;
      }
      assert c.meeples[..i] == c.meeples;
      size := size + 1;
      proceed := size <= 2;
    }

    /** `getResult`: no owner unless the region was an all-castle-base region of size 2; then its single owner. */
    method GetResult() returns (owner: Option<PlayerId>)
      ensures owner == if castleBase && size == 2 then SingleOwner(followers) else None
    {
      if !castleBase || size != 2 {
        return None;
      }
      owner := None;
      var i := 0;
      while i < |followers|
        invariant 0 <= i <= |followers|
        invariant ResolveOwner(followers[i..], owner) == SingleOwner(followers)
      {
        var f := followers[i];
        if owner.Some? && owner.value != f.player {
          return None;
        }
        if owner.None? && !IsMayor(f) {
          owner := Some(f.player);
        }
        i := i + 1;
      }
    }
  }

  /**
   * `f.walk(new FindCastleBaseVisitor())`: the walk hands the region's segments
   * to the visitor in order and stops as soon as `visit` answers false; the
   * result is the visitor's `getResult`. `visited` counts the segments handed over.
   */
  method FindCastleBase(region: seq<CitySegment>) returns (owner: Option<PlayerId>, visited: nat)
    ensures owner == CastleBaseOwner(region)
    ensures visited <= |region| && visited <= 3
    ensures region != [] ==> visited >= 1
    ensures forall j | 0 <= j < visited - 1 :: region[j].castleBase
    ensures visited < |region| ==> visited == 3 || !region[visited - 1].castleBase
  {
    var v := new FindCastleBaseVisitor();
    visited := 0;
    var proceed := true;
    while proceed && visited < |region|
      invariant visited <= |region| && visited <= 3
      invariant proceed ==> v.castleBase && v.size == visited && visited <= 2
                            && (forall j | 0 <= j < visited :: region[j].castleBase)
                            && v.followers == SegmentFollowers(region[..visited])
      invariant !proceed ==> visited >= 1 && (!v.castleBase || v.size > 2)
                             && CastleBaseOwner(region) == None
                             && (forall j | 0 <= j < visited - 1 :: region[j].castleBase)
                             && (visited == 3 || !region[visited - 1].castleBase)
    {
      assert region[..visited + 1][..visited] == region[..visited];
      proceed := v.Visit(region[visited]);
      visited := visited + 1;
    }
    if proceed {
      assert region[..visited] == region;
    }
    owner := v.GetResult();
  }
}
