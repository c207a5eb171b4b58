/**
 * `DriveHomeDriver::next_destination`: follow the point just behind the
 * "nearest" other car, or wander to a random point when no car qualifies.
 * "Nearest" is measured by the wrapped difference of red channels.
 */
module Drivers {
  import opened Numerics
  import opened Geometry
  import opened CarModel

  /** The closeness of `c` to `me`: `me.red - c.red` as a wrapping `u8` subtraction. */
  function Score(me: CarState, c: CarState): (r: u8)
    ensures r == 0 <==> me.color.red == c.color.red
    ensures c.color.red <= me.color.red ==> r as int == me.color.red as int - c.color.red as int
    ensures c.color.red > me.color.red ==> r as int == 256 + me.color.red as int - c.color.red as int
  {
    WrapSub(me.color.red, c.color.red)
  }

  /** A car `me` may follow: somewhere else, with a positive score. */
  predicate Qualifies(me: CarState, c: CarState)
    ensures Qualifies(me, c) <==> c.location != me.location && c.color.red != me.color.red
  {
    c.location != me.location && Score(me, c) > 0
  }

  /**
   * Reference definition of the leader: `others[k]` qualifies, no qualifying
   * car has a smaller score, and no earlier qualifying car has the same one.
   */
  ghost predicate IsLeaderAt(me: CarState, others: seq<CarState>, k: int)
  {
    && 0 <= k < |others|
    && Qualifies(me, others[k])
    && (forall j :: 0 <= j < |others| && Qualifies(me, others[j]) ==> Score(me, others[k]) <= Score(me, others[j]))
    && (forall j :: 0 <= j < k && Qualifies(me, others[j]) ==> Score(me, others[k]) < Score(me, others[j]))
  }

  /**
   * One step of the filter/map/fold chain.  A car at `me`'s location is
   * filtered out; otherwise it replaces the running best only when its score
   * is positive and strictly smaller.  `None` stands for the fold's initial
   * `(None, INFINITY)`: every score is finite, so it is beaten by any
   * positive score.
   */
  function Pick(me: CarState, acc: Option<CarState>, c: CarState): (r: Option<CarState>)
    ensures !Qualifies(me, c) ==> r == acc
    ensures Qualifies(me, c) && (acc.None? || Score(me, c) < Score(me, acc.value)) ==> r == Some(c)
    ensures acc.Some? && Score(me, acc.value) <= Score(me, c) ==> r == acc
  {
    if me.location == c.location then acc
    else if (acc.None? || Score(me, c) < Score(me, acc.value)) && Score(me, c) > 0 then Some(c)
    else acc
  }

  /** The fold of `Pick` over `others` from the first car to the last. */
  function Nearest(me: CarState, others: seq<CarState>): (r: Option<CarState>)
    ensures r.Some? ==> r.value in others && Qualifies(me, r.value)
  {
    if others == [] then None
    else
      var acc := Nearest(me, others[..|others| - 1]);
      assert acc.Some? ==> acc.value in others;
      Pick(me, acc, others[|others| - 1])
  }

  /**
   * The fold finds nothing exactly when no car qualifies, and otherwise
   * finds the leader of the reference definition.
   */
  lemma {:induction false} NearestIsLeader(me: CarState, others: seq<CarState>)
    ensures Nearest(me, others).None? <==> forall j :: 0 <= j < |others| ==> !Qualifies(me, others[j])
    ensures Nearest(me, others).Some? ==>
              exists k :: IsLeaderAt(me, others, k) && others[k] == Nearest(me, others).value
  {
    if others != [] {
      var n := |others| - 1;
      var prefix, last := others[..n], others[n];
      NearestIsLeader(me, prefix);
      var acc := Nearest(me, prefix);
      if me.location != last.location && (acc.None? || Score(me, last) < Score(me, acc.value)) && Score(me, last) > 0 {
        if acc.Some? {
          var k :| IsLeaderAt(me, prefix, k) && prefix[k] == acc.value;
          LastBeatsPrefix(me, others, k);
        }
        assert IsLeaderAt(me, others, n);
      } else if acc.Some? {
        var k :| IsLeaderAt(me, prefix, k) && prefix[k] == acc.value;
        LeaderKept(me, others, k);
      }
    }
  }

  /** A last car that beats the leader of the rest beats every qualifying car of the rest. */
  lemma LastBeatsPrefix(me: CarState, others: seq<CarState>, k: int)
    requires others != [] && IsLeaderAt(me, others[..|others| - 1], k)
    requires Score(me, others[|others| - 1]) < Score(me, others[k])
    ensures forall j :: 0 <= j < |others| - 1 && Qualifies(me, others[j]) ==>
              Score(me, others[|others| - 1]) < Score(me, others[j])
  {
    var prefix := others[..|others| - 1];
    assert forall j :: 0 <= j < |prefix| ==> prefix[j] == others[j];
  }

  /** The leader of the rest stays the leader when the last car does not beat it. */
  lemma LeaderKept(me: CarState, others: seq<CarState>, k: int)
    requires others != [] && IsLeaderAt(me, others[..|others| - 1], k)
    requires Qualifies(me, others[|others| - 1]) ==> Score(me, others[k]) <= Score(me, others[|others| - 1])
    ensures IsLeaderAt(me, others, k)
  {
    var prefix := others[..|others| - 1];
    assert forall j :: 0 <= j < |prefix| ==> prefix[j] == others[j];
  }

  /** The reference definition picks at most one index. */
  lemma LeaderUnique(me: CarState, others: seq<CarState>, k1: int, k2: int)
    requires IsLeaderAt(me, others, k1) && IsLeaderAt(me, others, k2)
    ensures k1 == k2
  {
  }

  /**
   * `next_destination` of driver `d`: the point 20 behind the nearest car at
   * speed 80, or the random point `pick` at speed 65.
   */
  function NextDestination(d: Driver, m: Math, me: CarState, others: seq<CarState>, pick: Vec2): (w: Waypoint)
    requires InArena(pick)
    ensures w.speed == 65.0 || w.speed == 80.0
  {
    match d
    case DriveHome =>
      match Nearest(me, others)
      case Some(c) => Waypoint(Behind(c, 20.0, m), 80.0)
      case None => Waypoint2f(pick.x, pick.y, 65.0)
  }

  /**
   * When no car qualifies the waypoint is the random fallback: speed 65 at
   * a point of the arena; conversely speed 65 means no car qualified.
   */
  lemma FallbackDestination(d: Driver, m: Math, me: CarState, others: seq<CarState>, pick: Vec2)
    requires InArena(pick)
    ensures (forall j :: 0 <= j < |others| ==> !Qualifies(me, others[j])) <==>
              NextDestination(d, m, me, others, pick).speed == 65.0
    ensures (forall j :: 0 <= j < |others| ==> !Qualifies(me, others[j])) ==>
              NextDestination(d, m, me, others, pick) == Waypoint(pick, 65.0)
  {
    NearestIsLeader(me, others);
  }

  /** When some car qualifies the waypoint is 20 behind the leader, at speed 80. */
  lemma FollowDestination(d: Driver, m: Math, me: CarState, others: seq<CarState>, pick: Vec2)
    requires InArena(pick)
    requires exists j :: 0 <= j < |others| && Qualifies(me, others[j])
    ensures exists k :: IsLeaderAt(me, others, k) &&
              NextDestination(d, m, me, others, pick) == Waypoint(Behind(others[k], 20.0, m), 80.0)
  {
    NearestIsLeader(me, others);
  }

  /** A car alone, or among cars all at its own location, always falls back. */
  lemma SoleCarFallsBack(d: Driver, m: Math, me: CarState, others: seq<CarState>, pick: Vec2)
    requires InArena(pick)
    requires forall j :: 0 <= j < |others| ==> others[j].location == me.location
    ensures NextDestination(d, m, me, others, pick) == Waypoint(pick, 65.0)
  {
    FallbackDestination(d, m, me, others, pick);
  }

  /**
   * Two cars, `me` (seen through its own snapshot `self`) and `other`
   * elsewhere: `me` follows `other` exactly when their red channels differ,
   * whichever of the two entries comes first in the snapshot.
   */
  lemma TwoCars(d: Driver, m: Math, me: CarState, self: CarState, other: CarState, pick: Vec2)
    requires InArena(pick)
    requires self.location == me.location && other.location != me.location
    ensures NextDestination(d, m, me, [self, other], pick) ==
              if me.color.red != other.color.red then Waypoint(Behind(other, 20.0, m), 80.0)
              else Waypoint(pick, 65.0)
    ensures NextDestination(d, m, me, [other, self], pick) ==
              if me.color.red != other.color.red then Waypoint(Behind(other, 20.0, m), 80.0)
              else Waypoint(pick, 65.0)
  {
    assert [self, other][..1] == [self];
    assert [self][..0] == [];
    assert Nearest(me, [self]) == None;
    assert Score(me, other) > 0 <==> me.color.red != other.color.red;
    assert [other, self][..1] == [other];
    assert [other][..0] == [];
    assert Nearest(me, [other]) == Pick(me, None, other);
    assert Nearest(me, [other, self]) == Pick(me, Nearest(me, [other]), self);
  }
}
