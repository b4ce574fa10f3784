/** Sprite ordering and culling of `renderSprites` / `renderSprite`
    (game.js:1609, 1620-1633): painter's order, the field-of-view test on
    the bearing to the sprite, and the depth window. `atan2` of the offset
    to the sprite is an input. */
module Sprites {
  import opened Common

  const PI: real := 3.141592653589793
  const TWO_PI: real := 6.283185307179586
  /** Half of the 60-degree field of view. */
  const HALF_FOV: real := PI / 6.0
  /** The slack added to the half field of view before culling. */
  const FOV_MARGIN: real := 0.5
  const MIN_SPRITE_DISTANCE: real := 10.0
  const MAX_DEPTH: real := 800.0

  datatype SpriteKind = PuzzleSprite | HealthSprite | KeySprite

  datatype Sprite = Sprite(x: real, y: real, distance: real, kind: SpriteKind)

  // ------------------------------------------------------------- ordering

  /** Farthest first: the order `sort((a, b) => b.distance - a.distance)` produces. */
  predicate FarthestFirst(s: seq<Sprite>) {
    forall i, j :: 0 <= i < j < |s| ==> s[i].distance >= s[j].distance
  }

  /** A sprite at least as far as every sprite of a list in painter's
      order can be drawn before all of them. */
  lemma PrependFarthest(x: Sprite, s: seq<Sprite>)
    requires FarthestFirst(s)
    requires forall y :: y in s ==> y.distance <= x.distance
    ensures FarthestFirst([x] + s)
  {
    var r := [x] + s;
    forall i, j | 0 <= i < j < |r| ensures r[i].distance >= r[j].distance {
      if i > 0 {
        assert r[i] == s[i - 1] && r[j] == s[j - 1];
      } else {
        assert r[j] == s[j - 1] && r[j] in s;
      }
    }
  }

  /** Inserts `sp` before the first sprite that is not farther than it. */
  function InsertByDistance(sp: Sprite, s: seq<Sprite>): (r: seq<Sprite>)
    ensures |r| == |s| + 1
    decreases |s|
  {
    if s == [] then [sp]
    else if sp.distance >= s[0].distance then [sp] + s
    else [s[0]] + InsertByDistance(sp, s[1..])
  }

  /** Inserting into a list in painter's order keeps that order and adds
      nothing but `sp`. */
  lemma {:induction false} InsertByDistanceSorted(sp: Sprite, s: seq<Sprite>)
    requires FarthestFirst(s)
    ensures FarthestFirst(InsertByDistance(sp, s))
    ensures forall x :: x in InsertByDistance(sp, s) ==> x in s || x == sp
    decreases |s|
  {
    if s == [] {
    } else if sp.distance >= s[0].distance {
      forall y | y in s ensures y.distance <= sp.distance {
        var k :| 0 <= k < |s| && s[k] == y;
        assert k == 0 || s[0].distance >= s[k].distance;
      }
      PrependFarthest(sp, s);
    } else {
      var rest := InsertByDistance(sp, s[1..]);
      assert FarthestFirst(s[1..]);
      InsertByDistanceSorted(sp, s[1..]);
      forall y | y in rest ensures y.distance <= s[0].distance {
        if y != sp {
          var k :| 0 <= k < |s[1..]| && s[1..][k] == y;
          assert s[k + 1] == y;
        }
      }
      PrependFarthest(s[0], rest);
    }
  }

  /** Inserting adds exactly one copy of `sp`. */
  lemma {:induction false} InsertByDistancePerm(sp: Sprite, s: seq<Sprite>)
    ensures multiset(InsertByDistance(sp, s)) == multiset(s) + multiset{sp}
    decreases |s|
  {
    if s != [] && sp.distance < s[0].distance {
      InsertByDistancePerm(sp, s[1..]);
      assert s == [s[0]] + s[1..];
    }
  }

  /** The painter's order: insertion sort, farthest first. */
  function SortFarthestFirst(s: seq<Sprite>): (r: seq<Sprite>)
    ensures |r| == |s|
    decreases |s|
  {
    if s == [] then [] else InsertByDistance(s[0], SortFarthestFirst(s[1..]))
  }

  /** The sorted list is in painter's order and holds the same sprites. */
  lemma {:induction false} SortFarthestFirstSpec(s: seq<Sprite>)
    ensures FarthestFirst(SortFarthestFirst(s))
    ensures multiset(SortFarthestFirst(s)) == multiset(s)
    decreases |s|
  {
    if s != [] {
      SortFarthestFirstSpec(s[1..]);
      InsertByDistanceSorted(s[0], SortFarthestFirst(s[1..]));
      InsertByDistancePerm(s[0], SortFarthestFirst(s[1..]));
      assert s == [s[0]] + s[1..];
    }
  }

  /** A list already in painter's order is left as it is. */
  lemma {:induction false} SortKeepsSortedInput(s: seq<Sprite>)
    requires FarthestFirst(s)
    ensures SortFarthestFirst(s) == s
    decreases |s|
  {
    if s != [] {
      assert FarthestFirst(s[1..]);
      SortKeepsSortedInput(s[1..]);
      assert s == [s[0]] + s[1..];
    }
  }

  // -------------------------------------------------------------- culling

  /** The bearing as game.js:1624 computes it: `atan2(dy, dx) - player.angle`,
      never brought back into [-PI, PI]. */
  function BearingAsWritten(direction: real, heading: real): real {
    direction - heading
  }

  /** The bearing from the heading to the sprite brought into [-PI, PI]:
      `atan2` lies in [-PI, PI] and the heading in [0, 2*PI], so one full
      turn added below -PI suffices. */
  function Bearing(direction: real, heading: real): (b: real)
    requires -PI <= direction <= PI && 0.0 <= heading <= TWO_PI
    ensures -PI <= b <= PI
    ensures b == BearingAsWritten(direction, heading) || b == BearingAsWritten(direction, heading) + TWO_PI
  {
    var raw := BearingAsWritten(direction, heading);
    if raw < -PI then raw + TWO_PI else raw
  }

  /** The culling test `Math.abs(angle) > HALF_FOV + 0.5` with the bearing as written. */
  predicate InFieldAsWritten(direction: real, heading: real) {
    Abs(BearingAsWritten(direction, heading)) <= HALF_FOV + FOV_MARGIN
  }

  /** The same test on the normalised bearing. */
  predicate InField(direction: real, heading: real)
    requires -PI <= direction <= PI && 0.0 <= heading <= TWO_PI
  {
    Abs(Bearing(direction, heading)) <= HALF_FOV + FOV_MARGIN
  }

  /** `distance < 10 || distance > MAX_DEPTH` culls. */
  predicate InDepthWindow(distance: real) {
    MIN_SPRITE_DISTANCE <= distance <= MAX_DEPTH
  }

  /** A sprite is drawn when both tests pass. */
  predicate Visible(sp: Sprite, direction: real, heading: real)
    requires -PI <= direction <= PI && 0.0 <= heading <= TWO_PI
  {
    InField(direction, heading) && InDepthWindow(sp.distance)
  }

  /** Whenever the un-normalised bearing already lies in [-PI, PI] the two
      tests agree: the normalisation only changes wrapped-around bearings. */
  lemma InFieldAgreesWhenNotWrapped(direction: real, heading: real)
    requires -PI <= direction <= PI && 0.0 <= heading <= TWO_PI
    requires -PI <= BearingAsWritten(direction, heading)
    ensures InField(direction, heading) <==> InFieldAsWritten(direction, heading)
  {
  }

  /** A sprite in the exact viewing direction (its direction is the heading
      up to whole turns) at a drawable distance is drawn. */
  lemma StraightAheadIsVisible(sp: Sprite, direction: real, heading: real)
    requires -PI <= direction <= PI && 0.0 <= heading <= TWO_PI
    requires direction == heading || direction == heading - TWO_PI
    requires InDepthWindow(sp.distance)
    ensures Visible(sp, direction, heading)
  {
  }

  /** With the bearing as written, every sprite straight ahead of a player
      whose heading lies in (PI, 2*PI] is culled: atan2 reports its
      direction as heading - 2*PI, so the bearing is -2*PI. Facing 3*PI/2
      with the sprite at atan2 = -PI/2 is one such case. */
  lemma StraightAheadCulledAsWritten(heading: real)
    requires PI < heading <= TWO_PI
    ensures BearingAsWritten(heading - TWO_PI, heading) == -TWO_PI
    ensures !InFieldAsWritten(heading - TWO_PI, heading)
    ensures InField(heading - TWO_PI, heading)
  {
  }
}
