/** Keyboard movement of `handleMovement` (game.js:933-969): the movement
    vector from the pressed keys, and the axis-separated collision test that
    moves in X first and then in Y from the possibly updated X. */
module Movement {
  import opened Grid

  /** The movement vector for the pressed keys, for a heading whose cosine
      is `c` and sine `s`. KeyS assigns (it does not add to) the KeyW
      vector; the strafe keys add cos/sin of heading -+ PI/2, written here
      with cos(a - PI/2) = sin a, sin(a - PI/2) = -cos a and their mirror. */
  function MoveVector(keyW: bool, keyS: bool, keyA: bool, keyD: bool, c: real, s: real, speed: real): (v: Point) {
    var fwd :=
      if keyS then Point(-c * speed, -s * speed)
      else if keyW then Point(c * speed, s * speed)
      else Point(0.0, 0.0);
    var left := if keyA then Point(fwd.x + s * speed, fwd.y - c * speed) else fwd;
    if keyD then Point(left.x - s * speed, left.y + c * speed) else left
  }

  /** Holding W and S together moves backwards, exactly as S alone:
      the second assignment replaces the first. */
  lemma KeySOverridesKeyW(keyA: bool, keyD: bool, c: real, s: real, speed: real)
    ensures MoveVector(true, true, keyA, keyD, c, s, speed) == MoveVector(false, true, keyA, keyD, c, s, speed)
    ensures MoveVector(false, true, false, false, c, s, speed) == Point(-c * speed, -s * speed)
  {
  }

  /** The two strafe keys cancel; the strafe direction is perpendicular
      to the heading. */
  lemma StrafeKeys(keyW: bool, keyS: bool, c: real, s: real, speed: real)
    ensures MoveVector(keyW, keyS, true, true, c, s, speed) == MoveVector(keyW, keyS, false, false, c, s, speed)
    ensures var v := MoveVector(false, false, false, true, c, s, speed); v.x * c + v.y * s == 0.0
  {
  }

  /** The position after one movement step by (dx, dy) from (x, y). */
  function TryMove(grid: Map, doors: seq<Door>, x: real, y: real, dx: real, dy: real): (p: Point)
    ensures p.x == x || p.x == x + dx
    ensures p.y == y || p.y == y + dy
  {
    var x' := if !CheckGridCollision(grid, doors, x + dx, y, PLAYER_RADIUS) then x + dx else x;
    var y' := if !CheckGridCollision(grid, doors, x', y + dy, PLAYER_RADIUS) then y + dy else y;
    Point(x', y')
  }

  /** The X move happens iff (x + dx, y) is free; the Y move iff
      (x', y + dy) is free, where x' is the X already moved to; when both
      are blocked the player stays put. (A zero component moves nowhere
      either way.) */
  lemma TryMoveAxes(grid: Map, doors: seq<Door>, x: real, y: real, dx: real, dy: real)
    ensures var p := TryMove(grid, doors, x, y, dx, dy);
      (dx != 0.0 ==> (p.x == x + dx <==> !CheckGridCollision(grid, doors, x + dx, y, PLAYER_RADIUS)))
      && (dy != 0.0 ==> (p.y == y + dy <==> !CheckGridCollision(grid, doors, p.x, y + dy, PLAYER_RADIUS)))
    ensures CheckGridCollision(grid, doors, x + dx, y, PLAYER_RADIUS)
         && CheckGridCollision(grid, doors, x, y + dy, PLAYER_RADIUS)
         ==> TryMove(grid, doors, x, y, dx, dy) == Point(x, y)
  {
  }

  /** A player who starts free stays free: movement never ends inside a
      wall or a locked door. */
  lemma TryMoveStaysFree(grid: Map, doors: seq<Door>, x: real, y: real, dx: real, dy: real)
    requires !CheckGridCollision(grid, doors, x, y, PLAYER_RADIUS)
    ensures var p := TryMove(grid, doors, x, y, dx, dy);
      !CheckGridCollision(grid, doors, p.x, p.y, PLAYER_RADIUS)
  {
  }

  /** A step can slide along a wall: when the diagonal target is blocked
      only in X, the Y component is still taken. */
  lemma SlideAlongWall(grid: Map, doors: seq<Door>, x: real, y: real, dx: real, dy: real)
    requires CheckGridCollision(grid, doors, x + dx, y, PLAYER_RADIUS)
    requires !CheckGridCollision(grid, doors, x, y + dy, PLAYER_RADIUS)
    ensures TryMove(grid, doors, x, y, dx, dy) == Point(x, y + dy)
  {
  }
}
