/** The world grid of the escape room: a fixed 12 x 9 tile map of cell
    codes, the door records that overlay it, and the point/radius collision
    test `checkGridCollision` (game.js). */
module Grid {
  import opened Common

  const TILE_SIZE: real := 64.0
  const MAP_WIDTH: int := 12
  const MAP_HEIGHT: int := 9

  /** Cell codes of `this.map`. */
  const EMPTY: int := 0
  const WALL: int := 1
  const DOOR: int := 2
  const STATION: int := 3
  const ITEM: int := 4

  /** The collision radius `handleMovement` passes for the player. */
  const PLAYER_RADIUS: real := 8.0

  datatype Door = Door(mapX: int, mapY: int, locked: bool, puzzleId: int)

  type Map = seq<seq<int>>

  /** `Math.floor(coord / TILE_SIZE)`: the grid index of a world coordinate. */
  function CellOf(coord: real): int { (coord / TILE_SIZE).Floor }

  predicate InBounds(cx: int, cy: int) {
    0 <= cx < MAP_WIDTH && 0 <= cy < MAP_HEIGHT
  }

  /** A map with the fixed dimensions of the level. */
  predicate WellFormed(grid: Map) {
    |grid| == MAP_HEIGHT && forall j :: 0 <= j < |grid| ==> |grid[j]| == MAP_WIDTH
  }

  /** `this.map[cy][cx]`; an entry missing from a short row reads as
      empty (on a well-formed map every in-bounds entry exists). */
  function CellAt(grid: Map, cx: int, cy: int): int {
    if 0 <= cy < |grid| && 0 <= cx < |grid[cy]| then grid[cy][cx] else EMPTY
  }

  predicate DoorIsAt(d: Door, cx: int, cy: int) { d.mapX == cx && d.mapY == cy }

  /** `this.doors.find(d => d.mapX === cx && d.mapY === cy)`. */
  function DoorAt(doors: seq<Door>, cx: int, cy: int): (r: Option<nat>)
    ensures r.Some? ==> r.value < |doors| && DoorIsAt(doors[r.value], cx, cy)
    ensures r.Some? ==> forall j :: 0 <= j < r.value ==> !DoorIsAt(doors[j], cx, cy)
    ensures r.None? <==> forall j :: 0 <= j < |doors| ==> !DoorIsAt(doors[j], cx, cy)
  {
    FirstIndex(doors, (d: Door) => DoorIsAt(d, cx, cy))
  }

  /** `door && door.locked` for the first door record at the cell. */
  predicate LockedDoorAt(doors: seq<Door>, cx: int, cy: int) {
    match DoorAt(doors, cx, cy)
    case Some(k) => doors[k].locked
    case None => false
  }

  /** The per-cell rule shared by the centre and the corner tests: a wall,
      or a door cell whose door record is locked. */
  predicate CellBlocks(grid: Map, doors: seq<Door>, cx: int, cy: int) {
    CellAt(grid, cx, cy) == WALL || (CellAt(grid, cx, cy) == DOOR && LockedDoorAt(doors, cx, cy))
  }

  datatype Point = Point(x: real, y: real)

  /** The four corners of the square of half-side `radius`, in the order the source tests them. */
  function Corners(x: real, y: real, radius: real): seq<Point> {
    [Point(x - radius, y - radius), Point(x + radius, y - radius),
     Point(x - radius, y + radius), Point(x + radius, y + radius)]
  }

  /** A corner blocks only when its cell is inside the grid and blocks. */
  predicate CornerBlocks(grid: Map, doors: seq<Door>, c: Point) {
    InBounds(CellOf(c.x), CellOf(c.y)) && CellBlocks(grid, doors, CellOf(c.x), CellOf(c.y))
  }

  /** The `for (let corner of corners)` loop with its early `return true`. */
  predicate AnyCornerBlocks(grid: Map, doors: seq<Door>, cs: seq<Point>) {
    |cs| > 0 && (CornerBlocks(grid, doors, cs[0]) || AnyCornerBlocks(grid, doors, cs[1..]))
  }

  /** `checkGridCollision(x, y, radius)`. */
  predicate CheckGridCollision(grid: Map, doors: seq<Door>, x: real, y: real, radius: real) {
    var mx, my := CellOf(x), CellOf(y);
    if !InBounds(mx, my) then true
    else if CellAt(grid, mx, my) == WALL then true
    else if CellAt(grid, mx, my) == DOOR && LockedDoorAt(doors, mx, my) then true
    else AnyCornerBlocks(grid, doors, Corners(x, y, radius))
  }

  lemma {:induction false} AnyCornerBlocksIff(grid: Map, doors: seq<Door>, cs: seq<Point>)
    ensures AnyCornerBlocks(grid, doors, cs) <==> exists k :: 0 <= k < |cs| && CornerBlocks(grid, doors, cs[k])
  {
    if |cs| > 0 {
      AnyCornerBlocksIff(grid, doors, cs[1..]);
      assert forall k :: 1 <= k < |cs| ==> cs[k] == cs[1..][k - 1];
      if CornerBlocks(grid, doors, cs[0]) {
        assert CornerBlocks(grid, doors, cs[0]);
      } else if AnyCornerBlocks(grid, doors, cs[1..]) {
        var k :| 0 <= k < |cs[1..]| && CornerBlocks(grid, doors, cs[1..][k]);
        assert CornerBlocks(grid, doors, cs[k + 1]);
      }
    }
  }

  /** The collision test blocks exactly when the centre cell is outside the
      grid, or the centre cell or an in-bounds corner cell blocks; corners
      that fall outside the grid never count. */
  lemma CollisionIff(grid: Map, doors: seq<Door>, x: real, y: real, radius: real)
    ensures CheckGridCollision(grid, doors, x, y, radius) <==>
      (!InBounds(CellOf(x), CellOf(y))
       || CellBlocks(grid, doors, CellOf(x), CellOf(y))
       || exists k :: 0 <= k < 4 && CornerBlocks(grid, doors, Corners(x, y, radius)[k]))
  {
    AnyCornerBlocksIff(grid, doors, Corners(x, y, radius));
  }

  /** Only walls and locked doors can block: empty, station, item and
      unlocked-door cells, and door cells without a door record, never do. */
  lemma OnlyWallsAndLockedDoorsBlock(grid: Map, doors: seq<Door>, cx: int, cy: int)
    ensures CellBlocks(grid, doors, cx, cy) <==>
      (CellAt(grid, cx, cy) == WALL
       || (CellAt(grid, cx, cy) == DOOR
           && exists k :: 0 <= k < |doors| && DoorIsAt(doors[k], cx, cy) && doors[k].locked
                          && forall j :: 0 <= j < k ==> !DoorIsAt(doors[j], cx, cy)))
  {
    if CellAt(grid, cx, cy) == DOOR {
      match DoorAt(doors, cx, cy)
      case Some(k) =>
        if exists k' :: 0 <= k' < |doors| && DoorIsAt(doors[k'], cx, cy) && doors[k'].locked
                        && forall j :: 0 <= j < k' ==> !DoorIsAt(doors[j], cx, cy) {
          var k' :| 0 <= k' < |doors| && DoorIsAt(doors[k'], cx, cy) && doors[k'].locked
                    && forall j :: 0 <= j < k' ==> !DoorIsAt(doors[j], cx, cy);
          assert k' == k;
        }
      case None =>
    }
  }

  /** Unlocking doors never makes a cell block: a cell that blocks after the
      door list changed only by clearing `locked` flags blocked before. */
  lemma UnlockingNeverBlocks(grid: Map, doors: seq<Door>, doors': seq<Door>, cx: int, cy: int)
    requires |doors'| == |doors|
    requires forall j :: 0 <= j < |doors| ==>
      doors'[j].mapX == doors[j].mapX && doors'[j].mapY == doors[j].mapY && (doors'[j].locked ==> doors[j].locked)
    ensures CellBlocks(grid, doors', cx, cy) ==> CellBlocks(grid, doors, cx, cy)
  {
    var a, b := DoorAt(doors, cx, cy), DoorAt(doors', cx, cy);
    if b.Some? {
      assert DoorIsAt(doors[b.value], cx, cy);
      assert a.Some?;
      assert a.value == b.value;
    }
  }

  /** Ditto for the whole collision test. */
  lemma UnlockingNeverCollides(grid: Map, doors: seq<Door>, doors': seq<Door>, x: real, y: real, radius: real)
    requires |doors'| == |doors|
    requires forall j :: 0 <= j < |doors| ==>
      doors'[j].mapX == doors[j].mapX && doors'[j].mapY == doors[j].mapY && (doors'[j].locked ==> doors[j].locked)
    ensures CheckGridCollision(grid, doors', x, y, radius) ==> CheckGridCollision(grid, doors, x, y, radius)
  {
    CollisionIff(grid, doors, x, y, radius);
    CollisionIff(grid, doors', x, y, radius);
    UnlockingNeverBlocks(grid, doors, doors', CellOf(x), CellOf(y));
    forall k | 0 <= k < 4
      ensures CornerBlocks(grid, doors', Corners(x, y, radius)[k]) ==> CornerBlocks(grid, doors, Corners(x, y, radius)[k])
    {
      var c := Corners(x, y, radius)[k];
      UnlockingNeverBlocks(grid, doors, doors', CellOf(c.x), CellOf(c.y));
    }
  }

  lemma FloorMonotone(a: real, b: real)
    requires a <= b
    ensures a.Floor <= b.Floor
  {
  }

  /** A coordinate inside [c - r, c + r] with 0 <= r <= TILE_SIZE / 2 lies in
      the cell of one of the two ends of that interval. */
  lemma CellBetweenEnds(c: real, r: real, p: real)
    requires 0.0 <= r <= TILE_SIZE / 2.0
    requires c - r <= p <= c + r
    ensures CellOf(p) == CellOf(c - r) || CellOf(p) == CellOf(c + r)
  {
    FloorMonotone((c - r) / TILE_SIZE, p / TILE_SIZE);
    FloorMonotone(p / TILE_SIZE, (c + r) / TILE_SIZE);
    var lo, hi := CellOf(c - r), CellOf(c + r);
    assert (c + r) / TILE_SIZE <= (c - r) / TILE_SIZE + 1.0;
    FloorMonotone((c + r) / TILE_SIZE, (c - r) / TILE_SIZE + 1.0);
    assert ((c - r) / TILE_SIZE + 1.0).Floor == lo + 1;
  }

  /** No corner clipping: when a point with radius at most half a tile is
      not blocked, no in-bounds cell under any point of its square blocks. */
  lemma ClearSquare(grid: Map, doors: seq<Door>, x: real, y: real, radius: real, px: real, py: real)
    requires 0.0 <= radius <= TILE_SIZE / 2.0
    requires !CheckGridCollision(grid, doors, x, y, radius)
    requires x - radius <= px <= x + radius && y - radius <= py <= y + radius
    requires InBounds(CellOf(px), CellOf(py))
    ensures !CellBlocks(grid, doors, CellOf(px), CellOf(py))
  {
    CollisionIff(grid, doors, x, y, radius);
    CellBetweenEnds(x, radius, px);
    CellBetweenEnds(y, radius, py);
    var cs := Corners(x, y, radius);
    var k := if CellOf(px) == CellOf(x - radius) then
               (if CellOf(py) == CellOf(y - radius) then 0 else 2)
             else
               (if CellOf(py) == CellOf(y - radius) then 1 else 3);
    assert CellOf(cs[k].x) == CellOf(px) && CellOf(cs[k].y) == CellOf(py);
    assert !CornerBlocks(grid, doors, cs[k]);
  }

  /** For every point whose square lies over empty cells the test passes,
      and a square that reaches an in-bounds wall is always blocked. */
  lemma EmptySurroundingsDoNotBlock(grid: Map, doors: seq<Door>, x: real, y: real, radius: real)
    requires InBounds(CellOf(x), CellOf(y))
    requires CellAt(grid, CellOf(x), CellOf(y)) == EMPTY
    requires forall k :: 0 <= k < 4 ==>
      CellAt(grid, CellOf(Corners(x, y, radius)[k].x), CellOf(Corners(x, y, radius)[k].y)) == EMPTY
    ensures !CheckGridCollision(grid, doors, x, y, radius)
  {
    CollisionIff(grid, doors, x, y, radius);
  }

  lemma WallCornerBlocks(grid: Map, doors: seq<Door>, x: real, y: real, radius: real, k: nat)
    requires k < 4
    requires InBounds(CellOf(Corners(x, y, radius)[k].x), CellOf(Corners(x, y, radius)[k].y))
    requires CellAt(grid, CellOf(Corners(x, y, radius)[k].x), CellOf(Corners(x, y, radius)[k].y)) == WALL
    ensures CheckGridCollision(grid, doors, x, y, radius)
  {
    CollisionIff(grid, doors, x, y, radius);
  }

  /** Two well-formed maps that agree on every in-bounds cell are equal. */
  lemma CellwiseEqual(g: Map, h: Map)
    requires WellFormed(g) && WellFormed(h)
    requires forall y, x :: InBounds(x, y) ==> CellAt(g, x, y) == CellAt(h, x, y)
    ensures g == h
  {
    forall j | 0 <= j < MAP_HEIGHT ensures g[j] == h[j] {
      forall i | 0 <= i < MAP_WIDTH ensures g[j][i] == h[j][i] {
        assert CellAt(g, i, j) == CellAt(h, i, j);
      }
    }
  }
}
