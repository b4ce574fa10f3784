/** The per-column ray march of `castRay` (game.js): a DDA walk over the
    tile grid from the player's cell until the ray leaves the grid, meets a
    wall or meets a locked door, bounded by twice the larger grid dimension.
    `sin` and `cos` of the ray angle are inputs: the model works over
    unbounded reals and does not compute transcendental functions. */
module Raycast {
  import opened Common
  import opened Grid

  const EPSILON: real := 0.0001
  const MAX_DEPTH: real := 800.0
  const DOOR_WALL_TYPE: int := 3
  const MAX_ITERATIONS: int := MaxInt(MAP_WIDTH, MAP_HEIGHT) * 2

  /** What the ray sees: the structural map, the texture-id map and the doors. */
  datatype World = World(grid: Map, wallTypes: Map, doors: seq<Door>)

  /** The fixed quantities of one ray: per-axis step distances and directions. */
  datatype Ray = Ray(deltaX: real, deltaY: real, stepX: int, stepY: int)

  /** The variables the DDA loop updates. */
  datatype Dda = Dda(sideDistX: real, sideDistY: real, mapX: int, mapY: int, side: int)

  /** Where a walk ended and how many loop iterations it took. */
  datatype Walk = Walk(last: Dda, steps: nat)

  datatype RayHit = RayHit(distance: real, side: int, wallType: int, mapX: int, mapY: int, textureX: real)

  /** The division-by-zero guard: a component of magnitude below EPSILON
      becomes +-EPSILON, keeping its sign (zero counts as positive). */
  function ClampComponent(v: real): (r: real)
    ensures Abs(r) >= EPSILON
    ensures r < 0.0 <==> v < 0.0
    ensures Abs(v) >= EPSILON ==> r == v
    ensures Abs(v) < EPSILON ==> Abs(r) == EPSILON
  {
    if Abs(v) < EPSILON then (if v < 0.0 then -EPSILON else EPSILON) else v
  }

  /** The stop rule applied after every step. */
  predicate Stops(w: World, cx: int, cy: int) {
    if !InBounds(cx, cy) then true
    else if CellAt(w.grid, cx, cy) == WALL then true
    else CellAt(w.grid, cx, cy) == DOOR && LockedDoorAt(w.doors, cx, cy)
  }

  /** A ray stops in exactly the in-bounds cells that block movement, and at the
      grid's edge: a locked door is a wall to both, an unlocked door to neither. */
  lemma StopsIffBlocks(w: World, cx: int, cy: int)
    ensures Stops(w, cx, cy) <==> !InBounds(cx, cy) || CellBlocks(w.grid, w.doors, cx, cy)
  {
  }

  /** `this.wallTypes[cy][cx]` when present and non-zero, otherwise 1. */
  function WallTypeAt(wallTypes: Map, cx: int, cy: int): (r: int)
    ensures r != 0
  {
    if 0 <= cy < |wallTypes| && 0 <= cx < |wallTypes[cy]| && wallTypes[cy][cx] != 0
    then wallTypes[cy][cx] else 1
  }

  /** The wall type the loop leaves behind at the cell where it ended. */
  function HitWallType(w: World, cx: int, cy: int): (r: int)
    ensures r != 0
  {
    if !InBounds(cx, cy) then 1
    else if CellAt(w.grid, cx, cy) == WALL then WallTypeAt(w.wallTypes, cx, cy)
    else if CellAt(w.grid, cx, cy) == DOOR && LockedDoorAt(w.doors, cx, cy) then DOOR_WALL_TYPE
    else 1
  }

  /** Out of bounds gives texture 1, a wall its own texture id (1 when that
      entry is 0), a locked door texture 3, and a walk that ran out of
      iterations on an open cell keeps the initial 1. */
  lemma HitWallTypeCases(w: World, cx: int, cy: int)
    ensures !InBounds(cx, cy) ==> HitWallType(w, cx, cy) == 1
    ensures InBounds(cx, cy) && CellAt(w.grid, cx, cy) == WALL && 0 <= cy < |w.wallTypes| && 0 <= cx < |w.wallTypes[cy]| ==>
      (w.wallTypes[cy][cx] != 0 ==> HitWallType(w, cx, cy) == w.wallTypes[cy][cx])
      && (w.wallTypes[cy][cx] == 0 ==> HitWallType(w, cx, cy) == 1)
    ensures InBounds(cx, cy) && CellAt(w.grid, cx, cy) == WALL && !(0 <= cy < |w.wallTypes| && 0 <= cx < |w.wallTypes[cy]|) ==>
      HitWallType(w, cx, cy) == 1
    ensures InBounds(cx, cy) && CellAt(w.grid, cx, cy) == DOOR && LockedDoorAt(w.doors, cx, cy) ==>
      HitWallType(w, cx, cy) == DOOR_WALL_TYPE
    ensures !Stops(w, cx, cy) ==> HitWallType(w, cx, cy) == 1
  {
  }

  /** deltaX = |1/cos|, deltaY = |1/sin|, steps from the signs. */
  function RayFor(sinC: real, cosC: real): Ray
    requires sinC != 0.0 && cosC != 0.0
  {
    Ray(Abs(1.0 / cosC), Abs(1.0 / sinC), if cosC < 0.0 then -1 else 1, if sinC < 0.0 then -1 else 1)
  }

  predicate ValidRay(ray: Ray) {
    (ray.stepX == 1 || ray.stepX == -1) && (ray.stepY == 1 || ray.stepY == -1)
  }

  /** The state before the first iteration: distances to the first grid line on each axis. */
  function StartDda(px: real, py: real, ray: Ray): Dda {
    var mapX, mapY := CellOf(px), CellOf(py);
    Dda(if ray.stepX == -1 then (px / TILE_SIZE - mapX as real) * ray.deltaX
        else (mapX as real + 1.0 - px / TILE_SIZE) * ray.deltaX,
        if ray.stepY == -1 then (py / TILE_SIZE - mapY as real) * ray.deltaY
        else (mapY as real + 1.0 - py / TILE_SIZE) * ray.deltaY,
        mapX, mapY, 0)
  }

  /** One loop iteration: step along X when `sideDistX < sideDistY`, else along Y. */
  function Advance(ray: Ray, d: Dda): Dda {
    if d.sideDistX < d.sideDistY then
      d.(sideDistX := d.sideDistX + ray.deltaX, mapX := d.mapX + ray.stepX, side := 0)
    else
      d.(sideDistY := d.sideDistY + ray.deltaY, mapY := d.mapY + ray.stepY, side := 1)
  }

  /** Each iteration changes exactly one of the two cell indices, by its step;
      an exact tie of the side distances steps in Y and records side 1. */
  lemma AdvanceStepsOneAxis(ray: Ray, d: Dda)
    requires ValidRay(ray)
    ensures var n := Advance(ray, d);
      (n.side == 0 && n.mapX == d.mapX + ray.stepX && n.mapY == d.mapY && n.mapX != d.mapX)
      || (n.side == 1 && n.mapY == d.mapY + ray.stepY && n.mapX == d.mapX && n.mapY != d.mapY)
    ensures Advance(ray, d).side == 0 <==> d.sideDistX < d.sideDistY
    ensures d.sideDistX == d.sideDistY ==> Advance(ray, d).side == 1 && Advance(ray, d).mapY == d.mapY + ray.stepY
  {
  }

  /** `n` unconditional iterations: the independent reference for `Run`. */
  function AdvanceN(ray: Ray, d: Dda, n: nat): Dda
    decreases n
  {
    if n == 0 then d else AdvanceN(ray, Advance(ray, d), n - 1)
  }

  /** The loop `while (!hit && iterations < maxIterations)` as a function of the remaining fuel. */
  function Run(w: World, ray: Ray, d: Dda, fuel: nat): (r: Walk)
    ensures r.steps <= fuel
    ensures fuel > 0 ==> r.steps > 0
    decreases fuel
  {
    if fuel == 0 then Walk(d, 0)
    else
      var n := Advance(ray, d);
      if Stops(w, n.mapX, n.mapY) then Walk(n, 1)
      else
        var rest := Run(w, ray, n, fuel - 1);
        Walk(rest.last, rest.steps + 1)
  }

  /** The walk ends at the FIRST stopping cell along the ray, or after
      exactly `fuel` steps when no cell on the way stops it. */
  lemma {:induction false} RunIsFirstStop(w: World, ray: Ray, d: Dda, fuel: nat)
    requires fuel >= 1
    ensures var r := Run(w, ray, d, fuel);
      1 <= r.steps <= fuel
      && r.last == AdvanceN(ray, d, r.steps)
      && (forall k :: 1 <= k < r.steps ==> !Stops(w, AdvanceN(ray, d, k).mapX, AdvanceN(ray, d, k).mapY))
      && (Stops(w, r.last.mapX, r.last.mapY) || r.steps == fuel)
    decreases fuel
  {
    var n := Advance(ray, d);
    if !Stops(w, n.mapX, n.mapY) && fuel > 1 {
      RunIsFirstStop(w, ray, n, fuel - 1);
      var rest := Run(w, ray, n, fuel - 1);
      forall k | 1 <= k < rest.steps + 1
        ensures !Stops(w, AdvanceN(ray, d, k).mapX, AdvanceN(ray, d, k).mapY)
      {
        assert AdvanceN(ray, d, k) == AdvanceN(ray, n, k - 1);
      }
    }
  }

  /** The walk moves monotonically in the step directions: after `n`
      iterations the cell is exactly `n` grid steps (Manhattan) from the start. */
  lemma {:induction false} AdvanceNDisplacement(ray: Ray, d: Dda, n: nat)
    requires ValidRay(ray)
    ensures var e := AdvanceN(ray, d, n);
      AbsInt(e.mapX - d.mapX) + AbsInt(e.mapY - d.mapY) == n
      && (ray.stepX == 1 ==> e.mapX >= d.mapX) && (ray.stepX == -1 ==> e.mapX <= d.mapX)
      && (ray.stepY == 1 ==> e.mapY >= d.mapY) && (ray.stepY == -1 ==> e.mapY <= d.mapY)
    decreases n
  {
    if n > 0 {
      AdvanceNDisplacement(ray, Advance(ray, d), n - 1);
    }
  }

  /** A walk of `steps` iterations ends exactly `steps` grid steps
      (Manhattan) from where it started. */
  lemma RunDisplacement(w: World, ray: Ray, d: Dda, fuel: nat)
    requires ValidRay(ray) && fuel >= 1
    ensures var r := Run(w, ray, d, fuel);
      AbsInt(r.last.mapX - d.mapX) + AbsInt(r.last.mapY - d.mapY) == r.steps <= fuel
  {
    RunIsFirstStop(w, ray, d, fuel);
    AdvanceNDisplacement(ray, d, Run(w, ray, d, fuel).steps);
  }

  /** Signed distance along the ray to the crossed grid line, in tiles. */
  function RawDistance(ray: Ray, d: Dda, px: real, py: real, sinC: real, cosC: real): real
    requires sinC != 0.0 && cosC != 0.0
  {
    if d.side == 0 then (d.mapX as real - px / TILE_SIZE + (1 - ray.stepX) as real / 2.0) / cosC
    else (d.mapY as real - py / TILE_SIZE + (1 - ray.stepY) as real / 2.0) / sinC
  }

  /** The coordinate along the wall face of the hit point, in world units:
      y for a vertical grid line (side 0), x for a horizontal one. */
  function HitOffset(ray: Ray, d: Dda, px: real, py: real, sinC: real, cosC: real): real
    requires sinC != 0.0 && cosC != 0.0
  {
    var t := RawDistance(ray, d, px, py, sinC, cosC) * TILE_SIZE;
    if d.side == 0 then py + t * sinC else px + t * cosC
  }

  /** The hit coordinate as game.js:1113 and game.js:1116 compute it: the
      distance is still in tiles but is added to a coordinate in world units. */
  function HitOffsetAsWritten(ray: Ray, d: Dda, px: real, py: real, sinC: real, cosC: real): real
    requires sinC != 0.0 && cosC != 0.0
  {
    var t := RawDistance(ray, d, px, py, sinC, cosC);
    if d.side == 0 then py + t * sinC else px + t * cosC
  }

  lemma DivMul(a: real, c: real)
    requires c != 0.0
    ensures (a / c) * c == a
  {
  }

  /** The point at `HitOffset` is where the ray meets the grid line the
      last step crossed: going the pixel distance t along the ray from the
      player reaches that line, and HitOffset is the other coordinate there. */
  lemma HitPointOnCrossedGridLine(ray: Ray, d: Dda, px: real, py: real, sinC: real, cosC: real)
    requires sinC != 0.0 && cosC != 0.0
    ensures var t := RawDistance(ray, d, px, py, sinC, cosC) * TILE_SIZE;
      if d.side == 0 then
        px + t * cosC == TILE_SIZE * (d.mapX as real + (1 - ray.stepX) as real / 2.0)
        && HitOffset(ray, d, px, py, sinC, cosC) == py + t * sinC
      else
        py + t * sinC == TILE_SIZE * (d.mapY as real + (1 - ray.stepY) as real / 2.0)
        && HitOffset(ray, d, px, py, sinC, cosC) == px + t * cosC
  {
    if d.side == 0 {
      var a := d.mapX as real - px / TILE_SIZE + (1 - ray.stepX) as real / 2.0;
      DivMul(a, cosC);
      assert RawDistance(ray, d, px, py, sinC, cosC) * TILE_SIZE * cosC == (a / cosC) * cosC * TILE_SIZE;
    } else {
      var a := d.mapY as real - py / TILE_SIZE + (1 - ray.stepY) as real / 2.0;
      DivMul(a, sinC);
      assert RawDistance(ray, d, px, py, sinC, cosC) * TILE_SIZE * sinC == (a / sinC) * sinC * TILE_SIZE;
    }
  }

  /** Truncation toward zero. */
  function Trunc(r: real): int {
    if r >= 0.0 then r.Floor else -((-r).Floor)
  }

  /** JavaScript's `a % TILE_SIZE` on numbers: the remainder takes the sign of `a`. */
  function TileRem(a: real): (r: real)
    ensures -TILE_SIZE < r < TILE_SIZE
    ensures a >= 0.0 ==> r >= 0.0
    ensures a <= 0.0 ==> r <= 0.0
  {
    var q := a / TILE_SIZE;
    if q >= 0.0 then a - TILE_SIZE * (q.Floor as real)
    else a + TILE_SIZE * ((-q).Floor as real)
  }

  /** `textureX = (offset % TILE_SIZE) / TILE_SIZE`, lifted by 1 when negative. */
  function TextureCoord(offset: real): (u: real)
    ensures 0.0 <= u < 1.0
  {
    var v := TileRem(offset) / TILE_SIZE;
    if v < 0.0 then v + 1.0 else v
  }

  /** The texture coordinate is the fractional part of the offset measured
      in tiles: where within its tile the hit point lies. */
  lemma TextureCoordIsFraction(offset: real)
    ensures TextureCoord(offset) == offset / TILE_SIZE - (offset / TILE_SIZE).Floor as real
  {
    var q := offset / TILE_SIZE;
    if q < 0.0 {
      var f := (-q).Floor;
      if f as real == -q {
        assert q.Floor == -f;
      } else {
        assert q.Floor == -f - 1;
      }
    }
  }

  /** `Math.max(1, Math.min(distance, MAX_DEPTH))`. */
  function ClampDepth(dist: real): (r: real)
    ensures 1.0 <= r <= MAX_DEPTH
    ensures 1.0 <= dist <= MAX_DEPTH ==> r == dist
  {
    Clamp(1.0, MAX_DEPTH, dist)
  }

  /** The DDA loop of `castRay` (game.js:1075-1108): from `start`, step until
      a stopping cell or until MAX_ITERATIONS iterations. */
  method March(w: World, ray: Ray, start: Dda) returns (last: Dda, iterations: nat, wallType: int)
    ensures Walk(last, iterations) == Run(w, ray, start, MAX_ITERATIONS)
    ensures wallType == HitWallType(w, last.mapX, last.mapY)
    ensures start.side == 0 || start.side == 1 ==> last.side == 0 || last.side == 1
  {
    var sideDistX, sideDistY, deltaX, deltaY := start.sideDistX, start.sideDistY, ray.deltaX, ray.deltaY;
    var stepX, stepY := ray.stepX, ray.stepY;
    var hit := false;
    var side := start.side;
    var currentMapX, currentMapY := start.mapX, start.mapY;
    wallType := 1;
    iterations := 0;
    var maxIterations := MaxInt(MAP_WIDTH, MAP_HEIGHT) * 2;

    ghost var total := Run(w, ray, start, maxIterations);
    while !hit && iterations < maxIterations
      invariant 0 <= iterations <= maxIterations
      invariant start.side == 0 || start.side == 1 ==> side == 0 || side == 1
      invariant hit ==> iterations > 0
      invariant hit ==> total == Walk(Dda(sideDistX, sideDistY, currentMapX, currentMapY, side), iterations)
      invariant hit ==> wallType == HitWallType(w, currentMapX, currentMapY)
      invariant !hit ==> wallType == 1
      invariant !hit && iterations > 0 ==> !Stops(w, currentMapX, currentMapY)
      invariant !hit ==>
        var rest := Run(w, ray, Dda(sideDistX, sideDistY, currentMapX, currentMapY, side), maxIterations - iterations);
        total == Walk(rest.last, rest.steps + iterations)
    {
      ghost var d := Dda(sideDistX, sideDistY, currentMapX, currentMapY, side);
      iterations := iterations + 1;
      if sideDistX < sideDistY {
        sideDistX := sideDistX + deltaX;
        currentMapX := currentMapX + stepX;
        side := 0;
      } else {
        sideDistY := sideDistY + deltaY;
        currentMapY := currentMapY + stepY;
        side := 1;
      }
      ghost var n := Dda(sideDistX, sideDistY, currentMapX, currentMapY, side);
      assert n == Advance(ray, d);
      if !InBounds(currentMapX, currentMapY) {
        hit := true;
        wallType := 1;
      } else {
        var cell := CellAt(w.grid, currentMapX, currentMapY);
        if cell == WALL {
          hit := true;
          wallType := WallTypeAt(w.wallTypes, currentMapX, currentMapY);
        } else if cell == DOOR {
          var door := DoorAt(w.doors, currentMapX, currentMapY);
          if door.Some? && w.doors[door.value].locked {
            hit := true;
            wallType := DOOR_WALL_TYPE;
          }
        }
      }
      assert hit == Stops(w, n.mapX, n.mapY);
    }
    last := Dda(sideDistX, sideDistY, currentMapX, currentMapY, side);
  }

  /** The set-up of `castRay` (game.js:1032-1071): the clamped direction's
      step lengths, step directions and distances to the first grid lines. */
  method SetUpRay(px: real, py: real, sinC: real, cosC: real) returns (ray: Ray, start: Dda)
    requires sinC != 0.0 && cosC != 0.0
    ensures ray == RayFor(sinC, cosC) && ValidRay(ray)
    ensures start == StartDda(px, py, ray)
  {
    var deltaX := Abs(1.0 / cosC);
    var deltaY := Abs(1.0 / sinC);
    var mapX := CellOf(px);
    var mapY := CellOf(py);
    var stepX, stepY: int;
    var sideDistX, sideDistY: real;
    if cosC < 0.0 {
      stepX := -1;
      sideDistX := (px / TILE_SIZE - mapX as real) * deltaX;
    } else {
      stepX := 1;
      sideDistX := (mapX as real + 1.0 - px / TILE_SIZE) * deltaX;
    }
    if sinC < 0.0 {
      stepY := -1;
      sideDistY := (py / TILE_SIZE - mapY as real) * deltaY;
    } else {
      stepY := 1;
      sideDistY := (mapY as real + 1.0 - py / TILE_SIZE) * deltaY;
    }
    ray := Ray(deltaX, deltaY, stepX, stepY);
    start := Dda(sideDistX, sideDistY, mapX, mapY, 0);
    assert start.sideDistX == StartDda(px, py, ray).sideDistX;
    assert start.sideDistY == StartDda(px, py, ray).sideDistY;
  }

  /** The tail of `castRay` (game.js:1110-1143): the clamped distance along
      the ray in world units, texture coordinate of the hit point, depth clamp. */
  method Measure(ray: Ray, last: Dda, px: real, py: real, sinC: real, cosC: real) returns (distance: real, textureX: real)
    requires sinC != 0.0 && cosC != 0.0
    ensures distance == ClampDepth(Abs(RawDistance(ray, last, px, py, sinC, cosC) * TILE_SIZE))
    ensures textureX == TextureCoord(HitOffset(ray, last, px, py, sinC, cosC))
  {
    var hitOffset: real;
    if last.side == 0 {
      distance := (last.mapX as real - px / TILE_SIZE + (1 - ray.stepX) as real / 2.0) / cosC;
      hitOffset := py + distance * TILE_SIZE * sinC;
    } else {
      distance := (last.mapY as real - py / TILE_SIZE + (1 - ray.stepY) as real / 2.0) / sinC;
      hitOffset := px + distance * TILE_SIZE * cosC;
    }
    assert distance == RawDistance(ray, last, px, py, sinC, cosC);
    assert hitOffset == HitOffset(ray, last, px, py, sinC, cosC);
    distance := Abs(distance * TILE_SIZE);
    textureX := TileRem(hitOffset) / TILE_SIZE;
    if textureX < 0.0 {
      textureX := textureX + 1.0;
    }
    distance := Clamp(1.0, MAX_DEPTH, distance);
  }

  /** `castRay(angle)` for a ray whose angle has sine `sinA` and cosine `cosA`,
      cast from the player position (px, py). */
  method CastRay(w: World, px: real, py: real, sinA: real, cosA: real) returns (r: RayHit)
    ensures var sinC, cosC := ClampComponent(sinA), ClampComponent(cosA);
      var ray := RayFor(sinC, cosC);
      var walk := Run(w, ray, StartDda(px, py, ray), MAX_ITERATIONS);
      r.mapX == walk.last.mapX && r.mapY == walk.last.mapY && r.side == walk.last.side
      && r.distance == ClampDepth(Abs(RawDistance(ray, walk.last, px, py, sinC, cosC) * TILE_SIZE))
      && r.textureX == TextureCoord(HitOffset(ray, walk.last, px, py, sinC, cosC))
    ensures r.wallType == HitWallType(w, r.mapX, r.mapY)
    ensures 1.0 <= r.distance <= MAX_DEPTH
    ensures 0.0 <= r.textureX < 1.0
    ensures r.side == 0 || r.side == 1
    ensures AbsInt(r.mapX - CellOf(px)) + AbsInt(r.mapY - CellOf(py)) <= MAX_ITERATIONS
  {
    var sinC := ClampComponent(sinA);
    var cosC := ClampComponent(cosA);
    var ray, start := SetUpRay(px, py, sinC, cosC);
    var last, iterations, wallType := March(w, ray, start);
    var distance, textureX := Measure(ray, last, px, py, sinC, cosC);
    r := RayHit(distance, last.side, wallType, last.mapX, last.mapY, textureX);
    RunDisplacement(w, ray, start, MAX_ITERATIONS);
  }
}
