/** The game object of game.js as a class whose methods update its fields
    in place, as `DoomChemistryGame` does: movement, item pickup, station
    activation, interaction, answering and solving puzzles, the effect
    updates and one frame of `update`. Each method is proved to leave the
    state that the value-level definitions of `Movement`, `Progression`
    and `Effects` describe, and to keep `Valid`. */
module Engine {
  import opened Common
  import opened Grid
  import opened Raycast
  import opened Movement
  import opened Progression
  import opened Level
  import opened Hud
  import opened Effects

  class Player {
    var x: real
    var y: real
    var angle: real
    var health: int
    var keys: int
    const speed: real

    /** The player of the constructor: tile (1, 1) centre, facing angle 0. */
    constructor ()
      ensures x == 1.5 * TILE_SIZE && y == 1.5 * TILE_SIZE && angle == 0.0
      ensures health == MAX_HEALTH && keys == 0 && speed == 3.0
    {
      x, y, angle := 1.5 * TILE_SIZE, 1.5 * TILE_SIZE, 0.0;
      health, keys := MAX_HEALTH, 0;
      speed := 3.0;
    }
  }

  /** The key handling at the top of `handleMovement` (game.js:933-949). */
  method MovementVector(keyW: bool, keyS: bool, keyA: bool, keyD: bool, c: real, s: real, speed: real)
    returns (dx: real, dy: real)
    ensures Point(dx, dy) == MoveVector(keyW, keyS, keyA, keyD, c, s, speed)
  {
    dx, dy := 0.0, 0.0;
    if keyW {
      dx, dy := c * speed, s * speed;
    }
    if keyS {
      dx, dy := -c * speed, -s * speed;
    }
    if keyA {
      dx, dy := dx + s * speed, dy - c * speed;
    }
    if keyD {
      dx, dy := dx - s * speed, dy + c * speed;
    }
  }

  /** The loop of `checkItemCollisions()` (game.js:1146-1176): a backward
      walk over the items, from the last to the first, that applies and
      splices out every item in reach of the player at (px, py). The list,
      health and keys it updates are passed in and returned. */
  method PickUpItems(px: real, py: real, items: seq<Item>, health0: int, keys0: int)
    returns (list: seq<Item>, health: int, keys: int)
    requires 0 <= health0 <= MAX_HEALTH
    requires forall it :: it in items ==> it.value >= 0
    ensures list == Kept(px, py, items)
    ensures Stats(health, keys) == Collect(px, py, items, Stats(health0, keys0))
    ensures 0 <= health <= MAX_HEALTH
    ensures forall it :: it in list ==> it.value >= 0
  {
    list, health, keys := items, health0, keys0;
    ghost var st0 := Stats(health, keys);
    var i := |list| - 1;
    while i >= 0
      invariant -1 <= i < |items|
      invariant list == items[..i + 1] + Kept(px, py, items[i + 1..])
      invariant Stats(health, keys) == Collect(px, py, items[i + 1..], st0)
      invariant 0 <= health <= MAX_HEALTH
    {
      SpliceAt(items, Kept(px, py, items[i + 1..]), i);
      PickupStep(px, py, items, i, st0);
      var item := list[i];
      assert item in items;
      var itemX, itemY := TileCentre(item.mapX), TileCentre(item.mapY);
      if DistSq(px, py, itemX, itemY) < PICKUP_RANGE_SQ {
        ghost var st := Stats(health, keys);
        match item.kind {
          case HealthPack =>
            health := MinInt(MAX_HEALTH, health + item.value);
          case KeyItem =>
            keys := keys + item.value;
          case OtherItem =>
        }
        assert Stats(health, keys) == ApplyItem(item, st);
        list := list[..i] + list[i + 1..];
      }
      i := i - 1;
    }
    assert items[0..] == items;
    forall it | it in list ensures it.value >= 0 {
      KeptIff(px, py, items, it);
    }
  }

  class Game {
    var grid: Map
    const wallTypes: Map
    var doors: seq<Door>
    var stations: seq<Station>
    var items: seq<Item>
    const puzzles: seq<GamePuzzle>
    const player: Player
    var score: int
    var puzzlesSolved: int
    var currentPuzzle: Option<GamePuzzle>
    var gameStarted: bool
    var particles: seq<Particle>
    var explosions: seq<Ring>

    /** The invariant every step keeps: the map has the level's size, the
        health stays in [0, 100], no item has a negative value, and the
        player never stands inside a wall or a locked door. */
    ghost predicate Valid()
      reads this, player
    {
      WellFormed(grid)
      && 0 <= player.health <= MAX_HEALTH
      && (forall it :: it in items ==> it.value >= 0)
      && !CheckGridCollision(grid, doors, player.x, player.y, PLAYER_RADIUS)
    }

    function LabState(): Lab
      reads this
    {
      Lab(puzzlesSolved, score, doors, stations)
    }

    /** The constructor followed by `generateLevel`. */
    constructor ()
      ensures Valid() && fresh(player)
      ensures grid == GeneratedGrid && wallTypes == InitialWallTypes
      ensures doors == InitialDoors && stations == InitialStations && items == InitialItems
      ensures puzzles == Level.Puzzles
      ensures score == 0 && puzzlesSolved == 0 && currentPuzzle == None && !gameStarted
      ensures particles == [] && explosions == []
      ensures player.x == 96.0 && player.y == 96.0 && player.health == MAX_HEALTH && player.keys == 0
    {
      GeneratedGridIsMarked();
      var g := MarkLevel(InitialGrid, InitialStations, InitialItems);
      GeneratedLevelIsPlayable();
      CellwiseEqual(g, GeneratedGrid);
      grid := g;
      wallTypes := InitialWallTypes;
      doors := InitialDoors;
      stations := InitialStations;
      items := InitialItems;
      puzzles := Level.Puzzles;
      player := new Player();
      score, puzzlesSolved := 0, 0;
      currentPuzzle := None;
      gameStarted := false;
      particles, explosions := [], [];
    }

    /** `handleMovement()` for the given pressed keys and a heading with
        cosine `c` and sine `s`. */
    method HandleMovement(keyW: bool, keyS: bool, keyA: bool, keyD: bool, c: real, s: real)
      requires Valid()
      modifies player
      ensures Valid()
      ensures var v := MoveVector(keyW, keyS, keyA, keyD, c, s, player.speed);
        Point(player.x, player.y) == TryMove(grid, doors, old(player.x), old(player.y), v.x, v.y)
      ensures player.angle == old(player.angle) && player.health == old(player.health)
      ensures player.keys == old(player.keys)
    {
      var dx, dy := MovementVector(keyW, keyS, keyA, keyD, c, s, player.speed);
      var newX, newY := player.x + dx, player.y + dy;
      ghost var x0, y0 := player.x, player.y;
      if !CheckGridCollision(grid, doors, newX, player.y, PLAYER_RADIUS) {
        player.x := newX;
      }
      if !CheckGridCollision(grid, doors, player.x, newY, PLAYER_RADIUS) {
        player.y := newY;
      }
      assert Point(player.x, player.y) == TryMove(grid, doors, x0, y0, dx, dy);
      TryMoveStaysFree(grid, doors, x0, y0, dx, dy);
    }

    /** A mouse movement of `movementX` pixels. */
    method Look(movementX: real)
      modifies player
      ensures 0.0 <= player.angle <= Hud.TWO_PI
      ensures exists k :: player.angle == Turned(Turn(old(player.angle), movementX), k)
      ensures player.x == old(player.x) && player.y == old(player.y)
      ensures player.health == old(player.health) && player.keys == old(player.keys)
    {
      player.angle := Hud.Look(player.angle, movementX);
    }

    /** `checkItemCollisions()`: takes every item strictly within 30 units
        of its tile centre, applies it and splices it out. */
    method CheckItemCollisions()
      requires Valid()
      modifies this, player
      ensures Valid()
      ensures items == Kept(old(player.x), old(player.y), old(items))
      ensures Stats(player.health, player.keys)
           == Collect(old(player.x), old(player.y), old(items), Stats(old(player.health), old(player.keys)))
      ensures player.x == old(player.x) && player.y == old(player.y) && player.angle == old(player.angle)
      ensures grid == old(grid) && doors == old(doors) && stations == old(stations)
      ensures score == old(score) && puzzlesSolved == old(puzzlesSolved)
      ensures currentPuzzle == old(currentPuzzle) && gameStarted == old(gameStarted)
      ensures particles == old(particles) && explosions == old(explosions)
    {
      var list, health, keys := PickUpItems(player.x, player.y, items, player.health, player.keys);
      items := list;
      player.health, player.keys := health, keys;
    }

    /** `updatePuzzleStations()`. */
    method UpdatePuzzleStations()
      requires Valid()
      modifies this
      ensures Valid()
      ensures stations == ActivateStations(old(stations), puzzlesSolved)
      ensures grid == old(grid) && doors == old(doors) && items == old(items)
      ensures score == old(score) && puzzlesSolved == old(puzzlesSolved)
      ensures currentPuzzle == old(currentPuzzle) && gameStarted == old(gameStarted)
      ensures particles == old(particles) && explosions == old(explosions)
    {
      for i := 0 to |stations|
        invariant |stations| == |old(stations)|
        invariant forall j :: 0 <= j < i ==> stations[j] == ActivateStations(old(stations), puzzlesSolved)[j]
        invariant forall j :: i <= j < |stations| ==> stations[j] == old(stations)[j]
        invariant grid == old(grid) && doors == old(doors) && items == old(items)
        invariant score == old(score) && puzzlesSolved == old(puzzlesSolved)
        invariant currentPuzzle == old(currentPuzzle) && gameStarted == old(gameStarted)
        invariant particles == old(particles) && explosions == old(explosions)
      {
        if stations[i].puzzleId <= puzzlesSolved + 1 {
          stations := stations[i := stations[i].(active := true)];
        }
      }
    }

    /** `interact()`: the first active station within reach opens its
        puzzle; a station whose puzzle id is unknown, or no station at all,
        leaves everything as it was. */
    method Interact()
      modifies this
      ensures currentPuzzle ==
        match Progression.Interact(stations, puzzles, player.x, player.y)
        case None => old(currentPuzzle)
        case Some(p) => Some(p)
      ensures grid == old(grid) && doors == old(doors) && stations == old(stations) && items == old(items)
      ensures score == old(score) && puzzlesSolved == old(puzzlesSolved) && gameStarted == old(gameStarted)
      ensures particles == old(particles) && explosions == old(explosions)
    {
      var i := 0;
      while i < |stations|
        invariant 0 <= i <= |stations|
        invariant forall j :: 0 <= j < i ==> !Usable(player.x, player.y, stations[j])
      {
        var station := stations[i];
        if station.active {
          var stationX, stationY := TileCentre(station.mapX), TileCentre(station.mapY);
          if DistSq(player.x, player.y, stationX, stationY) < INTERACT_RANGE_SQ {
            assert InteractTarget(stations, player.x, player.y) == Some(i);
            ShowPuzzle(station.puzzleId);
            return;
          }
        }
        i := i + 1;
      }
    }

    /** `showPuzzle(puzzleId)`: an unknown id returns without a change. */
    method ShowPuzzle(puzzleId: int)
      modifies this
      ensures currentPuzzle == match PuzzleById(puzzles, puzzleId)
        case None => old(currentPuzzle)
        case Some(p) => Some(p)
      ensures grid == old(grid) && doors == old(doors) && stations == old(stations) && items == old(items)
      ensures score == old(score) && puzzlesSolved == old(puzzlesSolved) && gameStarted == old(gameStarted)
      ensures particles == old(particles) && explosions == old(explosions)
    {
      var found := PuzzleById(puzzles, puzzleId);
      if found.None? {
        return;
      }
      currentPuzzle := found;
    }

    /** `solvePuzzle(puzzle)`: one more solved, the reward added, the first
        door and the first station with the puzzle's id unlocked and
        switched off; nothing guards against solving a puzzle twice. */
    method SolvePuzzle(p: GamePuzzle)
      requires Valid()
      modifies this
      ensures Valid()
      ensures LabState() == Solve(old(LabState()), p)
      ensures grid == old(grid) && items == old(items)
      ensures currentPuzzle == old(currentPuzzle) && gameStarted == old(gameStarted)
      ensures particles == old(particles) && explosions == old(explosions)
    {
      puzzlesSolved := puzzlesSolved + 1;
      score := score + p.reward;
      var door := FirstIndex(doors, (d: Door) => d.puzzleId == p.id);
      if door.Some? {
        UnlockMakesNothingBlock(grid, doors, p.id, player.x, player.y, PLAYER_RADIUS);
        doors := doors[door.value := doors[door.value].(locked := false)];
      }
      var station := FirstIndex(stations, (s: Station) => s.puzzleId == p.id);
      if station.Some? {
        stations := stations[station.value := stations[station.value].(active := false)];
      }
    }

    /** `submitPuzzleAnswer()` with the index of the selected option, if
        any, followed at once by what its 2-second timer does: solve on the
        right answer, then close the puzzle either way. */
    method SubmitPuzzleAnswer(selected: Option<int>)
      requires Valid()
      modifies this
      ensures Valid()
      ensures old(currentPuzzle).None? || selected.None? ==>
        currentPuzzle == old(currentPuzzle) && LabState() == old(LabState())
      ensures old(currentPuzzle).Some? && selected.Some? ==>
        currentPuzzle == None
        && LabState() == (if IsCorrect(old(currentPuzzle).value, selected.value)
                          then Solve(old(LabState()), old(currentPuzzle).value)
                          else old(LabState()))
      ensures grid == old(grid) && items == old(items) && gameStarted == old(gameStarted)
      ensures particles == old(particles) && explosions == old(explosions)
    {
      if currentPuzzle.None? {
        return;
      }
      if selected.None? {
        return;
      }
      var puzzle := currentPuzzle.value;
      var isCorrect := selected.value == puzzle.correct;
      if isCorrect {
        SolvePuzzle(puzzle);
      }
      currentPuzzle := None;
    }

    /** `updateParticles()`: a backward walk that moves, slows and ages each
        particle and splices out the spent ones. */
    method UpdateParticles()
      modifies this
      ensures particles == TickParticles(old(particles))
      ensures grid == old(grid) && doors == old(doors) && stations == old(stations) && items == old(items)
      ensures score == old(score) && puzzlesSolved == old(puzzlesSolved)
      ensures currentPuzzle == old(currentPuzzle) && gameStarted == old(gameStarted)
      ensures explosions == old(explosions)
    {
      ghost var orig := particles;
      var i := |particles| - 1;
      while i >= 0
        invariant -1 <= i < |orig|
        invariant particles == orig[..i + 1] + TickParticles(orig[i + 1..])
        invariant grid == old(grid) && doors == old(doors) && stations == old(stations) && items == old(items)
        invariant score == old(score) && puzzlesSolved == old(puzzlesSolved)
        invariant currentPuzzle == old(currentPuzzle) && gameStarted == old(gameStarted)
        invariant explosions == old(explosions)
      {
        var p := particles[i];
        assert p == orig[i];
        assert orig[i..][1..] == orig[i + 1..];
        var moved := Particle(p.x + p.vx, p.y + p.vy, p.vx * FRICTION, p.vy * FRICTION, p.life - 1);
        if moved.life <= 0 {
          particles := particles[..i] + particles[i + 1..];
          assert orig[..i + 1][..i] == orig[..i];
        } else {
          particles := particles[..i] + [moved] + particles[i + 1..];
          assert orig[..i + 1][..i] == orig[..i];
        }
        i := i - 1;
      }
      assert orig[0..] == orig;
    }

    /** `updateExplosions()`: grow and age each ring, splice out those
        whose life is over or whose radius passed the maximum. */
    method UpdateExplosions()
      modifies this
      ensures explosions == TickRings(old(explosions))
      ensures grid == old(grid) && doors == old(doors) && stations == old(stations) && items == old(items)
      ensures score == old(score) && puzzlesSolved == old(puzzlesSolved)
      ensures currentPuzzle == old(currentPuzzle) && gameStarted == old(gameStarted)
      ensures particles == old(particles)
    {
      ghost var orig := explosions;
      var i := |explosions| - 1;
      while i >= 0
        invariant -1 <= i < |orig|
        invariant explosions == orig[..i + 1] + TickRings(orig[i + 1..])
        invariant grid == old(grid) && doors == old(doors) && stations == old(stations) && items == old(items)
        invariant score == old(score) && puzzlesSolved == old(puzzlesSolved)
        invariant currentPuzzle == old(currentPuzzle) && gameStarted == old(gameStarted)
        invariant particles == old(particles)
      {
        var e := explosions[i];
        assert e == orig[i];
        assert orig[i..][1..] == orig[i + 1..];
        var grown := e.(radius := e.radius + e.speed, life := e.life - 1);
        if grown.life <= 0 || grown.radius > grown.maxRadius {
          explosions := explosions[..i] + explosions[i + 1..];
          assert orig[..i + 1][..i] == orig[..i];
        } else {
          explosions := explosions[..i] + [grown] + explosions[i + 1..];
          assert orig[..i + 1][..i] == orig[..i];
        }
        i := i - 1;
      }
      assert orig[0..] == orig;
    }

    /** One frame of `update()` for the given keys and heading cosine/sine:
        nothing before the game starts; otherwise move, pick up, activate
        stations, age the effects, and report the win test. */
    method Update(keyW: bool, keyS: bool, keyA: bool, keyD: bool, c: real, s: real) returns (won: bool)
      requires Valid()
      modifies this, player
      ensures Valid()
      ensures !old(gameStarted) ==> !won && LabState() == old(LabState()) && items == old(items)
      ensures !old(gameStarted) ==>
        player.x == old(player.x) && player.y == old(player.y)
        && player.health == old(player.health) && player.keys == old(player.keys)
        && particles == old(particles) && explosions == old(explosions)
      ensures old(gameStarted) ==>
        var v := MoveVector(keyW, keyS, keyA, keyD, c, s, player.speed);
        var p := TryMove(old(grid), old(doors), old(player.x), old(player.y), v.x, v.y);
        player.x == p.x && player.y == p.y
        && items == Kept(p.x, p.y, old(items))
        && Stats(player.health, player.keys) == Collect(p.x, p.y, old(items), Stats(old(player.health), old(player.keys)))
      ensures old(gameStarted) ==> stations == ActivateStations(old(stations), puzzlesSolved)
      ensures old(gameStarted) ==> particles == TickParticles(old(particles)) && explosions == TickRings(old(explosions))
      ensures puzzlesSolved == old(puzzlesSolved) && score == old(score) && doors == old(doors)
      ensures grid == old(grid) && player.angle == old(player.angle)
      ensures currentPuzzle == old(currentPuzzle) && gameStarted == old(gameStarted)
      ensures won <==> old(gameStarted) && HasWon(LabState())
    {
      if !gameStarted {
        return false;
      }
      HandleMovement(keyW, keyS, keyA, keyD, c, s);
      CheckItemCollisions();
      UpdatePuzzleStations();
      UpdateParticles();
      UpdateExplosions();
      won := puzzlesSolved >= PUZZLE_COUNT;
    }

    /** `castRay` from the player's position through the current world. */
    method CastRayFromPlayer(sinA: real, cosA: real) returns (r: RayHit)
      ensures var sinC, cosC := ClampComponent(sinA), ClampComponent(cosA);
        var ray := RayFor(sinC, cosC);
        var walk := Run(World(grid, wallTypes, doors), ray, StartDda(player.x, player.y, ray), Raycast.MAX_ITERATIONS);
        r.mapX == walk.last.mapX && r.mapY == walk.last.mapY && r.side == walk.last.side
        && r.distance == ClampDepth(Abs(RawDistance(ray, walk.last, player.x, player.y, sinC, cosC) * TILE_SIZE))
        && r.textureX == TextureCoord(HitOffset(ray, walk.last, player.x, player.y, sinC, cosC))
      ensures r.wallType == HitWallType(World(grid, wallTypes, doors), r.mapX, r.mapY)
      ensures 1.0 <= r.distance <= Raycast.MAX_DEPTH && 0.0 <= r.textureX < 1.0
    {
      r := CastRay(World(grid, wallTypes, doors), player.x, player.y, sinA, cosA);
    }
  }
}
