/** The fixed level of `generateLevel` (game.js:830-894): the 12 x 9 map,
    the texture-id map, six doors, six puzzle stations and three items, and
    the two passes that mark station and item cells in the map. */
module Level {
  import opened Common
  import opened Grid
  import opened Progression

  /** The map before marking: 1 wall, 0 empty, 2 door. */
  const InitialGrid: Map := [
    [1,1,1,1,1,1,1,1,1,1,1,1],
    [1,0,0,0,1,0,0,0,1,0,0,1],
    [1,0,0,0,1,0,0,0,1,0,0,1],
    [1,0,0,0,2,0,0,0,2,0,0,1],
    [1,2,1,1,1,0,1,1,1,1,2,1],
    [1,0,0,0,2,0,0,0,2,0,0,1],
    [1,0,0,0,1,0,0,0,1,0,0,1],
    [1,0,0,0,1,0,0,0,1,0,0,1],
    [1,1,1,1,1,1,1,1,1,1,1,1]
  ]

  const InitialWallTypes: Map := [
    [1,1,1,1,2,2,2,1,1,1,1,1],
    [1,0,0,0,1,0,0,0,1,0,0,1],
    [1,0,0,0,1,0,0,0,1,0,0,1],
    [1,0,0,0,2,0,0,0,2,0,0,1],
    [1,2,2,2,1,0,2,2,2,2,2,1],
    [1,0,0,0,2,0,0,0,2,0,0,1],
    [1,0,0,0,1,0,0,0,1,0,0,1],
    [1,0,0,0,1,0,0,0,1,0,0,1],
    [2,2,2,1,1,1,1,1,2,2,2,2]
  ]

  const InitialDoors: seq<Door> := [
    Door(4, 3, true, 1), Door(8, 3, true, 2), Door(4, 5, true, 3),
    Door(8, 5, true, 4), Door(1, 4, true, 5), Door(10, 4, true, 6)
  ]

  const InitialStations: seq<Station> := [
    Station(2, 2, 1, true, Computer, 40, 30),
    Station(6, 2, 2, false, PeriodicTable, 50, 40),
    Station(10, 2, 3, false, Microscope, 45, 25),
    Station(2, 6, 4, false, Computer, 40, 30),
    Station(6, 6, 5, false, PeriodicTable, 50, 40),
    Station(10, 6, 6, false, Microscope, 45, 25)
  ]

  const InitialItems: seq<Item> := [
    Item(1, 1, HealthPack, 25), Item(10, 7, HealthPack, 25), Item(5, 4, KeyItem, 1)
  ]

  /** The id, right option and reward of the six built-in puzzles. */
  const Puzzles: seq<GamePuzzle> := [
    GamePuzzle(1, 1, 100), GamePuzzle(2, 0, 150), GamePuzzle(3, 1, 120),
    GamePuzzle(4, 1, 180), GamePuzzle(5, 0, 200), GamePuzzle(6, 1, 160)
  ]

  /** Some station among the first `n` stands on (x, y). */
  predicate StationAmong(stations: seq<Station>, n: int, x: int, y: int)
    requires 0 <= n <= |stations|
  {
    exists k :: 0 <= k < n && stations[k].mapX == x && stations[k].mapY == y
  }

  /** Some item among the first `n` lies on (x, y). */
  predicate ItemAmong(items: seq<Item>, n: int, x: int, y: int)
    requires 0 <= n <= |items|
  {
    exists k :: 0 <= k < n && items[k].mapX == x && items[k].mapY == y
  }

  /** The marked value of one cell: 3 under a station; otherwise 4 under
      an item when the cell was empty; otherwise as before. */
  function MarkedCell(grid: Map, stations: seq<Station>, items: seq<Item>, x: int, y: int): int {
    if StationAmong(stations, |stations|, x, y) then STATION
    else if ItemAmong(items, |items|, x, y) && CellAt(grid, x, y) == EMPTY then ITEM
    else CellAt(grid, x, y)
  }

  predicate EntitiesInBounds(stations: seq<Station>, items: seq<Item>) {
    (forall s :: s in stations ==> InBounds(s.mapX, s.mapY))
    && (forall it :: it in items ==> InBounds(it.mapX, it.mapY))
  }

  /** The two marking passes of `generateLevel`. */
  method MarkLevel(grid: Map, stations: seq<Station>, items: seq<Item>) returns (g: Map)
    requires WellFormed(grid)
    requires EntitiesInBounds(stations, items)
    ensures WellFormed(g)
    ensures forall y, x :: InBounds(x, y) ==> CellAt(g, x, y) == MarkedCell(grid, stations, items, x, y)
  {
    g := grid;
    for i := 0 to |stations|
      invariant WellFormed(g)
      invariant forall y, x :: InBounds(x, y) ==>
        CellAt(g, x, y) == if StationAmong(stations, i, x, y) then STATION else CellAt(grid, x, y)
    {
      var s := stations[i];
      assert s in stations;
      g := g[s.mapY := g[s.mapY][s.mapX := STATION]];
    }
    for j := 0 to |items|
      invariant WellFormed(g)
      invariant forall y, x :: InBounds(x, y) ==>
        CellAt(g, x, y) ==
          if StationAmong(stations, |stations|, x, y) then STATION
          else if ItemAmong(items, j, x, y) && CellAt(grid, x, y) == EMPTY then ITEM
          else CellAt(grid, x, y)
    {
      var it := items[j];
      assert it in items;
      if g[it.mapY][it.mapX] == EMPTY {
        g := g[it.mapY := g[it.mapY][it.mapX := ITEM]];
      }
    }
  }

  /** The map after both passes, as the game plays it. */
  const GeneratedGrid: Map := [
    [1,1,1,1,1,1,1,1,1,1,1,1],
    [1,4,0,0,1,0,0,0,1,0,0,1],
    [1,0,3,0,1,0,3,0,1,0,3,1],
    [1,0,0,0,2,0,0,0,2,0,0,1],
    [1,2,1,1,1,4,1,1,1,1,2,1],
    [1,0,0,0,2,0,0,0,2,0,0,1],
    [1,0,3,0,1,0,3,0,1,0,3,1],
    [1,0,0,0,1,0,0,0,1,0,4,1],
    [1,1,1,1,1,1,1,1,1,1,1,1]
  ]

  /** The marking of the built-in level gives `GeneratedGrid`: every station
      cell was empty and is now 3, and all three item cells were empty. */
  lemma GeneratedGridIsMarked()
    ensures WellFormed(InitialGrid) && EntitiesInBounds(InitialStations, InitialItems)
    ensures forall y, x :: InBounds(x, y) ==>
      CellAt(GeneratedGrid, x, y) == MarkedCell(InitialGrid, InitialStations, InitialItems, x, y)
  {
    forall y, x | InBounds(x, y)
      ensures CellAt(GeneratedGrid, x, y) == MarkedCell(InitialGrid, InitialStations, InitialItems, x, y)
    {
      var s, n := InitialStations, |InitialStations|;
      var items := InitialItems;
      if (x, y) in {(2, 2), (6, 2), (10, 2), (2, 6), (6, 6), (10, 6)} {
        assert StationAmong(s, n, x, y) by {
          if (x, y) == (2, 2) { assert s[0].mapX == x && s[0].mapY == y; }
          else if (x, y) == (6, 2) { assert s[1].mapX == x && s[1].mapY == y; }
          else if (x, y) == (10, 2) { assert s[2].mapX == x && s[2].mapY == y; }
          else if (x, y) == (2, 6) { assert s[3].mapX == x && s[3].mapY == y; }
          else if (x, y) == (6, 6) { assert s[4].mapX == x && s[4].mapY == y; }
          else { assert s[5].mapX == x && s[5].mapY == y; }
        }
      } else if (x, y) in {(1, 1), (10, 7), (5, 4)} {
        assert !StationAmong(s, n, x, y);
        assert ItemAmong(items, |items|, x, y) by {
          if (x, y) == (1, 1) { assert items[0].mapX == x && items[0].mapY == y; }
          else if (x, y) == (10, 7) { assert items[1].mapX == x && items[1].mapY == y; }
          else { assert items[2].mapX == x && items[2].mapY == y; }
        }
      } else {
        assert !StationAmong(s, n, x, y);
        assert !ItemAmong(items, |items|, x, y);
      }
    }
  }

  /** The doors stand on door cells, the stations and items on cells the
      player can walk through. */
  lemma EntitiesArePlaced()
    ensures forall d :: d in InitialDoors ==> InBounds(d.mapX, d.mapY) && CellAt(GeneratedGrid, d.mapX, d.mapY) == DOOR
    ensures forall s :: s in InitialStations ==> !CellBlocks(GeneratedGrid, InitialDoors, s.mapX, s.mapY)
    ensures forall it :: it in InitialItems ==> !CellBlocks(GeneratedGrid, InitialDoors, it.mapX, it.mapY)
  {
  }

  /** The player's start (96, 96) is free: all four corners of its box lie
      in the open tile (1, 1). */
  lemma StartIsFree()
    ensures !CheckGridCollision(GeneratedGrid, InitialDoors, 96.0, 96.0, PLAYER_RADIUS)
  {
    CollisionIff(GeneratedGrid, InitialDoors, 96.0, 96.0, PLAYER_RADIUS);
    assert forall k :: 0 <= k < 4 ==>
      CellOf(Corners(96.0, 96.0, PLAYER_RADIUS)[k].x) == 1 && CellOf(Corners(96.0, 96.0, PLAYER_RADIUS)[k].y) == 1;
  }

  /** The generated level is well formed, its entities are placed, and the
      player starts free. */
  lemma GeneratedLevelIsPlayable()
    ensures WellFormed(GeneratedGrid)
    ensures forall d :: d in InitialDoors ==> InBounds(d.mapX, d.mapY) && CellAt(GeneratedGrid, d.mapX, d.mapY) == DOOR
    ensures forall s :: s in InitialStations ==> !CellBlocks(GeneratedGrid, InitialDoors, s.mapX, s.mapY)
    ensures forall it :: it in InitialItems ==> !CellBlocks(GeneratedGrid, InitialDoors, it.mapX, it.mapY)
    ensures !CheckGridCollision(GeneratedGrid, InitialDoors, 96.0, 96.0, PLAYER_RADIUS)
  {
    EntitiesArePlaced();
    StartIsFree();
  }
}
