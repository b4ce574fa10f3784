/** Properties of the built-in level as a whole: one ray through it that
    shows the unit mix-up of the texture hit point, and the progression
    from the first puzzle to the win. */
module Scenario {
  import opened Common
  import opened Grid
  import opened Raycast
  import opened Progression
  import opened Level

  const LevelWorld: World := World(GeneratedGrid, InitialWallTypes, InitialDoors)

  /** The start of the game: no puzzle solved, no points. */
  const StartLab: Lab := Lab(0, 0, InitialDoors, InitialStations)

  // ------------------------------------------------------- one ray, by hand

  /** The ray from the start position (96, 96) with cos 0.6 and sin 0.8
      takes five steps, Y X Y X Y, and stops at the wall (3, 4) on side 1. */
  lemma SampleRayWalk()
    ensures var ray := RayFor(0.8, 0.6);
      StartDda(96.0, 96.0, ray) == Dda(5.0 / 6.0, 0.625, 1, 1, 0)
      && Run(LevelWorld, ray, StartDda(96.0, 96.0, ray), MAX_ITERATIONS) == Walk(Dda(25.0 / 6.0, 4.375, 3, 4, 1), 5)
  {
    var w, ray := LevelWorld, RayFor(0.8, 0.6);
    assert ray == Ray(5.0 / 3.0, 1.25, 1, 1);
    var d0 := Dda(5.0 / 6.0, 0.625, 1, 1, 0);
    var d1 := Dda(5.0 / 6.0, 1.875, 1, 2, 1);
    var d2 := Dda(2.5, 1.875, 2, 2, 0);
    var d3 := Dda(2.5, 3.125, 2, 3, 1);
    var d4 := Dda(25.0 / 6.0, 3.125, 3, 3, 0);
    var d5 := Dda(25.0 / 6.0, 4.375, 3, 4, 1);
    assert CellOf(96.0) == 1;
    assert StartDda(96.0, 96.0, ray) == d0;
    assert Advance(ray, d0) == d1 && Advance(ray, d1) == d2 && Advance(ray, d2) == d3;
    assert Advance(ray, d3) == d4 && Advance(ray, d4) == d5;
    assert Stops(w, 3, 4);
    assert !Stops(w, 1, 2) && !Stops(w, 2, 2) && !Stops(w, 2, 3) && !Stops(w, 3, 3);
    assert Run(w, ray, d4, 20) == Walk(d5, 1);
    assert Run(w, ray, d3, 21) == Walk(d5, 2);
    assert Run(w, ray, d2, 22) == Walk(d5, 3);
    assert Run(w, ray, d1, 23) == Walk(d5, 4);
    assert Run(w, ray, d0, 24) == Walk(d5, 5);
  }

  /** For that ray the hit point as written lies in column 1, two columns
      away from the wall it belongs to, and gives texture column 0.529...;
      with the distance converted to world units the hit point is x = 216,
      inside column 3, and the texture column is 0.375. */
  lemma SampleRayTexture()
    ensures var ray := RayFor(0.8, 0.6);
      var last := Run(LevelWorld, ray, StartDda(96.0, 96.0, ray), MAX_ITERATIONS).last;
      last.side == 1 && last.mapX == 3
      && RawDistance(ray, last, 96.0, 96.0, 0.8, 0.6) == 3.125
      && HitOffsetAsWritten(ray, last, 96.0, 96.0, 0.8, 0.6) == 97.875
      && CellOf(HitOffsetAsWritten(ray, last, 96.0, 96.0, 0.8, 0.6)) == 1
      && TextureCoord(HitOffsetAsWritten(ray, last, 96.0, 96.0, 0.8, 0.6)) == 0.529296875
      && HitOffset(ray, last, 96.0, 96.0, 0.8, 0.6) == 216.0
      && CellOf(HitOffset(ray, last, 96.0, 96.0, 0.8, 0.6)) == last.mapX
      && TextureCoord(HitOffset(ray, last, 96.0, 96.0, 0.8, 0.6)) == 0.375
  {
    SampleRayWalk();
    var ray := RayFor(0.8, 0.6);
    var last := Dda(25.0 / 6.0, 4.375, 3, 4, 1);
    assert ray == Ray(5.0 / 3.0, 1.25, 1, 1);
    assert RawDistance(ray, last, 96.0, 96.0, 0.8, 0.6) == 3.125;
    assert HitOffsetAsWritten(ray, last, 96.0, 96.0, 0.8, 0.6) == 97.875;
    assert HitOffset(ray, last, 96.0, 96.0, 0.8, 0.6) == 216.0;
    assert (97.875 / TILE_SIZE).Floor == 1;
    assert (216.0 / TILE_SIZE).Floor == 3;
    assert TileRem(97.875) == 33.875;
    assert TileRem(216.0) == 24.0;
  }

  // ------------------------------------------------------------ progression

  /** Standing on the first station's tile centre and pressing E opens
      puzzle 1; answering it with option 1 unlocks the door at (4, 3),
      which then no longer blocks; the next frame activates station 2 and
      switches station 1 back on. */
  lemma FirstPuzzle()
    ensures InteractTarget(InitialStations, 160.0, 160.0) == Some(0)
    ensures Interact(InitialStations, Puzzles, 160.0, 160.0) == Some(GamePuzzle(1, 1, 100))
    ensures IsCorrect(GamePuzzle(1, 1, 100), 1)
    ensures var lab := Solve(StartLab, GamePuzzle(1, 1, 100));
      lab.puzzlesSolved == 1 && lab.score == 100
      && !lab.doors[0].locked && (forall j :: 1 <= j < 6 ==> lab.doors[j].locked)
      && CellBlocks(GeneratedGrid, InitialDoors, 4, 3)
      && !CellBlocks(GeneratedGrid, lab.doors, 4, 3)
      && !lab.stations[0].active
      && Tick(lab).stations[0].active && Tick(lab).stations[1].active
      && (forall j :: 2 <= j < 6 ==> !Tick(lab).stations[j].active)
  {
    var p := GamePuzzle(1, 1, 100);
    assert Usable(160.0, 160.0, InitialStations[0]);
    assert PuzzleById(Puzzles, 1) == Some(p) by {
      assert Puzzles[0].id == 1;
    }
    var lab := Solve(StartLab, p);
    assert FirstIndex(InitialDoors, (d: Door) => d.puzzleId == 1) == Some(0) by {
      assert InitialDoors[0].puzzleId == 1;
    }
    assert FirstIndex(InitialStations, (s: Station) => s.puzzleId == 1) == Some(0) by {
      assert InitialStations[0].puzzleId == 1;
    }
    assert DoorAt(InitialDoors, 4, 3) == Some(0) by {
      assert DoorIsAt(InitialDoors[0], 4, 3);
    }
    assert DoorAt(lab.doors, 4, 3) == Some(0) by {
      assert DoorIsAt(lab.doors[0], 4, 3);
    }
  }

  /** Solving the six puzzles in list order. */
  function SolveAll(lab: Lab, ps: seq<GamePuzzle>): Lab
    decreases |ps|
  {
    if ps == [] then lab else SolveAll(Solve(lab, ps[0]), ps[1..])
  }

  function RewardSum(ps: seq<GamePuzzle>): int
    decreases |ps|
  {
    if ps == [] then 0 else ps[0].reward + RewardSum(ps[1..])
  }

  /** Door `i` of the list belongs to puzzle i + 1, as in the built-in level. */
  predicate DoorsNumbered(ds: seq<Door>) {
    forall i :: 0 <= i < |ds| ==> ds[i].puzzleId == i + 1
  }

  lemma UnlockNumbered(ds: seq<Door>, j: nat)
    requires DoorsNumbered(ds) && j < |ds|
    ensures UnlockFirst(ds, j + 1) == ds[j := ds[j].(locked := false)]
  {
    var k := FirstIndex(ds, (d: Door) => d.puzzleId == j + 1);
    assert ds[j].puzzleId == j + 1;
    assert k.Some? && k.value == j;
  }

  /** Solving puzzles with ids n + 1, n + 2, ... in order on numbered doors
      opens doors n, n + 1, ...; everything else is counted. */
  lemma {:induction false} SolveAllNumbered(lab: Lab, ps: seq<GamePuzzle>, n: nat)
    requires DoorsNumbered(lab.doors) && n + |ps| <= |lab.doors|
    requires forall k :: 0 <= k < |ps| ==> ps[k].id == n + k + 1
    ensures var r := SolveAll(lab, ps);
      r.puzzlesSolved == lab.puzzlesSolved + |ps| && r.score == lab.score + RewardSum(ps)
      && |r.doors| == |lab.doors| && DoorsNumbered(r.doors)
      && forall i :: 0 <= i < |lab.doors| ==>
           r.doors[i] == if n <= i < n + |ps| then lab.doors[i].(locked := false) else lab.doors[i]
    decreases |ps|
  {
    if ps != [] {
      UnlockNumbered(lab.doors, n);
      var next := Solve(lab, ps[0]);
      SolveAllNumbered(next, ps[1..], n + 1);
    }
  }

  /** Solving each built-in puzzle once, in order, wins with all six doors
      unlocked and 910 points. */
  lemma SolvingEveryPuzzleOpensEveryDoor()
    ensures var lab := SolveAll(StartLab, Puzzles);
      HasWon(lab) && lab.score == 910
      && |lab.doors| == 6 && forall j :: 0 <= j < 6 ==> !lab.doors[j].locked
  {
    SolveAllNumbered(StartLab, Puzzles, 0);
    assert RewardSum(Puzzles) == 910 by {
      assert Puzzles[1..][1..][1..][1..][1..][1..] == [];
    }
  }
}
