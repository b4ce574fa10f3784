# Doom Chemistry Escape in Dafny

This project models the world engine of *Doom Chemistry Escape*, a browser
ray-casting game set in a chemistry lab. It also models the content
validator that grades the game's chemistry puzzles.

The game engine (`DoomChemistryGame` in `game.js`) is modelled on a tile
grid of 12 × 9 cells of 64 world units:

- the grid collision test of a player square against walls and locked doors;
- axis-separated keyboard movement and mouse turning with heading normalisation;
- the DDA ray walk of `castRay`, with its epsilon clamp, iteration cap, stop
  rules, wall-type choice, depth clamp and texture column;
- item pickup, which splices items out of the list while walking it backwards;
- the progression through six puzzle stations: activation, interaction with
  the first usable station, the answer check, solving and the win condition;
- the map marking of `generateLevel`;
- the small pure helpers: the `MM:SS` clock, the win grade, the chemistry-pun
  round robin, the light factors, the farthest-first sprite order and sprite
  culling, and the particle and explosion-ring lifetimes.

The validator (`ChemistryValidator` in `chemistry-test.js`) is modelled as
pure functions over strings for the five validations. Its per-puzzle score
and the result list are modelled as a class.

Modules, one per concern of the source:

| file | module | what it holds |
|---|---|---|
| common.dfy | Common | `Option`, absolute value, min/max, first index matching a predicate (`Array.prototype.find`) |
| grid.dfy | Grid | cell codes, doors, `checkGridCollision` |
| movement.dfy | Movement | the movement vector and the X-then-Y move of `handleMovement` |
| raycast.dfy | Raycast | `castRay`: the walk as a function and as a method with its loop |
| progression.dfy | Progression | items, stations, puzzles, `solvePuzzle`, the win condition |
| level.dfy | Level | the built-in level and the marking passes of `generateLevel` |
| hud.dfy | Hud | heading normalisation, clock, grade, puns, light |
| sprites.dfy | Sprites | sprite order and culling |
| effects.dfy | Effects | particles and explosion rings |
| engine.dfy | Engine | the `Player` and `Game` classes whose methods update the game state in place |
| scenario.dfy | Scenario | facts about the built-in level: one ray worked through, the first puzzle, solving all six |
| text.dfy | Text | ASCII `toLowerCase` and `includes` |
| validator.dfy | Validator | `ChemistryValidator` |

Floating-point numbers are modelled by `real`, and cell indices by
`real.Floor`. The trigonometric values `sin`, `cos` and `atan2` are
parameters. Distance tests compare squared distances, so no square root is
needed. Timestamps and the elapsed game time are parameters.

## Model

| member | source | states |
|---|---|---|
| Common.FirstIndex | doom-chemistry-escape/game.js:1305-1316 | `find`: the index found satisfies the predicate and no earlier index does; there is no index exactly when no element satisfies it |
| Common.Clamp | doom-chemistry-escape/game.js:1134 | `Math.max(lo, Math.min(hi, v))` lies in [lo, hi], is `v` inside the range and the nearer bound outside it |
| Grid.DoorAt | doom-chemistry-escape/game.js:989 | the door looked up for a cell is the first door record at that cell; none is found exactly when no record lies there |
| Grid.AnyCornerBlocksIff | doom-chemistry-escape/game.js:1003-1021 | the corner loop reports a collision iff some corner lies in an in-bounds cell that blocks |
| Grid.CollisionIff | doom-chemistry-escape/game.js:972-1024 | a point is blocked iff its cell is out of bounds, or its cell blocks, or one of the four corners of the square of half-side `radius` lies in an in-bounds blocking cell; out-of-bounds corners are ignored |
| Grid.OnlyWallsAndLockedDoorsBlock | doom-chemistry-escape/game.js:983-993 | a cell blocks iff it is a wall, or a door cell whose first door record is locked; empty, station, item, unlocked-door and record-less door cells never block |
| Grid.UnlockingNeverBlocks | doom-chemistry-escape/game.js:988-993 | unlocking doors, with their positions unchanged, never makes a cell block |
| Grid.UnlockingNeverCollides | doom-chemistry-escape/game.js:972-1024 | unlocking doors never makes a point collide that did not before |
| Grid.CellBetweenEnds | doom-chemistry-escape/game.js:996-1001 | for a half-side of at most half a tile, every coordinate of the square lies in the cell of one of its two edges |
| Grid.ClearSquare | doom-chemistry-escape/game.js:972-1024 | when a point of half-side at most 32 is free, no in-bounds cell under any point of its square blocks |
| Grid.EmptySurroundingsDoNotBlock | doom-chemistry-escape/game.js:972-1024 | an in-bounds point whose cell and corner cells are all empty is free |
| Grid.WallCornerBlocks | doom-chemistry-escape/game.js:1007-1012 | a single in-bounds corner in a wall cell makes the point blocked |
| Movement.KeySOverridesKeyW | doom-chemistry-escape/game.js:937-944 | W and S held together move exactly as S alone, because the KeyS vector replaces the KeyW vector; S alone moves by minus the heading times the speed |
| Movement.StrafeKeys | doom-chemistry-escape/game.js:946-954 | A and D held together cancel; the D vector is perpendicular to the heading |
| Movement.TryMove | doom-chemistry-escape/game.js:957-969 | each coordinate either stays or takes its whole component of the step |
| Movement.TryMoveAxes | doom-chemistry-escape/game.js:957-969 | X moves iff (x + dx, y) is free; Y moves iff (x', y + dy) is free, where x' is the X already moved to; when both targets are blocked the player stays put |
| Movement.TryMoveStaysFree | doom-chemistry-escape/game.js:957-969 | a player who starts free is still free after the step |
| Movement.SlideAlongWall | doom-chemistry-escape/game.js:961-969 | when only the X target is blocked and the Y target is free, the player slides along the wall in Y |
| Raycast.ClampComponent | doom-chemistry-escape/game.js:1032-1033 | a clamped direction component has magnitude at least 0.0001 and keeps its sign; it is unchanged when already that large, and otherwise exactly ±0.0001 |
| Raycast.StopsIffBlocks | doom-chemistry-escape/game.js:1089-1107 | the ray stops in a cell iff the cell is out of bounds or blocks movement |
| Raycast.WallTypeAt | doom-chemistry-escape/game.js:1097-1098 | the wall type read for a wall is never 0, because 0 reads as 1 |
| Raycast.HitWallType | doom-chemistry-escape/game.js:1089-1107 | the reported wall type is never 0 |
| Raycast.HitWallTypeCases | doom-chemistry-escape/game.js:1089-1107 | out of bounds gives type 1; a wall whose `wallTypes` entry is non-zero gives that entry, and a wall whose entry is 0 or missing gives 1; a locked door gives 3; a cell that does not stop the ray (empty, station, item, unlocked door) reports 1 |
| Raycast.AdvanceStepsOneAxis | doom-chemistry-escape/game.js:1077-1086 | each iteration changes exactly one cell index, by its step of ±1; side 0 iff `sideDistX < sideDistY`, so an exact tie steps Y with side 1 |
| Raycast.Run | doom-chemistry-escape/game.js:1073-1108 | the walk takes at least one and at most `fuel` iterations |
| Raycast.RunIsFirstStop | doom-chemistry-escape/game.js:1073-1108 | the walk ends at the first cell along the ray that stops it, or after exactly `fuel` iterations; no earlier cell stops it |
| Raycast.AdvanceNDisplacement | doom-chemistry-escape/game.js:1077-1086 | after n iterations the cell lies exactly n grid steps (Manhattan) from the start, moving only in the direction of each step |
| Raycast.RunDisplacement | doom-chemistry-escape/game.js:1073-1108 | the last cell lies exactly as many grid steps from the start as there were iterations, and at most the cap 2·max(12, 9) = 24 |
| Raycast.HitPointOnCrossedGridLine | doom-chemistry-escape/game.js:1111-1117 | with the distance converted to world units, the hit point lies on the grid line the last step crossed, and the texture offset is its other coordinate |
| Raycast.TileRem | doom-chemistry-escape/game.js:1121-1126 | JavaScript's `%` by 64 on numbers: the remainder is strictly between -64 and 64 and has the sign of the dividend |
| Raycast.TextureCoord | doom-chemistry-escape/game.js:1121-1131 | the texture column lies in [0, 1) |
| Raycast.TextureCoordIsFraction | doom-chemistry-escape/game.js:1121-1131 | the texture column is the fractional part of offset / 64, for negative offsets too |
| Raycast.ClampDepth | doom-chemistry-escape/game.js:1134 | the distance lies in [1, 800] and is unchanged inside that range |
| Raycast.March | doom-chemistry-escape/game.js:1073-1108 | the while loop ends in the state and iteration count of the walk `Run` with the cap 24, and reports the wall type of the cell it stopped in |
| Raycast.SetUpRay | doom-chemistry-escape/game.js:1038-1061 | the ray set-up gives steps of ±1 on both axes and the distances to the first grid lines |
| Raycast.Measure | doom-chemistry-escape/game.js:1110-1134 | the distance is the length along the ray, converted to world units and clamped to [1, 800]; the texture column is taken from the corrected hit point |
| Raycast.CastRay | doom-chemistry-escape/game.js:1027-1144 | `castRay` returns the cell, side and wall type of the first stop of the walk; the distance lies in [1, 800]; `textureX` lies in [0, 1) and is the texture column of the corrected hit point (see Findings), not of the one as written; side is 0 or 1; the cell lies at most 24 steps from the start |
| Progression.Kept | doom-chemistry-escape/game.js:1146-1176 | every item left after pickup was in the list and is out of reach |
| Progression.KeptAppend | doom-chemistry-escape/game.js:1146-1176 | pickup filters the list piecewise, so the remaining items keep their original order |
| Progression.KeptIff | doom-chemistry-escape/game.js:1146-1176 | an item remains iff it was in the list and its squared distance from the player to its tile centre is at least 900 |
| Progression.PickupStep | doom-chemistry-escape/game.js:1147-1175 | one iteration at index i: an item in reach is spliced out and applied after the items behind it; any other item is kept |
| Progression.CollectKeys | doom-chemistry-escape/game.js:1161-1162 | the keys grow by the sum of the values of the key items taken |
| Progression.CollectHealth | doom-chemistry-escape/game.js:1158-1159 | for non-negative values, health becomes min(100, health + the sum of the health packs taken) |
| Progression.NothingInRange | doom-chemistry-escape/game.js:1146-1176 | with no item in reach, the list, health and keys are unchanged |
| Progression.ActivateStations | doom-chemistry-escape/game.js:1178-1185 | station activation keeps the number of stations |
| Progression.ActivateStationsSpec | doom-chemistry-escape/game.js:1178-1185 | after activation a station is active iff it was, or its puzzle id is at most puzzlesSolved + 1; nothing else of it changes |
| Progression.ActivateStationsIdempotent | doom-chemistry-escape/game.js:1178-1185 | activating twice is activating once |
| Progression.ActivateStationsMonotone | doom-chemistry-escape/game.js:1178-1185 | more puzzles solved never switches a station off |
| Progression.InteractTarget | doom-chemistry-escape/game.js:1189-1206 | `interact` picks the first station in list order that is active and strictly within 50 units of its tile centre; none is picked exactly when no station qualifies |
| Progression.PuzzleById | doom-chemistry-escape/game.js:1212-1216 | the puzzle found has the id asked for; none is found exactly when no puzzle has that id |
| Progression.Interact | doom-chemistry-escape/game.js:1187-1216 | a puzzle opened by interaction belongs to a usable station; with no usable station no puzzle is opened |
| Progression.InactiveStationIgnored | doom-chemistry-escape/game.js:1190 | an inactive station is never the one interacted with |
| Progression.UnlockFirst | doom-chemistry-escape/game.js:1305-1307 | unlocking keeps the number of doors |
| Progression.DeactivateFirst | doom-chemistry-escape/game.js:1314-1316 | deactivation keeps the number of stations |
| Progression.UnlockFirstSpec | doom-chemistry-escape/game.js:1305-1307 | the first door with the puzzle's id becomes that door with `locked` cleared; every other door, including later doors with the same id, is unchanged, and a list without such a door is unchanged |
| Progression.DeactivateFirstSpec | doom-chemistry-escape/game.js:1314-1316 | the first station with the puzzle's id becomes that station with `active` cleared; every other station, including later stations with the same id, is unchanged, and a list without such a station is unchanged |
| Progression.UnlockMakesNothingBlock | doom-chemistry-escape/game.js:1305-1307 | after a door is unlocked, every point free before is still free |
| Progression.Solve | doom-chemistry-escape/game.js:1290-1320 | `solvePuzzle` adds one to the solved count and the reward to the score, only ever unlocks doors, and keeps the station count |
| Progression.SolveRepeatedlyCounts | doom-chemistry-escape/game.js:1290-1320 | solving the same puzzle n times counts n and pays n rewards, yet opens only its one door |
| Progression.UnlockFirstTwice | doom-chemistry-escape/game.js:1305-1307 | unlocking the same puzzle's door twice is unlocking it once |
| Progression.RepeatSolveWins | doom-chemistry-escape/game.js:1290-1292 | with no guard against solving a puzzle twice, solving one puzzle six times meets the win condition with only its own door open |
| Progression.SolvedStationReactivated | doom-chemistry-escape/game.js:1178-1185 | the station switched off by `solvePuzzle` is active again after the next station update, since its id is still at most puzzlesSolved + 1 |
| Level.MarkLevel | doom-chemistry-escape/game.js:876-893 | the marking passes keep the 12 × 9 shape; every station cell becomes 3, every item cell that was 0 becomes 4, and every other cell is kept |
| Level.GeneratedGridIsMarked | doom-chemistry-escape/game.js:829-893 | the built-in map after marking is exactly the marked initial map |
| Level.EntitiesArePlaced | doom-chemistry-escape/game.js:857-893 | every door record lies on a door cell; no station or item lies on a blocking cell |
| Level.StartIsFree | doom-chemistry-escape/game.js:26-28 | the start position (96, 96) is free in the generated level |
| Level.GeneratedLevelIsPlayable | doom-chemistry-escape/game.js:829-894 | the generated level has the right shape, its doors on door cells, its stations and items reachable, and a free start |
| Hud.NormalizeAngle | doom-chemistry-escape/game.js:757-758 | the normalised heading lies in [0, 2π], differs from the input by a whole number of turns, and is the input itself when that is already in range |
| Hud.Look | doom-chemistry-escape/game.js:755-758 | a mouse movement turns the heading by 0.003 per pixel, then normalises it into [0, 2π] |
| Hud.DigitChar | doom-chemistry-escape/game.js:1364 | a digit below 10 is written as the character whose value it is |
| Hud.Decimal | doom-chemistry-escape/game.js:1364 | `toString` gives at least one decimal digit; one digit iff the number is below 10, and at most two below 100 |
| Hud.PadStart2 | doom-chemistry-escape/game.js:1364 | `padStart(2, '0')` gives at least two characters: leading zeros followed by the input |
| Hud.FormatTime | doom-chemistry-escape/game.js:1361-1364 | the clock text has at least five characters with the colon third from the end |
| Hud.ParseTime | doom-chemistry-escape/game.js:1361-1364 | reading a clock back accepts only text with the colon third from the end |
| Hud.DecimalValue | doom-chemistry-escape/game.js:1364 | the decimal digits of a number read back to the number |
| Hud.PaddedValue | doom-chemistry-escape/game.js:1364 | padding with zeros keeps the value read back |
| Hud.ParseClock | doom-chemistry-escape/game.js:1361-1364 | a minutes part, a colon and a two-digit seconds part below 60 read back to minutes · 60 + seconds |
| Hud.FormatTimeRoundTrip | doom-chemistry-escape/game.js:1995-1997 | the MM:SS text of the HUD and of the win screen reads back to the elapsed seconds, so it loses nothing, even past 99 minutes |
| Hud.WinGrade | doom-chemistry-escape/game.js:2000-2005 | the target medal is shown iff health is below 50, and then the letter has no plus |
| Hud.WinGradeMonotone | doom-chemistry-escape/game.js:2000-2005 | a slower escape or less health never earns a better letter |
| Hud.WinGradeBands | doom-chemistry-escape/game.js:2000-2004 | with health at least 50: A+ iff at most 300 s, A iff 300-600 s, B+ iff 600-900 s, B iff over 900 s, each band open below |
| Hud.ShowPun | doom-chemistry-escape/game.js:665-671 | within 10 000 ms of the last pun nothing is shown and nothing changes; otherwise the current pun is shown, the time is recorded and the index advances modulo 10 |
| Hud.PunRoundRobin | doom-chemistry-escape/game.js:669-671 | two puns shown in turn are consecutive in the list, wrapping after the tenth |
| Hud.PunThrottle | doom-chemistry-escape/game.js:666-667 | of two requests less than 10 s apart, at most one shows a pun |
| Hud.WallLight | doom-chemistry-escape/game.js:1407-1409 | the wall light factor lies in [0.075, 1], and in [0.1, 1] on side 0 |
| Hud.SpriteLight | doom-chemistry-escape/game.js:1636 | the sprite light factor lies in [0.3, 1] |
| Hud.LightFallsOff | doom-chemistry-escape/game.js:1407-1409 | light never grows with distance, for walls and sprites; side 1 is 0.75 times side 0 |
| Hud.LightIsLinearNearby | doom-chemistry-escape/game.js:1407 | up to 720 units the wall light is 1 - distance / 800 |
| Sprites.InsertByDistance | doom-chemistry-escape/game.js:1609 | inserting a sprite adds exactly one element |
| Sprites.InsertByDistanceSorted | doom-chemistry-escape/game.js:1609 | inserting into a farthest-first list keeps it farthest-first and adds no stranger |
| Sprites.InsertByDistancePerm | doom-chemistry-escape/game.js:1609 | inserting adds exactly the inserted sprite to the multiset |
| Sprites.SortFarthestFirst | doom-chemistry-escape/game.js:1609 | the sort keeps the number of sprites |
| Sprites.SortFarthestFirstSpec | doom-chemistry-escape/game.js:1609 | the sorted list is a permutation of the input with non-increasing distances |
| Sprites.SortKeepsSortedInput | doom-chemistry-escape/game.js:1609 | a list already farthest-first is left as it is |
| Sprites.Bearing | doom-chemistry-escape/game.js:1624 | the corrected bearing lies in [-π, π] and differs from the bearing as written by zero or one turn |
| Sprites.InFieldAgreesWhenNotWrapped | doom-chemistry-escape/game.js:1624-1627 | when the bearing as written is at least -π, the corrected field-of-view test and the one as written agree |
| Sprites.StraightAheadIsVisible | doom-chemistry-escape/game.js:1624-1633 | with the corrected bearing, a sprite straight ahead within the depth window [10, 800] is drawn, whatever the heading |
| Sprites.StraightAheadCulledAsWritten | doom-chemistry-escape/game.js:1624-1627 | as written, for a heading in (π, 2π] a sprite straight ahead has bearing -2π and is culled; the corrected test keeps it |
| Effects.Burst | doom-chemistry-escape/game.js:1831-1855 | an explosion adds one particle per given velocity, at the point with life 30, and one ring of radius 5, maximum 50, speed 3, life 20 |
| Effects.TickParticles | doom-chemistry-escape/game.js:1857-1870 | a particle update never adds particles, and every survivor has life at least 1 |
| Effects.TickParticlesSurvivors | doom-chemistry-escape/game.js:1857-1870 | a particle with at least two frames left survives the update, moved by its velocity, slowed by 0.98 and one frame older; every survivor is such a stepped input particle |
| Effects.TickParticlesAppend | doom-chemistry-escape/game.js:1857-1870 | the update of a concatenation is the concatenation of the updates, so survivors keep their order |
| Effects.TickParticlesAllLive | doom-chemistry-escape/game.js:1857-1870 | when every particle has at least two frames left, the update keeps all of them, each stepped in place |
| Effects.LiveParticlesSurvive | doom-chemistry-escape/game.js:1857-1870 | particles with more than k frames left all survive k updates, each at the position, velocity and life of its own k steps |
| Effects.TickParticlesAges | doom-chemistry-escape/game.js:1857-1870 | each update lowers every bound on the remaining lives by one |
| Effects.ParticlesDieOut | doom-chemistry-escape/game.js:1857-1870 | particles whose lives are at most n are all gone after n updates |
| Effects.LastFrame | doom-chemistry-escape/game.js:1864-1868 | particles with life at most 1 are all removed by the next update |
| Effects.BurstFades | doom-chemistry-escape/game.js:1838 | the particles of an explosion are all gone after 30 updates |
| Effects.BurstSurvives | doom-chemistry-escape/game.js:1831-1870 | for k < 30, after k updates every particle of an explosion is still there, in order, at its own k-step motion with 30 - k frames left |
| Effects.TickRings | doom-chemistry-escape/game.js:1872-1882 | a ring update never adds rings, and no survivor is out of life or past its maximum radius |
| Effects.FreshRingGrows | doom-chemistry-escape/game.js:1872-1882 | for up to 15 updates a fresh ring survives, growing by 3 and losing one life per update |
| Effects.FreshRingLifetime | doom-chemistry-escape/game.js:1848-1852 | a fresh ring has radius 50 and life 5 after 15 updates, and is removed by the 16th (radius 53 > 50) before its life runs out |
| Engine.MovementVector | doom-chemistry-escape/game.js:933-954 | the key handling computes the movement vector of `Movement.MoveVector`, with KeyS replacing KeyW and the strafes added |
| Engine.PickUpItems | doom-chemistry-escape/game.js:1147-1175 | the backward splice loop leaves exactly the items out of reach, in order, and the health and keys of applying the items taken; an item of a type other than health or key is spliced out with no effect; health stays in [0, 100] |
| Engine.Player.constructor | doom-chemistry-escape/game.js:26-33 | the player starts at (96, 96) facing angle 0 with health 100, no keys and speed 3 |
| Engine.Game.constructor | doom-chemistry-escape/game.js:829-894 | the game starts on the generated level with the built-in doors, stations, items and puzzles, no score, and the player free at the start |
| Engine.Game.HandleMovement | doom-chemistry-escape/game.js:932-969 | the player moves to the X-then-Y position of the movement vector and stays out of walls and locked doors; heading, health and keys are unchanged |
| Engine.Game.Look | doom-chemistry-escape/game.js:753-759 | the heading turns by the mouse movement and is normalised into [0, 2π]; nothing else of the player changes |
| Engine.Game.CheckItemCollisions | doom-chemistry-escape/game.js:1146-1176 | the item list becomes the items out of reach; health and keys become those of the items taken; position, map, doors, stations, score and effects are unchanged |
| Engine.Game.UpdatePuzzleStations | doom-chemistry-escape/game.js:1178-1185 | the stations become the activated stations for the current solved count; nothing else changes |
| Engine.Game.Interact | doom-chemistry-escape/game.js:1187-1210 | the current puzzle becomes the puzzle of the first usable station; with no usable station or an unknown puzzle id it stays as it was; nothing else changes |
| Engine.Game.ShowPuzzle | doom-chemistry-escape/game.js:1212-1216 | an unknown puzzle id changes nothing; otherwise the puzzle with that id becomes current |
| Engine.Game.SolvePuzzle | doom-chemistry-escape/game.js:1290-1320 | the solved count, score, doors and stations become those of `Progression.Solve`; the map, items, current puzzle and effects are unchanged, and the player stays free |
| Engine.Game.SubmitPuzzleAnswer | doom-chemistry-escape/game.js:1261-1287 | without a puzzle or a selection nothing changes; otherwise the puzzle is solved iff the selected index equals `correct`, and is closed either way |
| Engine.Game.UpdateParticles | doom-chemistry-escape/game.js:1857-1870 | the particles become the stepped survivors of `Effects.TickParticles`; nothing else changes |
| Engine.Game.UpdateExplosions | doom-chemistry-escape/game.js:1872-1882 | the rings become the grown survivors of `Effects.TickRings`; nothing else changes |
| Engine.Game.Update | doom-chemistry-escape/game.js:902-925 | before the game starts a frame changes nothing: position, health, keys, items, stations, counters and effects stay; after, the player moves to the X-then-Y position of the movement vector, the items become those out of reach of the new position with health and keys updated from the items taken, the stations are activated for the solved count and the particles and rings age by one update; the heading, map, doors, counters and current puzzle never change; the win is reported iff the game has started and at least 6 puzzles are solved |
| Engine.Game.CastRayFromPlayer | doom-chemistry-escape/game.js:1027-1144 | a ray from the player's position through the current map, wall types and doors gives the cell and side where `Raycast.Run` (capped at 24 iterations) first stops, the clamped distance along the ray from that cell and side, and the texture column of the corrected hit point (see Findings); the wall type is that of the stop cell, the distance lies in [1, 800] and the column in [0, 1) |
| Scenario.SampleRayWalk | doom-chemistry-escape/game.js:1075-1108 | from the start position with cos 0.6 and sin 0.8 the ray takes five steps, Y X Y X Y, and stops at the wall (3, 4) on side 1 |
| Scenario.SampleRayTexture | doom-chemistry-escape/game.js:1111-1131 | for that ray the hit point as written is 97.875, in column 1 instead of column 3, with texture column 0.529296875; the corrected hit point is 216, in column 3, with texture column 0.375 |
| Scenario.FirstPuzzle | doom-chemistry-escape/game.js:1187-1320 | at the first station, interaction opens puzzle 1; answering 1 solves it, scoring 100 and opening the door at (4, 3) only; the next frame activates station 2 and switches station 1 back on |
| Scenario.UnlockNumbered | doom-chemistry-escape/game.js:1305-1307 | in a door list where door i belongs to puzzle i + 1, solving puzzle j + 1 unlocks door j |
| Scenario.SolveAllNumbered | doom-chemistry-escape/game.js:1290-1320 | solving consecutive puzzles in order counts each, sums their rewards and unlocks exactly their doors |
| Scenario.SolvingEveryPuzzleOpensEveryDoor | doom-chemistry-escape/game.js:96-163 | solving each built-in puzzle once, in order, wins with all six doors open and 910 points |
| Text.LowerChar | doom-chemistry-escape/chemistry-test.js:93 | lower-casing maps A-Z to a-z and keeps every other character |
| Text.Lower | doom-chemistry-escape/chemistry-test.js:93 | `toLowerCase` keeps the length and lower-cases each character |
| Text.LowerIsLower | doom-chemistry-escape/chemistry-test.js:180 | lower-cased text has no capitals and lower-casing twice is lower-casing once |
| Text.LowerAppend | doom-chemistry-escape/chemistry-test.js:93 | lower-casing works character by character over concatenation |
| Text.FoundInIff | doom-chemistry-escape/chemistry-test.js:94 | the search over a range of starts finds a match iff the substring occurs at some start in the range |
| Text.IncludesIff | doom-chemistry-escape/chemistry-test.js:94 | `includes` holds iff the substring occurs somewhere; the empty string is included everywhere |
| Text.IncludesAt | doom-chemistry-escape/chemistry-test.js:94 | one occurrence is enough for `includes` |
| Text.IncludesSelf | doom-chemistry-escape/chemistry-test.js:118 | every string includes itself, so an option equal to the searched text passes an `includes` check |
| Text.IncludesSplit | doom-chemistry-escape/chemistry-test.js:160 | cut before a character the substring lacks, a string includes it iff one of the pieces does |
| Text.MissingCharExcludes | doom-chemistry-escape/chemistry-test.js:160 | a string lacking one of the characters of the substring does not include it |
| Text.IncludesLower | doom-chemistry-escape/chemistry-test.js:180 | an exact occurrence survives lower-casing both sides, so the case-insensitive search accepts more |
| Validator.KindName | doom-chemistry-escape/chemistry-test.js:109-145 | each of the six puzzle kinds has one of the six known type names |
| Validator.KindOf | doom-chemistry-escape/chemistry-test.js:109-145 | a type string is unknown iff it is not one of the six names, and a known name maps back to itself |
| Validator.KindRoundTrip | doom-chemistry-escape/chemistry-test.js:109-145 | naming a kind and looking the name up gives the kind back |
| Validator.KindsDistinct | doom-chemistry-escape/chemistry-test.js:170-177 | the six type names are pairwise different |
| Validator.QuestionClarity | doom-chemistry-escape/chemistry-test.js:97-101 | the result carries the test name "Question Clarity" |
| Validator.QuestionClarityIff | doom-chemistry-escape/chemistry-test.js:91-101 | the question passes iff its lower case contains "what", "which" or "how", and neither "maybe" nor "approximately" |
| Validator.QuestionClarityIgnoresCase | doom-chemistry-escape/chemistry-test.js:93 | the clarity result does not depend on the capitals of the question |
| Validator.KeyFor | doom-chemistry-escape/chemistry-test.js:109-145 | every known kind, and only a known kind, has an answer key, at option index 0 or 1 |
| Validator.AnswerAccuracy | doom-chemistry-escape/chemistry-test.js:147-151 | a result that is not a thrown error carries the test name "Answer Accuracy" |
| Validator.AnswerAccuracyIff | doom-chemistry-escape/chemistry-test.js:104-152 | for each known type the answer passes iff `correct` is that type's index and the option there matches, exactly or by `includes` as the type demands; an `includes` on a missing option throws; an unknown type always fails |
| Validator.ManyOptionsNeverThrow | doom-chemistry-escape/chemistry-test.js:118-142 | a puzzle with at least two options never throws in the answer check |
| Validator.TermsFor | doom-chemistry-escape/chemistry-test.js:170-179 | a kind has required terms iff it is known |
| Validator.CheckTerminologyIff | doom-chemistry-escape/chemistry-test.js:169-181 | the terminology check holds iff some required term occurs in the explanation, both lower-cased; an unknown type gives false; the capitals of the explanation do not matter |
| Validator.ExplanationQuality | doom-chemistry-escape/chemistry-test.js:162-166 | the result carries the test name "Explanation Quality" |
| Validator.ExplanationQualityIff | doom-chemistry-escape/chemistry-test.js:154-166 | the explanation passes iff it is longer than 20, uses a required term, and contains "because", "due to" or "according to" exactly as written; short explanations and unknown types never pass |
| Validator.ContextSurvivesLower | doom-chemistry-escape/chemistry-test.js:160 | lower-casing an explanation never loses its context phrase |
| Validator.CapitalisedContextFails | doom-chemistry-escape/chemistry-test.js:160 | "According to" on its own gives no context, because the phrase test is case-sensitive |
| Validator.ContextIsCaseSensitive | doom-chemistry-escape/chemistry-test.js:160 | "According to" fails the context test, while its lower case passes it |
| Validator.ConceptFor | doom-chemistry-escape/chemistry-test.js:185-194 | a kind has an important concept iff it is known |
| Validator.LevelFor | doom-chemistry-escape/chemistry-test.js:205-214 | a kind has a difficulty level iff it is known |
| Validator.EducationalValue | doom-chemistry-escape/chemistry-test.js:183-201 | the educational value passes iff the type is one of the six known names |
| Validator.DifficultyLevel | doom-chemistry-escape/chemistry-test.js:203-221 | the difficulty level passes iff the type is one of the six known names |
| Validator.Validations | doom-chemistry-escape/chemistry-test.js:74-80 | the five validations in source order, or the answer check's thrown error |
| Validator.PassedCount | doom-chemistry-escape/chemistry-test.js:82 | the passed count is at most the number of validations; all pass iff it equals that number; none pass iff it is 0 |
| Validator.Score | doom-chemistry-escape/chemistry-test.js:82 | the score of five validations is 20 points per validation passed, within [0, 100] |
| Validator.Validate | doom-chemistry-escape/chemistry-test.js:71-89 | a puzzle either throws in the answer check or gives a result holding the puzzle and its five validations |
| Validator.ScoreSteps | doom-chemistry-escape/chemistry-test.js:82-88 | the score is one of 0, 20, 40, 60, 80, 100; it is 100 iff clarity, accuracy and explanation pass and the type is known; an unknown type scores at most 20 |
| Validator.ValidateEach | doom-chemistry-escape/chemistry-test.js:67 | the `forEach` records at most one result per puzzle |
| Validator.ValidateEachSpec | doom-chemistry-escape/chemistry-test.js:67 | the results are those of the puzzles in order, up to the first puzzle that throws, which ends the loop |
| Validator.ValidateEachStep | doom-chemistry-escape/chemistry-test.js:67 | one iteration: a puzzle that throws stops the loop, any other adds its result ahead of the rest |
| Validator.ChemistryValidator.constructor | doom-chemistry-escape/chemistry-test.js:7-9 | a new validator has no results |
| Validator.ChemistryValidator.ValidatePuzzle | doom-chemistry-escape/chemistry-test.js:71-89 | validating a puzzle appends exactly its result, or nothing when the answer check throws |
| Validator.ChemistryValidator.ValidatePuzzles | doom-chemistry-escape/chemistry-test.js:67 | the loop appends the results of the puzzles in order up to the first throw, and reports whether one threw |
| Validator.ChemistryValidator.ValidateAllPuzzles | doom-chemistry-escape/chemistry-test.js:12-67 | validating the built-in puzzles appends their results, one for each of the six |
| Validator.AllValidated | doom-chemistry-escape/chemistry-test.js:67 | when every puzzle has at least two options, every puzzle gets a result |
| Validator.BuiltInOptions | doom-chemistry-escape/chemistry-test.js:16-65 | each built-in puzzle has four options |
| Validator.BuiltInKinds | doom-chemistry-escape/chemistry-test.js:16-65 | each built-in puzzle has a known type |
| Validator.BuiltInPuzzlesValidate | doom-chemistry-escape/chemistry-test.js:16-67 | all six built-in puzzles are validated without a throw |

## Left out

- Strings are sequences of Dafny characters. JavaScript's UTF-16 code units are not modelled, so a length counts characters such as `₂`, which lie in the basic plane, the same way.
- Numbers are `real`, with no IEEE rounding. `sin`, `cos`, `atan2`, `tan` and `sqrt` are not modelled: their values are parameters, and distances are compared squared.
- `Date.now()`, `Math.random()`, `setTimeout`, `requestAnimationFrame` and the game clock are not modelled. Timestamps and the elapsed time are parameters. The 2-second delayed solve of `submitPuzzleAnswer` is a direct step.
- The procedural textures, canvas drawing of walls, floor, ceiling, sprites and minimap, audio, the DOM overlays, confetti, messages, event listeners and pointer lock are I/O and are not modelled. Only the arithmetic they use (light, sort, cull, texture column) is modelled.
- The construction of the sprite list from stations, items and doors (game.js:1548-1606) is drawing code. Only the sort and the culling of sprites are modelled.
- Effects.Burst: the ten random velocities of `createExplosion` are a parameter (any number of them). The explosions made by pickups and solving are not part of the modelled pickup and solve.
- `startGame`, `closePuzzle`, `updateHUD`, the floating molecules, celebration effects and the win screen's DOM are UI and are not modelled. Of the win screen, only its time text and grade are modelled.
- Level.MarkLevel requires every station and item to lie inside the grid. The source would throw on a row outside the map and write past the end of a row; the built-in level meets the requirement.
- Sprites.SortFarthestFirst is an insertion sort rather than the engine's `Array.prototype.sort`. Only the order by distance and the permutation are stated, not the relative order of sprites at equal distances.
- Hud.NormalizeAngle: the result lies in [0, 2π], not [0, 2π). A heading of exactly 2π is kept, because the first loop tests `> 2π`.
- Engine.Game.CheckItemCollisions: the walk runs on copies of the list, health and keys, which are stored back at the end. Nothing reads them in between, so this differs from the source only in when the result becomes visible.
- `generateChemistryReport`, the console output, curriculum alignment and the other report functions of the validator are output and are not modelled.
- Validator.KindOf: a type that names an `Object.prototype` member (such as `"constructor"`) is treated as unknown. In the source, such a type makes the lookup tables return an inherited member, and the terminology check would then fail with a type error.
- `toLowerCase` is modelled on ASCII letters only. Other capitals, such as Greek or accented letters, are kept.
- Validator.BuiltInPuzzlesValidate: only the absence of a throw is proved for the six built-in puzzles, not their individual scores.
- Validator.Score requires exactly five validations, as `validatePuzzle` always builds.
- `browser-compatibility-test-suite.js`, `test-suite.js`, `game-validator.js` and `advanced-puzzles.js` are browser probes, DOM checks and UI widgets. They are not part of this model.

## Findings

| source | as written | input that shows it | evidently intended | confidence | as-written member | corrected member |
|---|---|---|---|---|---|---|
| doom-chemistry-escape/game.js:1111-1117 | the texture hit point adds `distance * sin` (or `cos`) to the player position, with the distance still in tiles while the position is in world units | the player at (96, 96) in the built-in level, ray with cos 0.6 and sin 0.8: the ray stops at the wall (3, 4) on side 1; as written the hit x is 97.875 (column 1) and the texture column is 0.529296875 | the distance converted to world units (times 64): hit x 216, inside column 3 on the crossed grid line, texture column 0.375 | not executed; high | Raycast.HitOffsetAsWritten, Scenario.SampleRayTexture | Raycast.HitOffset, Raycast.HitPointOnCrossedGridLine, Raycast.CastRay |
| doom-chemistry-escape/game.js:1624-1627 | the sprite bearing `atan2(dy, dx) - angle` is not normalised before the test `abs(angle) > HALF_FOV + 0.5` | heading 3π/2 and a sprite straight ahead, whose `atan2` is -π/2: the bearing is -2π, so the sprite is culled | the bearing brought into [-π, π], so a sprite straight ahead is drawn for every heading | not executed; high | Sprites.BearingAsWritten, Sprites.InFieldAsWritten, Sprites.StraightAheadCulledAsWritten | Sprites.Bearing, Sprites.InField, Sprites.Visible, Sprites.StraightAheadIsVisible |
