/** The escape-room progression of game.js as values: item pickup, station
    activation, the `interact` selection, the answer check, `solvePuzzle` and
    the win test. The class `Engine.Game` performs these steps in place;
    the functions here are what its methods are proved against. */
module Progression {
  import opened Common
  import opened Grid

  /** 30 squared: an item is picked up strictly inside 30 units of its tile centre. */
  const PICKUP_RANGE_SQ: real := 900.0
  /** 50 squared: a station is usable strictly inside 50 units of its tile centre. */
  const INTERACT_RANGE_SQ: real := 2500.0
  const MAX_HEALTH: int := 100
  const PUZZLE_COUNT: int := 6

  datatype Equipment = Computer | PeriodicTable | Microscope

  datatype Station = Station(mapX: int, mapY: int, puzzleId: int, active: bool,
                             equipment: Equipment, height: int, width: int)

  /** An item's `type`: 'health', 'key', or any other string, which is
      picked up and spliced out without any effect. */
  datatype ItemKind = HealthPack | KeyItem | OtherItem

  datatype Item = Item(mapX: int, mapY: int, kind: ItemKind, value: int)

  /** The puzzle fields the progression reads: id, index of the right option, points. */
  datatype GamePuzzle = GamePuzzle(id: int, correct: int, reward: int)

  /** Health and key count of the player. */
  datatype Stats = Stats(health: int, keys: int)

  /** The part of the game state that `solvePuzzle` and
      `updatePuzzleStations` change. */
  datatype Lab = Lab(puzzlesSolved: int, score: int, doors: seq<Door>, stations: seq<Station>)

  /** `c * TILE_SIZE + TILE_SIZE / 2`: the centre of tile column or row `c`. */
  function TileCentre(c: int): real { c as real * TILE_SIZE + TILE_SIZE / 2.0 }

  function DistSq(x: real, y: real, cx: real, cy: real): real {
    (x - cx) * (x - cx) + (y - cy) * (y - cy)
  }

  // ---------------------------------------------------------------- items

  predicate InPickupRange(px: real, py: real, it: Item) {
    DistSq(px, py, TileCentre(it.mapX), TileCentre(it.mapY)) < PICKUP_RANGE_SQ
  }

  /** The items left after one `checkItemCollisions`, in their original order. */
  function Kept(px: real, py: real, items: seq<Item>): (r: seq<Item>)
    ensures |r| <= |items|
    ensures forall it :: it in r ==> it in items && !InPickupRange(px, py, it)
  {
    if items == [] then []
    else if InPickupRange(px, py, items[0]) then Kept(px, py, items[1..])
    else [items[0]] + Kept(px, py, items[1..])
  }

  /** The effect of taking one item. */
  function ApplyItem(it: Item, st: Stats): Stats {
    match it.kind
    case HealthPack => st.(health := MinInt(MAX_HEALTH, st.health + it.value))
    case KeyItem => st.(keys := st.keys + it.value)
    case OtherItem => st
  }

  /** The stats after one `checkItemCollisions`: the loop runs from the last
      item to the first, so the first item's effect is applied last. */
  function Collect(px: real, py: real, items: seq<Item>, st: Stats): Stats {
    if items == [] then st
    else
      var st' := Collect(px, py, items[1..], st);
      if InPickupRange(px, py, items[0]) then ApplyItem(items[0], st') else st'
  }

  /** Sum of the values of the items of `kind` that are taken. */
  function TakenValue(px: real, py: real, items: seq<Item>, kind: ItemKind): int {
    if items == [] then 0
    else (if InPickupRange(px, py, items[0]) && items[0].kind == kind then items[0].value else 0)
         + TakenValue(px, py, items[1..], kind)
  }

  lemma {:induction false} KeptAppend(px: real, py: real, a: seq<Item>, b: seq<Item>)
    ensures Kept(px, py, a + b) == Kept(px, py, a) + Kept(px, py, b)
    decreases |a|
  {
    if a == [] {
      assert a + b == b;
    } else {
      assert (a + b)[0] == a[0];
      assert (a + b)[1..] == a[1..] + b;
      KeptAppend(px, py, a[1..], b);
      if !InPickupRange(px, py, a[0]) {
        assert Kept(px, py, a + b) == [a[0]] + (Kept(px, py, a[1..]) + Kept(px, py, b));
      }
    }
  }

  /** Exactly the items out of pickup range remain, and none is duplicated
      or invented: an item survives iff it is out of range. */
  lemma {:induction false} KeptIff(px: real, py: real, items: seq<Item>, it: Item)
    ensures it in Kept(px, py, items) <==> it in items && !InPickupRange(px, py, it)
    decreases |items|
  {
    if items != [] {
      KeptIff(px, py, items[1..], it);
      assert items == [items[0]] + items[1..];
    }
  }

  /** One iteration of the backward pickup loop, at index `i`. */
  lemma PickupStep(px: real, py: real, s: seq<Item>, i: int, st: Stats)
    requires 0 <= i < |s|
    ensures Kept(px, py, s[i..]) ==
      if InPickupRange(px, py, s[i]) then Kept(px, py, s[i + 1..]) else [s[i]] + Kept(px, py, s[i + 1..])
    ensures Collect(px, py, s[i..], st) ==
      if InPickupRange(px, py, s[i]) then ApplyItem(s[i], Collect(px, py, s[i + 1..], st))
      else Collect(px, py, s[i + 1..], st)
  {
    assert s[i..][0] == s[i];
    assert s[i..][1..] == s[i + 1..];
  }

  /** The list the backward loop holds at index `i`, untouched below `i`
      and already filtered above it, with element `i` taken out or kept. */
  lemma SpliceAt<T>(s: seq<T>, rest: seq<T>, i: int)
    requires 0 <= i < |s|
    ensures var t := s[..i + 1] + rest;
      t[i] == s[i] && t[..i] + t[i + 1..] == s[..i] + rest && t == s[..i] + ([s[i]] + rest)
  {
    var t := s[..i + 1] + rest;
    assert t[..i] == s[..i];
    assert t[i + 1..] == rest;
  }

  /** Keys grow by the sum of the values of the keys taken. */
  lemma {:induction false} CollectKeys(px: real, py: real, items: seq<Item>, st: Stats)
    ensures Collect(px, py, items, st).keys == st.keys + TakenValue(px, py, items, KeyItem)
    decreases |items|
  {
    if items != [] {
      CollectKeys(px, py, items[1..], st);
    }
  }

  /** Health becomes min(100, h + the health values taken): the cap applied
      after every pack and the cap applied once agree, because pack values
      are not negative. */
  lemma {:induction false} CollectHealth(px: real, py: real, items: seq<Item>, st: Stats)
    requires st.health <= MAX_HEALTH
    requires forall it :: it in items ==> it.value >= 0
    ensures Collect(px, py, items, st).health
         == MinInt(MAX_HEALTH, st.health + TakenValue(px, py, items, HealthPack))
    decreases |items|
  {
    if items != [] {
      assert forall it :: it in items[1..] ==> it in items;
      CollectHealth(px, py, items[1..], st);
    }
  }

  /** Nothing is taken out of range: an empty pickup leaves the stats alone. */
  lemma {:induction false} NothingInRange(px: real, py: real, items: seq<Item>, st: Stats)
    requires forall it :: it in items ==> !InPickupRange(px, py, it)
    ensures Collect(px, py, items, st) == st
    ensures Kept(px, py, items) == items
    decreases |items|
  {
    if items != [] {
      assert forall it :: it in items[1..] ==> it in items;
      NothingInRange(px, py, items[1..], st);
    }
  }

  // ------------------------------------------------------------- stations

  /** One `updatePuzzleStations`: every station with puzzleId <= solved + 1
      becomes active; no station is ever switched off. */
  function ActivateStations(ss: seq<Station>, solved: int): (r: seq<Station>)
    ensures |r| == |ss|
  {
    seq(|ss|, i requires 0 <= i < |ss| =>
      if ss[i].puzzleId <= solved + 1 then ss[i].(active := true) else ss[i])
  }

  /** Stations after activation: active exactly when they were, or when
      their id is at most solved + 1; every other field is unchanged. */
  lemma ActivateStationsSpec(ss: seq<Station>, solved: int, i: int)
    requires 0 <= i < |ss|
    ensures var s := ActivateStations(ss, solved)[i];
      s.active == (ss[i].active || ss[i].puzzleId <= solved + 1)
      && s == ss[i].(active := s.active)
  {
  }

  /** Running the activation twice is the same as running it once. */
  lemma ActivateStationsIdempotent(ss: seq<Station>, solved: int)
    ensures ActivateStations(ActivateStations(ss, solved), solved) == ActivateStations(ss, solved)
  {
  }

  /** More progress never deactivates anything. */
  lemma ActivateStationsMonotone(ss: seq<Station>, solved: int, solved': int, i: int)
    requires solved <= solved' && 0 <= i < |ss|
    ensures ActivateStations(ss, solved)[i].active ==> ActivateStations(ss, solved')[i].active
  {
  }

  // ------------------------------------------------------------- interact

  predicate InInteractRange(px: real, py: real, s: Station) {
    DistSq(px, py, TileCentre(s.mapX), TileCentre(s.mapY)) < INTERACT_RANGE_SQ
  }

  predicate Usable(px: real, py: real, s: Station) {
    s.active && InInteractRange(px, py, s)
  }

  /** The station `interact` opens: the first in list order that is active
      and strictly within 50 units of its tile centre. */
  function InteractTarget(ss: seq<Station>, px: real, py: real): (r: Option<nat>)
    ensures r.Some? ==> r.value < |ss| && Usable(px, py, ss[r.value])
    ensures r.Some? ==> forall j :: 0 <= j < r.value ==> !Usable(px, py, ss[j])
    ensures r.None? <==> forall j :: 0 <= j < |ss| ==> !Usable(px, py, ss[j])
  {
    FirstIndex(ss, (s: Station) => Usable(px, py, s))
  }

  /** `chemistryPuzzles.find(p => p.id === puzzleId)`. */
  function PuzzleById(puzzles: seq<GamePuzzle>, id: int): (r: Option<GamePuzzle>)
    ensures r.Some? ==> r.value in puzzles && r.value.id == id
    ensures r.None? <==> forall p :: p in puzzles ==> p.id != id
  {
    match FirstIndex(puzzles, (p: GamePuzzle) => p.id == id)
    case None => None
    case Some(k) => Some(puzzles[k])
  }

  /** The puzzle that pressing E opens, if any. */
  function Interact(ss: seq<Station>, puzzles: seq<GamePuzzle>, px: real, py: real): (r: Option<GamePuzzle>)
    ensures r.Some? ==> exists j :: 0 <= j < |ss| && Usable(px, py, ss[j]) && ss[j].puzzleId == r.value.id
    ensures (forall j :: 0 <= j < |ss| ==> !Usable(px, py, ss[j])) ==> r.None?
  {
    match InteractTarget(ss, px, py)
    case None => None
    case Some(k) => PuzzleById(puzzles, ss[k].puzzleId)
  }

  /** An inactive station is never opened, however close the player stands. */
  lemma InactiveStationIgnored(ss: seq<Station>, px: real, py: real, i: int)
    requires 0 <= i < |ss| && !ss[i].active
    ensures InteractTarget(ss, px, py) != Some(i)
  {
  }

  /** The answer check `selectedIndex === this.currentPuzzle.correct`. */
  predicate IsCorrect(p: GamePuzzle, selected: int) {
    selected == p.correct
  }

  // ---------------------------------------------------------------- solve

  /** Clear `locked` on the first door with puzzleId `id`, if there is one. */
  function UnlockFirst(doors: seq<Door>, id: int): (r: seq<Door>)
    ensures |r| == |doors|
  {
    match FirstIndex(doors, (d: Door) => d.puzzleId == id)
    case None => doors
    case Some(k) => doors[k := doors[k].(locked := false)]
  }

  /** Clear `active` on the first station with puzzleId `id`, if there is one. */
  function DeactivateFirst(ss: seq<Station>, id: int): (r: seq<Station>)
    ensures |r| == |ss|
  {
    match FirstIndex(ss, (s: Station) => s.puzzleId == id)
    case None => ss
    case Some(k) => ss[k := ss[k].(active := false)]
  }

  /** `doors'` differs from `doors` at most by cleared `locked` flags. */
  predicate OnlyUnlocked(doors: seq<Door>, doors': seq<Door>) {
    |doors'| == |doors|
    && forall j :: 0 <= j < |doors| ==>
         doors'[j] == doors[j] || doors'[j] == doors[j].(locked := false)
  }

  /** Only the first door with the puzzle's id is touched, and it ends up
      unlocked; a list without such a door is unchanged. */
  lemma UnlockFirstSpec(doors: seq<Door>, id: int)
    ensures OnlyUnlocked(doors, UnlockFirst(doors, id))
    ensures forall j :: 0 <= j < |doors| && (doors[j].puzzleId != id || exists i :: 0 <= i < j && doors[i].puzzleId == id)
              ==> UnlockFirst(doors, id)[j] == doors[j]
    ensures forall k :: 0 <= k < |doors| && doors[k].puzzleId == id && (forall i :: 0 <= i < k ==> doors[i].puzzleId != id)
              ==> UnlockFirst(doors, id)[k] == doors[k].(locked := false)
  {
  }

  /** Only the first station with the puzzle's id is touched, and it ends up
      inactive; a list without such a station is unchanged. */
  lemma DeactivateFirstSpec(ss: seq<Station>, id: int)
    ensures forall j :: 0 <= j < |ss| ==>
              DeactivateFirst(ss, id)[j] == ss[j] || DeactivateFirst(ss, id)[j] == ss[j].(active := false)
    ensures forall j :: 0 <= j < |ss| && (ss[j].puzzleId != id || exists i :: 0 <= i < j && ss[i].puzzleId == id)
              ==> DeactivateFirst(ss, id)[j] == ss[j]
    ensures forall k :: 0 <= k < |ss| && ss[k].puzzleId == id && (forall i :: 0 <= i < k ==> ss[i].puzzleId != id)
              ==> DeactivateFirst(ss, id)[k] == ss[k].(active := false)
  {
  }

  /** An unlocked door never becomes a wall again, for movement or for rays. */
  lemma UnlockMakesNothingBlock(grid: Map, doors: seq<Door>, id: int, x: real, y: real, radius: real)
    ensures CheckGridCollision(grid, UnlockFirst(doors, id), x, y, radius) ==> CheckGridCollision(grid, doors, x, y, radius)
  {
    UnlockFirstSpec(doors, id);
    UnlockingNeverCollides(grid, doors, UnlockFirst(doors, id), x, y, radius);
  }

  /** `solvePuzzle(puzzle)`: no check that the puzzle was already solved. */
  function Solve(lab: Lab, p: GamePuzzle): (r: Lab)
    ensures r.puzzlesSolved == lab.puzzlesSolved + 1
    ensures r.score == lab.score + p.reward
    ensures OnlyUnlocked(lab.doors, r.doors)
    ensures |r.stations| == |lab.stations|
  {
    UnlockFirstSpec(lab.doors, p.id);
    Lab(lab.puzzlesSolved + 1, lab.score + p.reward,
        UnlockFirst(lab.doors, p.id), DeactivateFirst(lab.stations, p.id))
  }

  /** The station part of one frame of `update` (game.js:917). */
  function Tick(lab: Lab): Lab {
    lab.(stations := ActivateStations(lab.stations, lab.puzzlesSolved))
  }

  /** The win test of `update`. */
  predicate HasWon(lab: Lab) { lab.puzzlesSolved >= PUZZLE_COUNT }

  /** Solving `p` `n` times in a row. */
  function SolveRepeatedly(lab: Lab, p: GamePuzzle, n: nat): Lab
    decreases n
  {
    if n == 0 then lab else SolveRepeatedly(Solve(lab, p), p, n - 1)
  }

  lemma {:induction false} SolveRepeatedlyCounts(lab: Lab, p: GamePuzzle, n: nat)
    ensures SolveRepeatedly(lab, p, n).puzzlesSolved == lab.puzzlesSolved + n
    ensures SolveRepeatedly(lab, p, n).score == lab.score + n * p.reward
    ensures n > 0 ==> SolveRepeatedly(lab, p, n).doors == UnlockFirst(lab.doors, p.id)
    decreases n
  {
    if n > 0 {
      SolveRepeatedlyCounts(Solve(lab, p), p, n - 1);
      if n > 1 {
        UnlockFirstTwice(lab.doors, p.id);
      }
    }
  }

  lemma UnlockFirstTwice(doors: seq<Door>, id: int)
    ensures UnlockFirst(UnlockFirst(doors, id), id) == UnlockFirst(doors, id)
  {
    var once := UnlockFirst(doors, id);
    match FirstIndex(doors, (d: Door) => d.puzzleId == id)
    case None =>
    case Some(k) =>
      var k' := FirstIndex(once, (d: Door) => d.puzzleId == id);
      assert once[k].puzzleId == id;
      assert k'.Some?;
      assert k'.value == k;
  }

  /** Because there is no double-solve guard, solving the same puzzle six
      times wins the game while only its own door has opened. */
  lemma RepeatSolveWins(lab: Lab, p: GamePuzzle)
    requires lab.puzzlesSolved == 0
    ensures HasWon(SolveRepeatedly(lab, p, 6))
    ensures SolveRepeatedly(lab, p, 6).doors == UnlockFirst(lab.doors, p.id)
  {
    SolveRepeatedlyCounts(lab, p, 6);
  }

  /** Because `updatePuzzleStations` only ever switches stations on, the
      station that `solvePuzzle` switched off is on again after the next
      frame: its id stays at most puzzlesSolved + 1. */
  lemma SolvedStationReactivated(lab: Lab, p: GamePuzzle, i: int)
    requires 0 <= i < |lab.stations| && lab.stations[i].puzzleId == p.id
    requires p.id <= lab.puzzlesSolved + 1
    ensures Tick(Solve(lab, p)).stations[i].active
  {
  }
}
