/** The small numeric helpers of game.js around the view and the HUD:
    heading normalisation, the MM:SS clock, the win grade, the pun
    rotation and the distance-based light factors. */
module Hud {
  import opened Common

  /** `Math.PI * 2` as the double the source computes with. */
  const TWO_PI: real := 6.283185307179586
  /** Radians per pixel of horizontal mouse movement. */
  const MOUSE_SENSITIVITY: real := 0.003
  const MAX_DEPTH: real := 800.0

  // ------------------------------------------------------------- heading

  /** `a` turned by `k` whole turns. */
  function Turned(a: real, k: int): real { a + k as real * TWO_PI }

  /** The two normalisation loops of the mouse handler (game.js:757-758):
      subtract full turns while above 2*PI, then add full turns while below 0. */
  method NormalizeAngle(a: real) returns (r: real)
    ensures 0.0 <= r <= TWO_PI
    ensures exists k :: r == Turned(a, k)
    ensures 0.0 <= a <= TWO_PI ==> r == a
  {
    r := a;
    ghost var k := 0;
    while r > TWO_PI
      invariant r == Turned(a, k)
      invariant a <= TWO_PI ==> k == 0
      invariant a > TWO_PI ==> r > 0.0
      decreases r
    {
      r := r - TWO_PI;
      k := k - 1;
    }
    while r < 0.0
      invariant r == Turned(a, k)
      invariant r <= TWO_PI
      invariant 0.0 <= a <= TWO_PI ==> r == a
      decreases -r
    {
      r := r + TWO_PI;
      k := k + 1;
    }
  }

  /** The heading after a mouse movement of `movementX` pixels, before normalising. */
  function Turn(angle: real, movementX: real): real { angle + movementX * MOUSE_SENSITIVITY }

  /** A mouse movement of `movementX` pixels: turn, then normalise. */
  method Look(angle: real, movementX: real) returns (r: real)
    ensures 0.0 <= r <= TWO_PI
    ensures exists k :: r == Turned(Turn(angle, movementX), k)
  {
    r := NormalizeAngle(Turn(angle, movementX));
  }

  // --------------------------------------------------------------- clock

  predicate IsDigit(c: char) { '0' <= c <= '9' }

  function DigitValue(c: char): nat
    requires IsDigit(c)
  {
    (c - '0') as nat
  }

  /** The decimal digit for `d`; reading it back gives `d`. */
  function DigitChar(d: nat): (c: char)
    requires d < 10
    ensures IsDigit(c) && DigitValue(c) == d
  {
    ('0' as int + d) as char
  }

  /** `n.toString()` for a non-negative integer. */
  function Decimal(n: nat): (s: seq<char>)
    ensures 1 <= |s|
    ensures forall i :: 0 <= i < |s| ==> IsDigit(s[i])
    ensures |s| == 1 <==> n < 10
    ensures n < 100 ==> |s| <= 2
    decreases n
  {
    if n < 10 then [DigitChar(n)] else Decimal(n / 10) + [DigitChar(n % 10)]
  }

  /** `s.padStart(2, '0')`. */
  function PadStart2(s: seq<char>): (r: seq<char>)
    ensures |r| == if |s| >= 2 then |s| else 2
    ensures r[|r| - |s|..] == s
    ensures forall i :: 0 <= i < |r| - |s| ==> r[i] == '0'
  {
    if |s| >= 2 then s else seq(2 - |s|, _ => '0') + s
  }

  /** The HUD and win-screen clock `MM:SS` for `gameTime` whole seconds. */
  function FormatTime(gameTime: nat): (s: seq<char>)
    ensures |s| >= 5
    ensures s[|s| - 3] == ':'
  {
    var mm, ss := PadStart2(Decimal(gameTime / 60)), PadStart2(Decimal(gameTime % 60));
    assert |ss| == 2;
    mm + ":" + ss
  }

  /** The value of a string of decimal digits. */
  function DigitsValue(s: seq<char>): nat
    requires forall i :: 0 <= i < |s| ==> IsDigit(s[i])
    decreases |s|
  {
    if s == [] then 0 else DigitsValue(s[..|s| - 1]) * 10 + DigitValue(s[|s| - 1])
  }

  predicate AllDigits(s: seq<char>) { forall i :: 0 <= i < |s| ==> IsDigit(s[i]) }

  /** The number of seconds a clock showing `minutes`:`seconds` stands for. */
  function Clock(minutes: nat, seconds: nat): nat { minutes * 60 + seconds }

  /** Reading a clock back: digits, a colon, exactly two digits below 60. */
  function ParseTime(s: seq<char>): (r: Option<nat>)
    ensures r.Some? ==> |s| >= 4 && s[|s| - 3] == ':'
  {
    if |s| < 4 || s[|s| - 3] != ':' then None
    else
      var mm, ss := s[..|s| - 3], s[|s| - 2..];
      if !AllDigits(mm) || !AllDigits(ss) || DigitsValue(ss) >= 60 then None
      else Some(Clock(DigitsValue(mm), DigitsValue(ss)))
  }

  lemma {:induction false} DecimalValue(n: nat)
    ensures DigitsValue(Decimal(n)) == n
    decreases n
  {
    if n >= 10 {
      DecimalValue(n / 10);
      var s := Decimal(n);
      assert s[..|s| - 1] == Decimal(n / 10);
      assert DigitValue(s[|s| - 1]) == n % 10;
    }
  }

  lemma PaddedValue(n: nat)
    ensures AllDigits(PadStart2(Decimal(n)))
    ensures DigitsValue(PadStart2(Decimal(n))) == n
  {
    DecimalValue(n);
    var s := PadStart2(Decimal(n));
    if n < 10 {
      assert s == ['0', DigitChar(n)];
      assert s[..1] == ['0'];
      assert [DigitChar(n)][..0] == [];
    }
  }

  lemma ParseClock(mm: seq<char>, ss: seq<char>)
    requires 1 <= |mm| && AllDigits(mm) && AllDigits(ss) && |ss| == 2 && DigitsValue(ss) < 60
    ensures ParseTime(mm + ":" + ss) == Some(Clock(DigitsValue(mm), DigitsValue(ss)))
  {
    var s := mm + ":" + ss;
    assert s[|s| - 3] == ':';
    assert s[..|s| - 3] == mm;
    assert s[|s| - 2..] == ss;
  }

  /** The clock is read back as the time it shows: nothing is lost by the
      padding, and the seconds field always holds two digits below 60. */
  lemma FormatTimeRoundTrip(gameTime: nat)
    ensures ParseTime(FormatTime(gameTime)) == Some(gameTime)
  {
    var m, sec := gameTime / 60, gameTime % 60;
    PaddedValue(m);
    PaddedValue(sec);
    ParseClock(PadStart2(Decimal(m)), PadStart2(Decimal(sec)));
    assert Clock(m, sec) == gameTime;
  }

  // --------------------------------------------------------------- grade

  datatype Letter = APlus | A | BPlus | B

  datatype Medal = Trophy | GoldMedal | SilverMedal | BronzeMedal | Target

  datatype Grade = Grade(letter: Letter, medal: Medal)

  /** `grade.replace('+', '')`. */
  function DropPlus(l: Letter): Letter {
    match l
    case APlus => A
    case BPlus => B
    case _ => l
  }

  /** The win-screen grade (game.js:2000-2005): later thresholds overwrite
      earlier ones, then low health drops the plus and shows the target. */
  function WinGrade(gameTime: int, health: int): (g: Grade)
    ensures g.medal == Target <==> health < 50
    ensures health < 50 ==> g.letter == A || g.letter == B
  {
    var byTime :=
      if gameTime > 900 then Grade(B, BronzeMedal)
      else if gameTime > 600 then Grade(BPlus, SilverMedal)
      else if gameTime > 300 then Grade(A, GoldMedal)
      else Grade(APlus, Trophy);
    if health < 50 then Grade(DropPlus(byTime.letter), Target) else byTime
  }

  function Rank(l: Letter): nat {
    match l
    case APlus => 4
    case A => 3
    case BPlus => 2
    case B => 1
  }

  /** A slower escape or less health never earns a better letter. */
  lemma WinGradeMonotone(t: int, t': int, h: int, h': int)
    requires t <= t' && h' <= h
    ensures Rank(WinGrade(t', h').letter) <= Rank(WinGrade(t, h).letter)
  {
  }

  /** With at least 50 health the letter depends only on the time band. */
  lemma WinGradeBands(t: int, h: int)
    requires h >= 50
    ensures WinGrade(t, h).letter == APlus <==> t <= 300
    ensures WinGrade(t, h).letter == A <==> 300 < t <= 600
    ensures WinGrade(t, h).letter == BPlus <==> 600 < t <= 900
    ensures WinGrade(t, h).letter == B <==> 900 < t
  {
  }

  // ----------------------------------------------------------------- puns

  /** The number of entries in `chemistryPuns`. */
  const PUN_COUNT: nat := 10
  /** Minimum milliseconds between two puns. */
  const PUN_INTERVAL: int := 10000

  datatype PunState = PunState(index: nat, lastTime: int)

  /** `showChemistryPun()` at clock value `now`: the new state and the index
      of the pun shown, or None when the last one was under 10 s ago. */
  function ShowPun(p: PunState, now: int): (r: (PunState, Option<nat>))
    ensures now - p.lastTime < PUN_INTERVAL ==> r == (p, None)
    ensures now - p.lastTime >= PUN_INTERVAL ==>
      r.1 == Some(p.index) && r.0.lastTime == now && r.0.index == (p.index + 1) % PUN_COUNT
  {
    if now - p.lastTime < PUN_INTERVAL then (p, None)
    else (PunState((p.index + 1) % PUN_COUNT, now), Some(p.index))
  }

  /** The index always names an existing pun, and a pun shown is followed,
      at the next show, by the next pun in the list (wrapping round). */
  lemma PunRoundRobin(p: PunState, now: int, later: int)
    requires p.index < PUN_COUNT
    requires now - p.lastTime >= PUN_INTERVAL
    requires later - now >= PUN_INTERVAL
    ensures var (q, shown) := ShowPun(p, now);
      q.index < PUN_COUNT && shown == Some(p.index)
      && ShowPun(q, later).1 == Some((p.index + 1) % PUN_COUNT)
  {
  }

  /** No two puns within 10 s of each other. */
  lemma PunThrottle(p: PunState, now: int, later: int)
    requires later - now < PUN_INTERVAL
    ensures ShowPun(ShowPun(p, now).0, later).1 == None || ShowPun(p, now).1 == None
  {
  }

  // --------------------------------------------------------------- light

  /** The wall strip light at game.js:1407-1409: distance fall-off clamped
      to [0.1, 1], times 0.75 for horizontal grid lines (side 1). */
  function WallLight(distance: real, side: int): (f: real)
    ensures 0.075 <= f <= 1.0
    ensures side == 0 ==> 0.1 <= f
  {
    Clamp(0.1, 1.0, 1.0 - distance / MAX_DEPTH) * (if side == 0 then 1.0 else 0.75)
  }

  /** The sprite light at game.js:1636: the fall-off clamped to [0.3, 1]. */
  function SpriteLight(distance: real): (f: real)
    ensures 0.3 <= f <= 1.0
  {
    Clamp(0.3, 1.0, 1.0 - distance / MAX_DEPTH)
  }

  /** Light never grows with distance, and a side-1 strip is exactly three
      quarters as bright as a side-0 strip at the same depth. */
  lemma LightFallsOff(d: real, d': real, side: int)
    requires d <= d'
    ensures WallLight(d', side) <= WallLight(d, side)
    ensures SpriteLight(d') <= SpriteLight(d)
    ensures WallLight(d, 1) == 0.75 * WallLight(d, 0)
  {
  }

  /** Inside the depth range the light is the plain linear fall-off
      until it reaches its floor. */
  lemma LightIsLinearNearby(d: real)
    requires 0.0 <= d <= 720.0
    ensures WallLight(d, 0) == 1.0 - d / MAX_DEPTH
  {
  }
}
