/**
 * The bottle-flip game: a 60-second round in which each upward swipe throws
 * the bottle, an upright landing extends a combo (worth 2 points instead of
 * 1 once the combo reaches 3, "fever"), and a fall resets the combo.
 *
 * The flight itself (gravity, rotation, the floor test) is not modelled: a
 * landing arrives as a boolean `upright`, a throw as the pointer positions
 * and times, and the clock and random draws are parameters.
 */
module BottleGame {
  import opened JsMath

  /** Length of a round, in seconds. */
  const RoundSeconds: real := 60.0
  /** Number of water colours; every 3 combo steps move to the next one. */
  const ComboColorCount: nat := 10
  /** The combo from which landings are worth double. */
  const FeverCombo: nat := 3
  /** A swipe must rise more than this many pixels ... */
  const MinSwipeDistance: real := 50.0
  /** ... and last more than this many milliseconds to throw. */
  const MinSwipeMillis: real := 50.0

  /** `GameState`: the record the game replaces on every update. */
  datatype GameState = GameState(
    isGameActive: bool,
    timeLeft: real,
    score: nat,
    tryCount: nat,
    comboCount: nat,
    isFeverMode: bool,
    isFlying: bool,
    canThrow: bool,
    showIntro: bool,
    showEnd: bool)

  /** The state before the first round and after a restart. */
  const Initial: GameState := GameState(false, RoundSeconds, 0, 0, 0, false, false, false, true, false)

  /** Fever is on exactly from the third straight landing, the clock stays in [0, 60], and throwing needs a running round. */
  predicate Consistent(s: GameState)
  {
    (s.isFeverMode <==> s.comboCount >= FeverCombo) &&
    0.0 <= s.timeLeft <= RoundSeconds &&
    (s.canThrow ==> s.isGameActive)
  }

  /** `Math.min(Math.max(v, lo), hi)`. */
  function Clamp(v: real, lo: real, hi: real): (r: real)
    requires lo <= hi
    ensures lo <= r <= hi
    ensures lo <= v <= hi ==> r == v
    ensures v < lo ==> r == lo
    ensures hi < v ==> r == hi
  {
    Min(Max(v, lo), hi)
  }

  // ---------------------------------------------------------------------
  // The record updates

  /** `startGame`: a new round with a full clock and a clean scoreboard. */
  function Started(s: GameState): (t: GameState)
    ensures Consistent(t)
    ensures t.isGameActive && t.canThrow && !t.showIntro && t.timeLeft == RoundSeconds
    ensures t.score == 0 && t.tryCount == 0 && t.comboCount == 0 && !t.isFeverMode
    ensures t.isFlying == s.isFlying && t.showEnd == s.showEnd
  {
    s.(showIntro := false, isGameActive := true, canThrow := true, timeLeft := RoundSeconds,
       score := 0, tryCount := 0, comboCount := 0, isFeverMode := false)
  }

  /** One countdown tick, `elapsed` seconds after the start: the clock shows `max(0, 60 - elapsed)` and the round ends at 0. */
  function Ticked(s: GameState, elapsed: real): (t: GameState)
    requires elapsed >= 0.0
    ensures 0.0 <= t.timeLeft <= RoundSeconds
    ensures t.timeLeft == 0.0 <==> elapsed >= RoundSeconds
    ensures elapsed >= RoundSeconds ==> !t.isGameActive && t.showEnd && !t.canThrow
    ensures elapsed < RoundSeconds ==> t == s.(timeLeft := RoundSeconds - elapsed)
    ensures t.score == s.score && t.tryCount == s.tryCount && t.comboCount == s.comboCount
    ensures Consistent(s) ==> Consistent(t)
  {
    var remaining := Max(0.0, RoundSeconds - elapsed);
    var t := s.(timeLeft := remaining);
    if remaining <= 0.0 then t.(isGameActive := false, showEnd := true, canThrow := false) else t
  }

  /** A registered throw: one more try, the bottle in the air, no second throw. */
  function Thrown(s: GameState): (t: GameState)
    ensures t.tryCount == s.tryCount + 1 && t.isFlying && !t.canThrow
    ensures t.score == s.score && t.comboCount == s.comboCount
    ensures Consistent(s) ==> Consistent(t)
  {
    s.(tryCount := s.tryCount + 1, isFlying := true, canThrow := false)
  }

  /** The points an upright landing earns when the combo reaches `newCombo`. */
  function LandingPoints(newCombo: nat): (p: nat)
    ensures p == 1 || p == 2
    ensures p == 2 <==> newCombo >= FeverCombo
  {
    if newCombo >= FeverCombo then 2 else 1
  }

  /**
   * `checkLanding`, after the floor test: an upright landing extends the
   * combo and scores; a fall breaks the combo and scores nothing. Either
   * way the bottle is no longer flying and the try count is unchanged.
   */
  function Landed(s: GameState, upright: bool): (t: GameState)
    ensures !t.isFlying && t.tryCount == s.tryCount
    ensures upright ==> t.comboCount == s.comboCount + 1 && t.score == s.score + LandingPoints(t.comboCount)
    ensures upright ==> (t.isFeverMode <==> t.comboCount >= FeverCombo)
    ensures !upright ==> t.comboCount == 0 && !t.isFeverMode && t.score == s.score
    ensures t.canThrow == s.canThrow && t.isGameActive == s.isGameActive && t.timeLeft == s.timeLeft
    ensures Consistent(s) ==> Consistent(t)
  {
    if upright then
      var newCombo := s.comboCount + 1;
      var newFever := newCombo >= FeverCombo;
      s.(comboCount := newCombo, isFeverMode := newFever,
         score := s.score + LandingPoints(newCombo), isFlying := false)
    else
      s.(comboCount := 0, isFeverMode := false, isFlying := false)
  }

  /** `resetBottle`: the bottle stands again, throwable exactly while the round runs. */
  function BottleReset(s: GameState): (t: GameState)
    ensures !t.isFlying && t.canThrow == s.isGameActive
    ensures t.score == s.score && t.tryCount == s.tryCount && t.comboCount == s.comboCount
    ensures Consistent(s) ==> Consistent(t)
  {
    s.(isFlying := false, canThrow := s.isGameActive)
  }

  // ---------------------------------------------------------------------
  // Pure helpers of the screen

  /** `getComboColor`: the water colour index, one colour per three combo steps, the last one kept from 27 on. */
  function ComboColorIndex(combo: nat): (i: nat)
    ensures i < ComboColorCount
    ensures i < ComboColorCount - 1 ==> 3 * i <= combo < 3 * i + 3
    ensures i == ComboColorCount - 1 <==> combo >= 3 * (ComboColorCount - 1)
  {
    var index := combo / 3;
    if ComboColorCount - 1 < index then ComboColorCount - 1 else index
  }

  /** The colour never goes back as the combo grows. */
  lemma ComboColorMonotone(c1: nat, c2: nat)
    requires c1 <= c2
    ensures ComboColorIndex(c1) <= ComboColorIndex(c2)
  {
  }

  /** The success rate shown at the end: the rounded percentage of points per try, 0 with no tries. */
  function SuccessRate(score: nat, tryCount: nat): (r: int)
    ensures r >= 0
    ensures tryCount > 0 ==>
      (r as real) - 0.5 <= (score as real) / (tryCount as real) * 100.0 < (r as real) + 0.5
    ensures r == 0 <==> tryCount == 0 || 200 * score < tryCount
  {
    if tryCount == 0 then 0
    else
      var ratio := (score as real) / (tryCount as real) * 100.0;
      RateRounding(score, tryCount);
      Round(ratio)
  }

  lemma RateRounding(score: nat, tryCount: nat)
    requires tryCount > 0
    ensures Round((score as real) / (tryCount as real) * 100.0) >= 0
    ensures Round((score as real) / (tryCount as real) * 100.0) == 0 <==> 200 * score < tryCount
  {
    var n, k := score as real, tryCount as real;
    var q := n / k;
    QuotientBelow(n, k, 0.005);
    assert q >= 0.0 by {
      QuotientBelow(n, k, 0.0);
    }
    assert q * 100.0 < 0.5 <==> q < 0.005;
    assert n < 0.005 * k <==> 200 * score < tryCount;
  }

  /** The rank shown with the final result. */
  datatype Rank =
    | TryAgain  // 😅
    | Crown     // 👑
    | Sparkles  // ✨
    | ThumbsUp  // 👍

  /** The end-screen rank of a success rate. */
  function RankOf(rate: int): (k: Rank)
    ensures k == TryAgain <==> rate == 0
    ensures k == Crown <==> rate > 30
    ensures k == Sparkles <==> 15 < rate <= 30
    ensures k == ThumbsUp <==> rate != 0 && rate <= 15
  {
    if rate == 0 then TryAgain
    else if rate > 30 then Crown
    else if rate > 15 then Sparkles
    else ThumbsUp
  }

  // ---------------------------------------------------------------------
  // Launch

  /** The launch speed of a swipe `deltaY` pixels up in `deltaT` milliseconds. */
  function LaunchSpeed(deltaY: real, deltaT: real): (v: real)
    requires deltaT > 0.0
    ensures 12.0 <= v <= 26.0
  {
    Clamp(deltaY / deltaT * 8.0, 12.0, 26.0)
  }

  /** The spin of that swipe before the random bonus of up to 2. */
  function BaseSpin(deltaY: real, deltaT: real): (w: real)
    requires deltaT > 0.0
    ensures 6.0 <= w <= 22.0
  {
    Clamp(deltaY / deltaT * 0.45, 6.0, 22.0)
  }

  /** A faster swipe never launches slower. */
  lemma LaunchSpeedMonotone(dy1: real, dy2: real, deltaT: real)
    requires deltaT > 0.0 && dy1 <= dy2
    ensures LaunchSpeed(dy1, deltaT) <= LaunchSpeed(dy2, deltaT)
    ensures BaseSpin(dy1, deltaT) <= BaseSpin(dy2, deltaT)
  {
    assert dy1 / deltaT <= dy2 / deltaT by {
      assert dy2 / deltaT - dy1 / deltaT == (dy2 - dy1) / deltaT;
    }
  }

  // ---------------------------------------------------------------------
  // Streaks

  /** `n` rounds of throw, upright landing and bottle reset, from `s`. */
  function UprightRounds(s: GameState, n: nat): GameState
  {
    if n == 0 then s else BottleReset(Landed(Thrown(UprightRounds(s, n - 1)), true))
  }

  /** Points scored by a streak of `n` upright landings from a broken combo. */
  function StreakPoints(n: nat): nat
  {
    if n <= 2 then n else 2 * n - 2
  }

  /**
   * From a fresh round, `n` straight upright landings take `n` tries, build a
   * combo of `n` and score 1 + 1 + 2 + 2 + ...: fever pays twice per throw.
   */
  lemma {:induction false} UprightStreak(s: GameState, n: nat)
    requires s.score == 0 && s.tryCount == 0 && s.comboCount == 0
    ensures UprightRounds(s, n).tryCount == n
    ensures UprightRounds(s, n).comboCount == n
    ensures UprightRounds(s, n).score == StreakPoints(n)
  {
    if n > 0 {
      UprightStreak(s, n - 1);
    }
  }

  /** The success rate is not capped at 100: three upright landings in a row already beat it. */
  lemma FeverRateExceedsHundred(s: GameState, n: nat)
    requires s.score == 0 && s.tryCount == 0 && s.comboCount == 0 && n >= 3
    ensures SuccessRate(UprightRounds(s, n).score, UprightRounds(s, n).tryCount) > 100
  {
    UprightStreak(s, n);
    var score, tries := 2 * n - 2, n;
    var ratio := (score as real) / (tries as real) * 100.0;
    assert ratio * (tries as real) == 100.0 * (score as real);
    assert ratio >= 101.0;
  }

  // ---------------------------------------------------------------------
  // The game object

  class Game {
    /** The React state record. */
    var state: GameState
    /** Where and when the current swipe began (`startYRef`, `startTimeRef`). */
    var startY: real
    var startTime: real
    /** Whether the current press began off the control buttons (`isValidThrowStartRef`). */
    var validThrowStart: bool
    /** The launch values written into the physics refs. */
    var velocityY: real
    var velocityZ: real
    var rotationVelocity: real
    /** When the running countdown started, and whether it runs. */
    var timerStart: real
    var timerRunning: bool

    ghost predicate Valid()
      reads this
    {
      Consistent(state) && (timerRunning <==> state.isGameActive)
    }

    constructor ()
      ensures Valid() && state == Initial && !timerRunning && !validThrowStart
    {
      state := Initial;
      startY, startTime := 0.0, 0.0;
      validThrowStart := false;
      velocityY, velocityZ, rotationVelocity := 0.0, 0.0, 0.0;
      timerStart, timerRunning := 0.0, false;
    }

    /** `startGame` at time `now` (milliseconds): resets the scoreboard and starts the countdown. */
    method StartGame(now: real)
      requires Valid()
      modifies this`state, this`timerStart, this`timerRunning
      ensures Valid()
      ensures state == Started(old(state)) && timerRunning && timerStart == now
      ensures validThrowStart == old(validThrowStart)
      ensures velocityY == old(velocityY) && rotationVelocity == old(rotationVelocity)
    {
      state := Started(state);
      timerStart := now;
      timerRunning := true;
    }

    /** One countdown interval at time `now`; nothing happens once the countdown is cleared. */
    method Tick(now: real)
      requires Valid()
      requires timerRunning ==> now >= timerStart
      modifies this`state, this`timerRunning
      ensures Valid()
      ensures !old(timerRunning) ==> state == old(state) && !timerRunning
      ensures old(timerRunning) ==>
        var elapsed := (now - old(timerStart)) / 1000.0;
        state == Ticked(old(state), elapsed) && (timerRunning <==> elapsed < RoundSeconds)
      ensures timerStart == old(timerStart) && validThrowStart == old(validThrowStart)
    {
      if !timerRunning {
        return;
      }
      var elapsed := (now - timerStart) / 1000.0;
      state := Ticked(state, elapsed);
      if state.timeLeft <= 0.0 {
        timerRunning := false;
      }
    }

    /** `handlePointerDown`: remember where and when a throwable press off the buttons began. */
    method PointerDown(clientY: real, onControl: bool, now: real)
      requires Valid()
      modifies this`validThrowStart, this`startY, this`startTime
      ensures Valid() && state == old(state) && timerRunning == old(timerRunning)
      ensures !old(state.canThrow) ==>
        validThrowStart == old(validThrowStart) && startY == old(startY) && startTime == old(startTime)
      ensures old(state.canThrow) && onControl ==>
        !validThrowStart && startY == old(startY) && startTime == old(startTime)
      ensures old(state.canThrow) && !onControl ==>
        validThrowStart && startY == clientY && startTime == now
    {
      if !state.canThrow {
        return;
      }
      if onControl {
        validThrowStart := false;
        return;
      }
      validThrowStart := true;
      startY := clientY;
      startTime := now;
    }

    /**
     * Whether a release at `clientY`, time `now`, throws the bottle: only
     * while throwing is allowed (so while the round runs), after a press off
     * the buttons, and after a swipe of positive duration, so that the launch
     * speed is defined.
     */
    function Registers(clientY: real, onControl: bool, now: real): (throws: bool)
      reads this
      ensures throws ==> state.canThrow && validThrowStart && !onControl
      ensures throws && Consistent(state) ==> state.isGameActive
      ensures throws ==> now - startTime > 0.0 && startY - clientY > MinSwipeDistance
    {
      state.canThrow && !onControl && validThrowStart &&
      startY - clientY > MinSwipeDistance && now - startTime > MinSwipeMillis
    }

    /**
     * `handlePointerUp`: a release throws only when throwing is allowed, the
     * press began off the buttons and the swipe rose more than 50 pixels over
     * more than 50 milliseconds. `spinDraw` is the `Math.random()` draw.
     */
    method PointerUp(clientY: real, onControl: bool, now: real, spinDraw: real)
      requires Valid()
      requires 0.0 <= spinDraw < 1.0
      modifies this`state, this`validThrowStart, this`velocityY, this`velocityZ, this`rotationVelocity
      ensures Valid() && timerRunning == old(timerRunning)
      ensures old(Registers(clientY, onControl, now)) ==>
        var deltaY, deltaT := old(startY) - clientY, now - old(startTime);
        state == Thrown(old(state)) &&
        velocityY == LaunchSpeed(deltaY, deltaT) && velocityZ == -3.0 &&
        rotationVelocity == BaseSpin(deltaY, deltaT) + spinDraw * 2.0 &&
        6.0 <= rotationVelocity < 24.0
      ensures !old(Registers(clientY, onControl, now)) ==>
        state == old(state) && velocityY == old(velocityY) && velocityZ == old(velocityZ) &&
        rotationVelocity == old(rotationVelocity)
      ensures validThrowStart ==
        (old(validThrowStart) && !(old(state.canThrow) && !onControl))
    {
      if !state.canThrow {
        return;
      }
      if onControl {
        return;
      }
      if !validThrowStart {
        return;
      }
      validThrowStart := false;
      var deltaY := startY - clientY;
      var deltaT := now - startTime;
      if deltaY > MinSwipeDistance && deltaT > MinSwipeMillis {
        state := Thrown(state);
        velocityY := LaunchSpeed(deltaY, deltaT);
        velocityZ := -3.0;
        rotationVelocity := BaseSpin(deltaY, deltaT) + spinDraw * 2.0;
      }
    }

    /** `checkLanding`, once the floor test has decided whether the bottle stands. */
    method Land(upright: bool)
      requires Valid()
      modifies this`state
      ensures Valid()
      ensures state == Landed(old(state), upright)
    {
      state := Landed(state, upright);
    }

    /** `resetBottle`: still bottle, throwable again while the round runs. */
    method ResetBottle()
      requires Valid()
      modifies this`state, this`velocityY, this`velocityZ, this`rotationVelocity
      ensures Valid()
      ensures state == BottleReset(old(state))
      ensures velocityY == 0.0 && velocityZ == 0.0 && rotationVelocity == 0.0
      ensures timerRunning == old(timerRunning) && validThrowStart == old(validThrowStart)
    {
      velocityY, velocityZ, rotationVelocity := 0.0, 0.0, 0.0;
      state := BottleReset(state);
    }

    /** `restartGame`: back to the intro screen with the countdown cleared. */
    method RestartGame()
      requires Valid()
      modifies this`state, this`timerRunning, this`velocityY, this`velocityZ, this`rotationVelocity
      ensures Valid()
      ensures state == Initial && !timerRunning
      ensures velocityY == 0.0 && velocityZ == 0.0 && rotationVelocity == 0.0
    {
      state := Initial;
      timerRunning := false;
      ResetBottle();
    }
  }
}
