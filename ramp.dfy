/** The ramp: as a session progresses, moles spawn more often and stay up
    for less time, each timing clamped to a floor. Times are milliseconds,
    computed exactly on rationals. */
module Ramp {
  const SpawnFloor: real := 450.0
  const SpawnDrop: real := 600.0
  const VisibleFloor: real := 300.0
  const VisibleDrop: real := 500.0

  /** Fraction of the session already elapsed: 0 at the start, 1 when no
      time is left. */
  function Progress(duration: int, timeLeft: int): (r: real)
    requires duration > 0
    ensures timeLeft == duration ==> r == 0.0
    ensures timeLeft == 0 ==> r == 1.0
  {
    var d := duration as real;
    assert d / d == 1.0;
    (duration - timeLeft) as real / d
  }

  function Max(a: real, b: real): real
  {
    if a >= b then a else b
  }

  /** A base time lowered by `drop` over the whole session, never below
      `floor`. */
  function Ramped(floor: real, drop: real, base: int, duration: int, timeLeft: int): (r: real)
    requires duration > 0
    ensures floor <= r
    ensures base as real - Progress(duration, timeLeft) * drop <= r
    ensures r == floor || r == base as real - Progress(duration, timeLeft) * drop
  {
    Max(floor, base as real - Progress(duration, timeLeft) * drop)
  }

  /** The delay between two spawns at the current point of the session. */
  function SpawnInterval(spawnBase: int, duration: int, timeLeft: int): (r: real)
    requires duration > 0
    ensures SpawnFloor <= r
    ensures timeLeft == duration && spawnBase as real >= SpawnFloor ==> r == spawnBase as real
  {
    Ramped(SpawnFloor, SpawnDrop, spawnBase, duration, timeLeft)
  }

  /** How long a freshly spawned mole stays visible at the current point of
      the session. */
  function VisibleTime(visibleBase: int, duration: int, timeLeft: int): (r: real)
    requires duration > 0
    ensures VisibleFloor <= r
    ensures timeLeft == duration && visibleBase as real >= VisibleFloor ==> r == visibleBase as real
  {
    Ramped(VisibleFloor, VisibleDrop, visibleBase, duration, timeLeft)
  }

  /** Less time left means at least as much progress. */
  lemma ProgressNonDecreasing(duration: int, earlier: int, later: int)
    requires duration > 0
    requires later <= earlier
    ensures Progress(duration, earlier) <= Progress(duration, later)
  {
    var d := duration as real;
    assert Progress(duration, later) - Progress(duration, earlier) == (earlier - later) as real / d;
  }

  /** While the session runs, progress stays between 0 and 1. */
  lemma ProgressInUnitInterval(duration: int, timeLeft: int)
    requires 0 <= timeLeft <= duration
    requires duration > 0
    ensures 0.0 <= Progress(duration, timeLeft) <= 1.0
  {
    ProgressNonDecreasing(duration, duration, timeLeft);
    ProgressNonDecreasing(duration, timeLeft, 0);
  }

  /** As time runs down, a ramped time never increases. */
  lemma RampedNonIncreasing(floor: real, drop: real, base: int, duration: int, earlier: int, later: int)
    requires duration > 0 && drop >= 0.0
    requires later <= earlier
    ensures Ramped(floor, drop, base, duration, later) <= Ramped(floor, drop, base, duration, earlier)
  {
    var p, q := Progress(duration, earlier), Progress(duration, later);
    ProgressNonDecreasing(duration, earlier, later);
    assert p * drop <= q * drop by {
      assert (q - p) * drop >= 0.0;
    }
  }

  /** While the session runs, a ramped time lies between its value at the
      end of the session and its value at the start. */
  lemma RampedBetweenEnds(floor: real, drop: real, base: int, duration: int, timeLeft: int)
    requires 0 <= timeLeft <= duration && duration > 0 && drop >= 0.0
    ensures Max(floor, base as real - drop) <= Ramped(floor, drop, base, duration, timeLeft)
    ensures Ramped(floor, drop, base, duration, timeLeft) <= Max(floor, base as real)
  {
    RampedNonIncreasing(floor, drop, base, duration, duration, timeLeft);
    RampedNonIncreasing(floor, drop, base, duration, timeLeft, 0);
  }

  /** The spawn interval never increases as the countdown runs down. */
  lemma SpawnIntervalNonIncreasing(spawnBase: int, duration: int, earlier: int, later: int)
    requires duration > 0 && later <= earlier
    ensures SpawnInterval(spawnBase, duration, later) <= SpawnInterval(spawnBase, duration, earlier)
  {
    RampedNonIncreasing(SpawnFloor, SpawnDrop, spawnBase, duration, earlier, later);
  }

  /** The visible time never increases as the countdown runs down. */
  lemma VisibleTimeNonIncreasing(visibleBase: int, duration: int, earlier: int, later: int)
    requires duration > 0 && later <= earlier
    ensures VisibleTime(visibleBase, duration, later) <= VisibleTime(visibleBase, duration, earlier)
  {
    RampedNonIncreasing(VisibleFloor, VisibleDrop, visibleBase, duration, earlier, later);
  }
}
