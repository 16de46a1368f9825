/** The session engine of the game screen: the game state, the one-second
    countdown, spawning and hiding moles, taps on holes, and the end of a
    session with its high-score update. The timers of the screen become
    explicit methods (`Tick`, `Spawn`, `Despawn`) that the caller invokes
    when the timer would fire; the random draw is passed in. */
module Session {
  import opened Wrappers
  import Difficulty
  import Ramp
  import Holes

  /** The score after one tap during a session: a tap on the active hole
      earns exactly one point, any other tap costs one point unless there is
      none left to lose. */
  function TapScore(score: int, onTarget: bool): (r: int)
    requires score >= 0
    ensures r >= 0
    ensures onTarget ==> r == score + 1
    ensures !onTarget ==> r <= score && (score > 0 ==> r == score - 1)
  {
    if onTarget then score + 1 else if score - 1 > 0 then score - 1 else 0
  }

  /** The score after a series of taps, each marked true when it hit the
      active hole. */
  function TapsScore(score: int, taps: seq<bool>): (r: int)
    requires score >= 0
    ensures r >= 0
    decreases taps
  {
    if taps == [] then score else TapsScore(TapScore(score, taps[0]), taps[1..])
  }

  function Count(taps: seq<bool>, b: bool): nat
  {
    if taps == [] then 0 else (if taps[0] == b then 1 else 0) + Count(taps[1..], b)
  }

  /** Taps in sequence compose. */
  lemma {:induction false} TapsScoreAppend(score: int, a: seq<bool>, b: seq<bool>)
    requires score >= 0
    ensures TapsScore(score, a + b) == TapsScore(TapsScore(score, a), b)
    decreases a
  {
    if a == [] {
      assert a + b == b;
    } else {
      assert (a + b)[1..] == a[1..] + b;
      TapsScoreAppend(TapScore(score, a[0]), a[1..], b);
    }
  }

  /** Whatever the order of taps, the score gains at most one per hit and
      loses at most one per miss. */
  lemma {:induction false} TapsScoreBounds(score: int, taps: seq<bool>)
    requires score >= 0
    ensures score + Count(taps, true) - Count(taps, false) <= TapsScore(score, taps)
    ensures TapsScore(score, taps) <= score + Count(taps, true)
    decreases taps
  {
    if taps != [] {
      TapsScoreBounds(TapScore(score, taps[0]), taps[1..]);
    }
  }

  /** Hits only: the score rises by exactly the number of hits. */
  lemma {:induction false} HitsOnly(score: int, hits: nat)
    requires score >= 0
    ensures TapsScore(score, seq(hits, _ => true)) == score + hits
    decreases hits
  {
    if hits > 0 {
      assert seq(hits, _ => true)[1..] == seq(hits - 1, _ => true);
      HitsOnly(score + 1, hits - 1);
    }
  }

  /** Misses only: the score falls by the number of misses, clamped at 0. */
  lemma {:induction false} MissesOnly(score: int, misses: nat)
    requires score >= 0
    ensures TapsScore(score, seq(misses, _ => false)) == if misses <= score then score - misses else 0
    decreases misses
  {
    if misses > 0 {
      assert seq(misses, _ => false)[1..] == seq(misses - 1, _ => false);
      MissesOnly(TapScore(score, false), misses - 1);
    }
  }

  /** From a fresh session, `hits` hits followed by `misses` misses end with
      the score max(0, hits - misses). */
  lemma HitsThenMisses(hits: nat, misses: nat)
    ensures TapsScore(0, seq(hits, _ => true) + seq(misses, _ => false)) ==
      if misses <= hits then hits - misses else 0
  {
    TapsScoreAppend(0, seq(hits, _ => true), seq(misses, _ => false));
    HitsOnly(0, hits);
    MissesOnly(hits, misses);
  }

  /** At the start of a session the ramp yields the level's base timings. */
  lemma RampStartsAtBase(level: Difficulty.Level)
    ensures var p := Difficulty.Config(level);
      Ramp.SpawnInterval(p.spawnInterval, p.duration, p.duration) == p.spawnInterval as real &&
      Ramp.VisibleTime(p.visibleTime, p.duration, p.duration) == p.visibleTime as real
  {
  }

  /** When no time is left the ramp has tightened the timings to
      base - 600 and base - 500, except where that would cross a floor:
      Easy ends at 600 ms and 500 ms, Normal and Hard at the floors. */
  lemma RampEndValues(level: Difficulty.Level)
    ensures var p := Difficulty.Config(level);
      Ramp.SpawnInterval(p.spawnInterval, p.duration, 0) ==
        (if level == Difficulty.Easy then 600.0 else Ramp.SpawnFloor) &&
      Ramp.VisibleTime(p.visibleTime, p.duration, 0) ==
        (if level == Difficulty.Easy then 500.0 else Ramp.VisibleFloor)
  {
  }

  /** The state of the game screen. */
  class Game {
    var difficulty: Difficulty.Level
    var gameDuration: int
    var spawnBase: int
    var visibleBase: int
    var score: int
    var timeLeft: int
    var running: bool
    var activeIndex: Option<int>
    var highScore: int

    /** The derived parameters follow the selected level, scores and time
        are never negative, the active hole is on the grid, and outside a
        session no hole is active and the last score is already reflected
        in the high score. */
    ghost predicate Valid()
      reads this
    {
      var p := Difficulty.Config(difficulty);
      && gameDuration == p.duration
      && spawnBase == p.spawnInterval
      && visibleBase == p.visibleTime
      && score >= 0
      && highScore >= 0
      && timeLeft >= 0
      && (activeIndex.Some? ==> 0 <= activeIndex.value < Holes.TotalHoles)
      && (!running ==> activeIndex == None && score <= highScore)
    }

    /** A fresh game screen: the default level, its full time, nothing
        running, no score and no high score loaded yet. */
    constructor ()
      ensures Valid()
      ensures difficulty == Difficulty.Default
      ensures timeLeft == gameDuration == Difficulty.Config(Difficulty.Default).duration
      ensures score == 0 && highScore == 0
      ensures !running && activeIndex == None
    {
      var p := Difficulty.Config(Difficulty.Default);
      difficulty := Difficulty.Default;
      gameDuration := p.duration;
      spawnBase := p.spawnInterval;
      visibleBase := p.visibleTime;
      score := 0;
      timeLeft := p.duration;
      running := false;
      activeIndex := None;
      highScore := 0;
    }

    /** The current delay between spawns. */
    function SpawnDelay(): (r: real)
      reads this
      requires Valid()
      ensures Ramp.SpawnFloor <= r
      ensures timeLeft <= gameDuration ==> r <= spawnBase as real
    {
      var r := Ramp.SpawnInterval(spawnBase, gameDuration, timeLeft);
      if timeLeft <= gameDuration then
        Ramp.RampedBetweenEnds(Ramp.SpawnFloor, Ramp.SpawnDrop, spawnBase, gameDuration, timeLeft);
        r
      else r
    }

    /** How long a mole spawned now stays visible. */
    function HideDelay(): (r: real)
      reads this
      requires Valid()
      ensures Ramp.VisibleFloor <= r
      ensures timeLeft <= gameDuration ==> r <= visibleBase as real
    {
      var r := Ramp.VisibleTime(visibleBase, gameDuration, timeLeft);
      if timeLeft <= gameDuration then
        Ramp.RampedBetweenEnds(Ramp.VisibleFloor, Ramp.VisibleDrop, visibleBase, gameDuration, timeLeft);
        r
      else r
    }

    /** Selecting a level: when it differs from the current one, the derived
        parameters follow it, and outside a session the clock is reset to
        the new session length. */
    method SelectDifficulty(level: Difficulty.Level)
      requires Valid()
      modifies this
      ensures Valid()
      ensures difficulty == level
      ensures timeLeft == if level != old(difficulty) && !old(running) then gameDuration else old(timeLeft)
      ensures score == old(score) && running == old(running) && activeIndex == old(activeIndex)
      ensures highScore == old(highScore)
    {
      if level != difficulty {
        var p := Difficulty.Config(level);
        difficulty := level;
        gameDuration := p.duration;
        spawnBase := p.spawnInterval;
        visibleBase := p.visibleTime;
        if !running {
          timeLeft := p.duration;
        }
      }
    }

    /** Loading the stored level: adopted only when it is a level name; a
        changed level outside a session resets the clock to its length. */
    method LoadDifficulty(stored: Option<string>)
      requires Valid()
      modifies this
      ensures Valid()
      ensures difficulty == Difficulty.Adopt(stored, old(difficulty))
      ensures timeLeft == if difficulty != old(difficulty) && !old(running) then gameDuration else old(timeLeft)
      ensures score == old(score) && running == old(running) && activeIndex == old(activeIndex)
      ensures highScore == old(highScore)
    {
      SelectDifficulty(Difficulty.Adopt(stored, difficulty));
    }

    /** Starting a session, whatever the state before. */
    method Start()
      requires Valid()
      modifies this
      ensures Valid()
      ensures score == 0 && timeLeft == gameDuration && running && activeIndex == None
      ensures difficulty == old(difficulty) && gameDuration == old(gameDuration)
      ensures highScore == old(highScore)
    {
      score := 0;
      timeLeft := gameDuration;
      running := true;
      activeIndex := None;
    }

    /** Ending a session: no hole stays active, nothing runs, and the high
        score becomes the larger of itself and the score. The result tells
        whether the score set a new record. Ending an ended session changes
        nothing. */
    method End() returns (newRecord: bool)
      requires Valid()
      modifies this
      ensures Valid()
      ensures !running && activeIndex == None
      ensures newRecord <==> old(score) > old(highScore)
      ensures highScore == if old(score) > old(highScore) then old(score) else old(highScore)
      ensures score == old(score) && timeLeft == old(timeLeft) && difficulty == old(difficulty)
      ensures !old(running) ==> unchanged(this) && !newRecord
    {
      running := false;
      activeIndex := None;
      newRecord := score > highScore;
      if newRecord {
        highScore := score;
      }
    }

    /** One step of the countdown: while time is left a second passes;
        once none is left the session ends. Outside a session nothing
        happens. */
    method Tick()
      requires Valid()
      modifies this
      ensures Valid()
      ensures !old(running) ==> unchanged(this)
      ensures old(running) && old(timeLeft) > 0 ==>
        running && timeLeft == old(timeLeft) - 1 && activeIndex == old(activeIndex)
        && score == old(score) && highScore == old(highScore)
      ensures old(running) && old(timeLeft) <= 0 ==>
        !running && activeIndex == None && timeLeft == old(timeLeft) && score == old(score)
        && highScore == (if old(score) > old(highScore) then old(score) else old(highScore))
      ensures timeLeft <= old(timeLeft) && difficulty == old(difficulty)
    {
      if running {
        if timeLeft <= 0 {
          var _ := End();
        } else {
          timeLeft := timeLeft - 1;
        }
      }
    }

    /** A spawn during a session: the drawn hole becomes active (the next
        one round the grid if the drawn hole is already active); the result
        is how long it stays visible. */
    method Spawn(draw: int) returns (hideAfter: real)
      requires Valid() && running
      requires 0 <= draw < Holes.TotalHoles
      modifies this
      ensures Valid()
      ensures activeIndex == Some(Holes.PickHole(draw, old(activeIndex)))
      ensures old(activeIndex).Some? ==> activeIndex != old(activeIndex)
      ensures hideAfter == HideDelay() && Ramp.VisibleFloor <= hideAfter
      ensures score == old(score) && timeLeft == old(timeLeft) && running
      ensures highScore == old(highScore) && difficulty == old(difficulty)
    {
      activeIndex := Some(Holes.PickHole(draw, activeIndex));
      hideAfter := Ramp.VisibleTime(visibleBase, gameDuration, timeLeft);
    }

    /** The hide timer of the last spawned mole fires. */
    method Despawn()
      requires Valid()
      modifies this
      ensures Valid()
      ensures activeIndex == None
      ensures score == old(score) && timeLeft == old(timeLeft) && running == old(running)
      ensures highScore == old(highScore) && difficulty == old(difficulty)
    {
      activeIndex := None;
    }

    /** A tap on hole `index`. Outside a session it is ignored; a tap on
        the active hole scores and hides the mole; any other tap, also when
        no hole is active, costs a point (never below 0). */
    method Hit(index: int)
      requires Valid()
      modifies this
      ensures Valid()
      ensures !old(running) ==> unchanged(this)
      ensures old(running) ==> score == TapScore(old(score), old(activeIndex) == Some(index))
      ensures old(running) && old(activeIndex) == Some(index) ==>
        score == old(score) + 1 && activeIndex == None
      ensures old(running) && old(activeIndex) != Some(index) ==>
        score == (if old(score) > 0 then old(score) - 1 else 0) && activeIndex == old(activeIndex)
      ensures running == old(running) && timeLeft == old(timeLeft)
      ensures highScore == old(highScore) && difficulty == old(difficulty)
    {
      if !running {
        return;
      }
      if activeIndex == Some(index) {
        score := score + 1;
        activeIndex := None;
      } else {
        score := if score - 1 > 0 then score - 1 else 0;
      }
    }
  }
}
