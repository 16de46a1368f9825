# Whac-A-Mole session engine

A Dafny model of the game engine behind the Whac-A-Mole home screen (`app/index.tsx`). The engine has four parts:

- **Difficulty profiles** (`Difficulty`). The table holds Easy, Normal and Hard. Each level gives a session length in seconds, a base spawn interval and a base visible time in milliseconds. Normal is the default. A stored level name is adopted only when it is exactly one of the three names.
- **Ramp** (`Ramp`). Two pure timing functions. As the countdown runs down, the spawn interval falls by up to 600 ms and the visible time by up to 500 ms. They are clamped at floors of 450 ms and 300 ms. The arithmetic is done exactly on Dafny `real`s.
- **Spawn choice** (`Holes`). It picks the next active hole of the 3 x 3 grid from a random draw in 0..8. If the draw hits the hole that is already active, it takes the next hole, wrapping round.
- **Session state machine** (`Session.Game`). This is a class whose fields are the screen's state: `difficulty`, `gameDuration`, `spawnBase`, `visibleBase`, `score`, `timeLeft`, `running`, `activeIndex` and `highScore`.
  - The screen's timers and effects become methods that the caller invokes when the timer would fire: `Tick` (one run of the countdown effect), `Spawn(draw)` and `Despawn`.
  - Player input is `Hit(index)`. The other commands are `Start`, `End`, `SelectDifficulty` and `LoadDifficulty`.

`Game.Valid()` is the object invariant. It says:
- the derived parameters follow the selected level;
- score, high score and remaining time are never negative;
- the active hole, if any, is on the grid;
- outside a session no hole is active, and the last score is already counted in the high score.

Because of the last point, `End` on a game that has already ended changes nothing.

Points where the code's behaviour is easy to misread:
- The spawn choice is not uniform over the eight holes other than the active one. The hole right after the active hole is picked by two of the nine draws; every other hole by one (`Holes.DrawOdds`). The model follows the code.
- `Start` does not spawn a mole itself. In the app, the spawn effect does that as soon as `isRunning` becomes true. In the model the caller invokes `Spawn`.
- A hit does not cancel the pending hide timer. That timer only clears `activeIndex`, which the hit has already cleared.
- `endGame` has no guard of its own. Under the invariant, ending an ended game is a no-op anyway.
- When the countdown reaches 0, the countdown effect re-runs at once and ends the session. The model's `Tick` at `timeLeft == 0` is that re-run.

## Model

| member | source | states |
|---|---|---|
| Difficulty.Config | app/index.tsx:15-34 | every session lasts 20, 30 or 40 s, so dividing by it is safe; each level's base visible time is below its base spawn interval; both bases are at least 600 ms and 400 ms, above the ramp floors |
| Difficulty.HarderIsShorterAndFaster | app/index.tsx:15-34 | a harder level has a strictly shorter session, base spawn interval and base visible time |
| Difficulty.ParseLevel | app/index.tsx:162-166 | a string is recognised as a level exactly when it is that level's name; a string that is no level's name is rejected |
| Difficulty.ParseName | app/index.tsx:162-166 | every level's stored name is recognised as that same level |
| Difficulty.Adopt | app/index.tsx:159-171 | a stored level name becomes the level; nothing stored, or any other string, keeps the current level |
| Ramp.Progress | app/index.tsx:118 | the elapsed fraction is 0 with the full time left and 1 with no time left |
| Ramp.Ramped | app/index.tsx:117-127 | a ramped time is never below its floor and never below base minus progress times drop, and it equals one of the two |
| Ramp.SpawnInterval | app/index.tsx:117-121 | the spawn interval is never below 450 ms, and it equals the base interval when no time has elapsed |
| Ramp.VisibleTime | app/index.tsx:123-127 | the visible time is never below 300 ms, and it equals the base visible time when no time has elapsed |
| Ramp.ProgressNonDecreasing | app/index.tsx:118 | the elapsed fraction never decreases as the time left decreases |
| Ramp.ProgressInUnitInterval | app/index.tsx:124 | while 0 <= timeLeft <= duration, the elapsed fraction lies in [0, 1] |
| Ramp.RampedNonIncreasing | app/index.tsx:117-127 | as the time left decreases, a ramped time never increases |
| Ramp.RampedBetweenEnds | app/index.tsx:117-127 | during a session a ramped time lies between its end-of-session value max(floor, base - drop) and its start value max(floor, base) |
| Ramp.SpawnIntervalNonIncreasing | app/index.tsx:117-121 | the spawn interval never increases as the countdown runs down |
| Ramp.VisibleTimeNonIncreasing | app/index.tsx:123-127 | the visible time never increases as the countdown runs down |
| Holes.PickHole | app/index.tsx:130-131 | the picked hole is on the grid and is never the active hole; without a collision it is the draw; on a collision it is (draw + 1) mod 9 |
| Holes.DrawsForPrefix | app/index.tsx:130-131 | among the first n draws, a hole is picked by its own draw unless it is active, and also by the active hole's draw when it follows the active hole |
| Holes.DrawOdds | app/index.tsx:130-131 | out of the nine draws, with no active hole each hole gets one draw; otherwise the active hole gets none, the next hole two and every other hole one |
| Session.TapScore | app/index.tsx:258-263 | a tap on the active hole adds exactly one point; any other tap loses one point when the score is positive and never makes it negative |
| Session.TapsScore | app/index.tsx:256-264 | the score after any series of taps is never negative |
| Session.TapsScoreAppend | app/index.tsx:256-264 | the score after two series of taps in a row is the second series applied to the score after the first |
| Session.TapsScoreBounds | app/index.tsx:256-264 | in any order of taps, the score ends between start + hits - misses and start + hits |
| Session.HitsOnly | app/index.tsx:258-260 | a run of hits raises the score by exactly their number |
| Session.MissesOnly | app/index.tsx:261-263 | a run of misses lowers the score by their number, clamped at 0 |
| Session.HitsThenMisses | app/index.tsx:256-264 | from score 0, h hits and then m misses end at max(0, h - m); for example 5 hits and 2 misses give 3 |
| Session.RampStartsAtBase | app/index.tsx:117-127 | at the start of a session, every level spawns at its base interval and shows moles for its base visible time |
| Session.RampEndValues | app/index.tsx:117-127 | with no time left, Easy reaches 600 ms and 500 ms, while Normal and Hard are held at the 450 ms and 300 ms floors |
| Session.Game.constructor | app/index.tsx:41-58 | a fresh screen has the default level Normal with its full 30 s, is not running, has no active hole, and has score and high score 0 |
| Session.Game.SpawnDelay | app/index.tsx:117-121 | the current spawn delay is at least 450 ms; whenever the clock is not above the level's length, in a session or not, it is at most the base interval |
| Session.Game.HideDelay | app/index.tsx:123-127 | the current visible time is at least 300 ms; whenever the clock is not above the level's length, in a session or not, it is at most the base visible time |
| Session.Game.SelectDifficulty | app/index.tsx:82-89 | the level and its parameters become the selected ones; the clock is reset to the new length only for a changed level outside a session; score, hole and high score are kept |
| Session.Game.LoadDifficulty | app/index.tsx:159-171 | the level becomes the stored one exactly when the stored string is a level name; when that changes the level outside a session, the clock is reset to the new level's length (the effect at 82-89), otherwise the clock is kept; score, running state, hole and high score are kept |
| Session.Game.Start | app/index.tsx:231-238 | whatever the prior state: score 0, the clock at the level's full length, running, and no active hole; level and high score are kept |
| Session.Game.End | app/index.tsx:240-254 | the game stops and no hole is active; the high score becomes max(high score, score); the result reports a new record exactly when score > old high score; ending an ended game changes nothing |
| Session.Game.Tick | app/index.tsx:92-102 | outside a session nothing changes; with time left, the clock drops by exactly 1 and nothing else changes; at 0 the session ends as in End; the clock never increases |
| Session.Game.Spawn | app/index.tsx:129-140 | the hole chosen by PickHole becomes active and differs from the previous active hole; the returned hide delay is the current visible time, at least 300 ms; score and clock are kept |
| Session.Game.Despawn | app/index.tsx:137-139 | no hole stays active; score, clock and running state are kept |
| Session.Game.Hit | app/index.tsx:256-264 | outside a session nothing changes; a hit on the active hole adds 1 and clears the hole; any other tap, including one with no active hole, loses a point (clamped at 0) and keeps the hole |

Helpers without a row: `Difficulty.Name` (the level names used as keys of the table and in storage), `Difficulty.Rank` (the order Easy, Normal, Hard in which the table is listed), `Ramp.Max`, `Holes.DrawsFor` and `Session.Count`.

## Left out

- Storage. The reads and writes of `@wam_highscore`, `@wam_difficulty` and `@user_logged_in` are I/O against a key-value store. This covers `loadHighScore`, `saveHighScore`, `loadLoginStatus`, `handleLogout` and `handleDebug`. `Game.LoadDifficulty` takes the stored value as a parameter. `Game.End` updates `highScore` in memory only, and its persistence is not modelled.
- Loading the high score. `parseInt` of the stored text can give NaN or a negative number. The model starts with high score 0 and does not load one.
- Audio. `playMusic` and `stopMusic` are fire-and-forget side effects whose failures are only logged.
- `Alert.alert`. `End`'s result `newRecord` selects which message the app shows.
- Timer scheduling. The model does not enforce `setTimeout`, `setInterval` or `clearTimeout`, nor the delays they wait. It computes the delays (`SpawnDelay`, `HideDelay`, the result of `Spawn`); the caller decides when `Tick`, `Spawn` and `Despawn` happen. The spawn effect re-runs on every change of `timeLeft` and spawns a mole at once each time. That is a scheduling pattern the caller reproduces by calling `Spawn`.
- The spawn at a timeout end. When the countdown reaches 0, the countdown effect ends the game, and in the same commit the spawn effect, still seeing the session as running, spawns a mole whose hide timer outlives the end; the app then shows a mole for 300 to 500 ms after the game is over. `Tick` ends with no active hole, and `Spawn` requires a running session, so the model does not reproduce this.
- React hook behaviour. Stale closures, such as an interval's `spawnMole` reading an old `activeIndex` or `endGame` reading an old `score`, are not modelled. Every method acts on the current state.
- Randomness. `Math.random` becomes the draw parameter of `Spawn`, an integer in 0..8.
- Floating point. The ramp is computed on exact rationals. JavaScript rounds the elapsed fraction (for example 1/30) to a double, and that rounding is not modelled.
- Session.Game.SpawnDelay, Session.Game.HideDelay: the upper bound is stated only while `timeLeft <= gameDuration`. Changing the level during a session keeps the clock, and the clock can then exceed the new session length. The invariant therefore does not bound `timeLeft` by `gameDuration`.
- Rendering. `renderGrid`, the JSX and the per-level background colour are not modelled (`Profile` has no colour).
- The tap guard in `app/components/MoleHole.tsx`. It only forwards taps on active holes while the game runs. `Hit` models the engine's own branches, including the miss branch that this guard keeps the UI from reaching.
- Other screens. The login and registration screens (`app/login.tsx`, `app/register.tsx`) and the difficulty screen (`app/difficulty.tsx`) are storage and navigation wrappers. So is the separate feed app under `832304223_龚扬骅_Lab1`. None of them is part of this model.
