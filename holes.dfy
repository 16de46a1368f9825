/** Choice of the next active hole on the 3 x 3 grid. */
module Holes {
  import opened Wrappers

  const GridSize: int := 3
  const TotalHoles: int := GridSize * GridSize

  /** The hole a spawn activates for the random draw `draw`, given the hole
      active now: the draw itself, unless it is the active hole, in which
      case the next hole round the grid. */
  function PickHole(draw: int, active: Option<int>): (h: int)
    requires 0 <= draw < TotalHoles
    ensures 0 <= h < TotalHoles
    ensures active.Some? ==> h != active.value
    ensures active != Some(draw) ==> h == draw
    ensures active == Some(draw) ==> h == (draw + 1) % TotalHoles
  {
    if active == Some(draw) then (draw + 1) % TotalHoles else draw
  }

  /** Number of draws among 0 .. n-1 for which a spawn picks `hole`. */
  function DrawsFor(active: Option<int>, hole: int, n: nat): nat
    requires n <= TotalHoles
  {
    if n == 0 then 0
    else DrawsFor(active, hole, n - 1) + (if PickHole(n - 1, active) == hole then 1 else 0)
  }

  /** Counting over the first n draws: a hole is picked by its own draw
      unless it is active, and additionally by the active hole's draw when
      it follows the active hole. */
  lemma {:induction false} DrawsForPrefix(active: Option<int>, hole: int, n: nat)
    requires n <= TotalHoles
    requires active.Some? ==> 0 <= active.value < TotalHoles
    ensures DrawsFor(active, hole, n) ==
      (if 0 <= hole < n && active != Some(hole) then 1 else 0) +
      (if active.Some? && active.value < n && hole == (active.value + 1) % TotalHoles then 1 else 0)
  {
    if n > 0 {
      DrawsForPrefix(active, hole, n - 1);
    }
  }

  /** Odds of each hole out of the nine equally likely draws: with no active
      hole every hole has one draw; otherwise the active hole has none, the
      hole after it has two, and every other hole has one. */
  lemma DrawOdds(active: Option<int>, hole: int)
    requires active.Some? ==> 0 <= active.value < TotalHoles
    requires 0 <= hole < TotalHoles
    ensures active.None? ==> DrawsFor(active, hole, TotalHoles) == 1
    ensures active.Some? ==>
      DrawsFor(active, hole, TotalHoles) ==
        if hole == active.value then 0
        else if hole == (active.value + 1) % TotalHoles then 2
        else 1
  {
    DrawsForPrefix(active, hole, TotalHoles);
  }
}
