/** The three difficulty levels of the game, their fixed parameters, and the
    rule that decides whether a stored level name is adopted. */
module Difficulty {
  import opened Wrappers

  datatype Level = Easy | Normal | Hard

  /** Base parameters of one level: session length in seconds, base spawn
      interval and base visible time of a mole in milliseconds. */
  datatype Profile = Profile(duration: int, spawnInterval: int, visibleTime: int)

  /** The level a fresh game screen starts with. */
  const Default: Level := Normal

  /** The fixed lookup table of levels. Every session lasts 20, 30 or 40
      seconds (so dividing by it is safe), a mole's base visible time is
      shorter than the base spawn interval, and both bases lie above the
      ramp floors of 450 ms and 300 ms. */
  function Config(level: Level): (p: Profile)
    ensures p.duration in {20, 30, 40}
    ensures p.visibleTime < p.spawnInterval
    ensures p.spawnInterval >= 600 && p.visibleTime >= 400
  {
    match level
    case Easy => Profile(40, 1200, 1000)
    case Normal => Profile(30, 1000, 800)
    case Hard => Profile(20, 600, 400)
  }

  /** Position of a level from easiest (0) to hardest (2). */
  function Rank(level: Level): nat
  {
    match level
    case Easy => 0
    case Normal => 1
    case Hard => 2
  }

  /** The name under which a level is stored. */
  function Name(level: Level): string
  {
    match level
    case Easy => "Easy"
    case Normal => "Normal"
    case Hard => "Hard"
  }

  /** Recognises a stored string as a level name; only the three exact names
      are recognised. */
  function ParseLevel(s: string): (r: Option<Level>)
    ensures r.Some? ==> Name(r.value) == s
    ensures r.None? ==> forall level: Level :: Name(level) != s
  {
    if s == "Easy" then Some(Easy)
    else if s == "Normal" then Some(Normal)
    else if s == "Hard" then Some(Hard)
    else None
  }

  /** The level in force after loading the stored value `stored` while
      `current` is in force: a stored level name replaces it, anything
      else (nothing stored, the empty string, any other text) keeps it. */
  function Adopt(stored: Option<string>, current: Level): (r: Level)
    ensures stored.Some? && ParseLevel(stored.value).Some? ==> Name(r) == stored.value
    ensures stored.None? || ParseLevel(stored.value).None? ==> r == current
  {
    if stored.Some? && stored.value != "" && ParseLevel(stored.value).Some?
    then ParseLevel(stored.value).value
    else current
  }

  /** Every level's name is recognised as that level. */
  lemma ParseName(level: Level)
    ensures ParseLevel(Name(level)) == Some(level)
  {
  }

  /** A harder level has a shorter session, a shorter base spawn interval
      and a shorter base visible time. */
  lemma HarderIsShorterAndFaster(a: Level, b: Level)
    requires Rank(a) < Rank(b)
    ensures Config(b).duration < Config(a).duration
    ensures Config(b).spawnInterval < Config(a).spawnInterval
    ensures Config(b).visibleTime < Config(a).visibleTime
  {
  }
}
