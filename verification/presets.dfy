/**
 * The difficulty presets (`DIFF`) and the choice of the active configuration
 * (`CFG`) from the checked difficulty radio button.
 */
module Presets {
  import opened Wrappers

  datatype Difficulty = Easy | Normal | Hard

  /**
   * One row of the preset table. Durations are in seconds and intervals in
   * milliseconds; the two chances are exact reals; `speedStep` is the
   * speed-multiplier increment in hundredths (0.15 is 15).
   */
  datatype Config = Config(
    duration: int,
    spawn: int,
    cleanChance: real,
    obstacleChance: real,
    minSpawn: int,
    speedStep: int)

  /** What every preset satisfies and what the round rules rely on. */
  predicate WellFormed(c: Config) {
    && c.duration > 0
    && 0 < c.minSpawn <= c.spawn
    && 0.0 <= c.cleanChance <= 1.0
    && 0.0 <= c.obstacleChance <= 1.0
    && c.speedStep > 0
  }

  /** The `DIFF` table. */
  function Preset(d: Difficulty): (c: Config)
    ensures WellFormed(c)
  {
    match d
    case Easy => Config(35, 650, 0.70, 0.10, 260, 12)
    case Normal => Config(30, 600, 0.65, 0.15, 250, 15)
    case Hard => Config(25, 520, 0.58, 0.20, 220, 18)
  }

  /** The key under which a preset is stored (and the radio button's value). */
  function KeyOf(d: Difficulty): string {
    match d
    case Easy => "easy"
    case Normal => "normal"
    case Hard => "hard"
  }

  /** `DIFF[key]`: the preset stored under `key`, if any. */
  function Lookup(key: string): (r: Option<Difficulty>)
    ensures r.Some? <==> key in {"easy", "normal", "hard"}
    ensures r.Some? ==> KeyOf(r.value) == key
  {
    if key == "easy" then Some(Easy)
    else if key == "normal" then Some(Normal)
    else if key == "hard" then Some(Hard)
    else None
  }

  /** Every preset is found again under its own key. */
  lemma LookupKeyOf(d: Difficulty)
    ensures Lookup(KeyOf(d)) == Some(d)
  {
  }

  /**
   * The key `applyDifficulty` uses: the checked radio button's value, or
   * "normal" when no button is checked or its value is the empty string
   * (both are falsy for `||`).
   */
  function ChosenKey(checked: Option<string>): (key: string)
    ensures key != ""
    ensures checked.Some? && checked.value != "" ==> key == checked.value
    ensures checked.None? || checked.value == "" ==> key == KeyOf(Normal)
  {
    if checked.Some? && checked.value != "" then checked.value else "normal"
  }

  /** With no choice made the normal preset is used, which is also the initial `CFG`. */
  lemma DefaultIsNormal()
    ensures Lookup(ChosenKey(None)) == Some(Normal)
    ensures Lookup(ChosenKey(Some(""))) == Some(Normal)
  {
  }

  /** Harder presets give shorter rounds, faster spawning, more obstacles and fewer clean drops. */
  lemma HarderIsHarder()
    ensures Preset(Hard).duration < Preset(Normal).duration < Preset(Easy).duration
    ensures Preset(Hard).spawn < Preset(Normal).spawn < Preset(Easy).spawn
    ensures Preset(Easy).obstacleChance < Preset(Normal).obstacleChance < Preset(Hard).obstacleChance
    ensures Preset(Hard).cleanChance < Preset(Normal).cleanChance < Preset(Easy).cleanChance
    ensures Preset(Easy).speedStep < Preset(Normal).speedStep < Preset(Hard).speedStep
  {
  }
}
