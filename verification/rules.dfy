/**
 * What happens when a drop lands (`checkCollision`), on values: the overlap
 * test between the drop's and the catcher's bounding boxes, and the scoring
 * and escalation rules applied to the round's counters.
 */
module Rules {
  import opened JsMath
  import opened Presets
  import opened Spawning

  /** A bounding box as `getBoundingClientRect` reports it. */
  datatype Rect = Rect(top: real, right: real, bottom: real, left: real)

  /**
   * The landing test: the drop's bottom has reached the catcher's top
   * (inclusive) and the two overlap horizontally (side edges exclusive).
   */
  predicate Overlaps(drop: Rect, can: Rect) {
    drop.bottom >= can.top && drop.left < can.right && drop.right > can.left
  }

  /** A drop whose bottom is exactly level with the catcher's top is caught. */
  lemma BottomEdgeInclusive(drop: Rect, can: Rect)
    requires drop.bottom == can.top && drop.left < can.right && drop.right > can.left
    ensures Overlaps(drop, can)
  {
  }

  /** A drop that only touches the catcher's left or right side is missed. */
  lemma SideEdgesExclusive(drop: Rect, can: Rect)
    requires drop.left == can.right || drop.right == can.left
    requires drop.left <= drop.right && can.left <= can.right
    ensures !Overlaps(drop, can)
  {
  }

  /** The test looks at neither the drop's top nor the catcher's bottom. */
  lemma OverlapIgnoresFarEdges(drop: Rect, can: Rect, dropTop: real, canBottom: real)
    ensures Overlaps(drop, can) == Overlaps(drop.(top := dropTop), can.(bottom := canBottom))
  {
  }

  /**
   * The counters `checkCollision` changes. `speedMul` is in hundredths
   * (100 is a multiplier of 1) and `currentSpawn` is the spawn interval in
   * milliseconds.
   */
  datatype Tally = Tally(
    score: int,
    pollution: int,
    clean: int,
    dirty: int,
    speedMul: int,
    currentSpawn: int)

  /** The counters `resetState` installs for configuration `cfg`. */
  function Initial(cfg: Config): (t: Tally)
    requires WellFormed(cfg)
    ensures Bounded(cfg, t)
    ensures t.score == t.pollution == t.clean == t.dirty == 0
    ensures t.speedMul == 100 && t.currentSpawn == cfg.spawn
  {
    Tally(0, 0, 0, 0, 100, cfg.spawn)
  }

  /** The bounds every counter keeps during a round. */
  predicate Bounded(cfg: Config, t: Tally) {
    && t.score >= 0
    && 0 <= t.pollution <= 100
    && 0 <= t.clean <= 100
    && 0 <= t.dirty <= 100
    && t.speedMul >= 100
    && cfg.minSpawn <= t.currentSpawn <= cfg.spawn
  }

  /** `after` is no easier than `before`: drops are no slower, spawning no sparser, pollution no lower. */
  predicate Escalated(before: Tally, after: Tally) {
    && before.speedMul <= after.speedMul
    && after.currentSpawn <= before.currentSpawn
    && before.pollution <= after.pollution
  }

  /** The effect of catching a drop of kind `k`. */
  function Hit(cfg: Config, t: Tally, k: Kind): (r: Tally)
    requires WellFormed(cfg) && Bounded(cfg, t)
    ensures Bounded(cfg, r)
    ensures Escalated(t, r)
    ensures r.score > t.score <==> k == Clean
  {
    match k
    case Clean =>
      t.(score := t.score + 1, clean := Min(100, t.clean + 10))
    case Dirty =>
      t.(score := Max(0, t.score - 1),
         pollution := Min(100, t.pollution + 10),
         dirty := Min(100, t.dirty + 10))
    case Obstacle =>
      t.(score := Max(0, t.score - 2),
         speedMul := t.speedMul + cfg.speedStep,
         currentSpawn := Max(cfg.minSpawn, t.currentSpawn - 80))
  }

  /** The effect of a drop landing, caught or not. */
  function Resolve(cfg: Config, t: Tally, k: Kind, caught: bool): (r: Tally)
    requires WellFormed(cfg) && Bounded(cfg, t)
    ensures Bounded(cfg, r)
    ensures Escalated(t, r)
    ensures !caught ==> r == t
  {
    if caught then Hit(cfg, t, k) else t
  }

  /** The loss condition checked after every landing. */
  predicate PollutionMaxed(t: Tally) {
    t.pollution >= 100
  }

  /** A clean catch: one more point and ten more clean, nothing else changes. */
  lemma CleanHit(cfg: Config, t: Tally)
    requires WellFormed(cfg) && Bounded(cfg, t)
    ensures Hit(cfg, t, Clean) == t.(score := t.score + 1, clean := Min(100, t.clean + 10))
  {
  }

  /** A dirty catch: one point lost (not below 0), pollution and dirty up by ten (not above 100). */
  lemma DirtyHit(cfg: Config, t: Tally)
    requires WellFormed(cfg) && Bounded(cfg, t)
    ensures var r := Hit(cfg, t, Dirty);
      && r.score == Max(0, t.score - 1)
      && r.pollution == Min(100, t.pollution + 10)
      && r.dirty == Min(100, t.dirty + 10)
      && r.clean == t.clean && r.speedMul == t.speedMul && r.currentSpawn == t.currentSpawn
  {
  }

  /** Once pollution is at 100 a dirty catch keeps it there, and the round is lost again. */
  lemma DirtyHitAtCap(cfg: Config, t: Tally)
    requires WellFormed(cfg) && Bounded(cfg, t) && t.pollution == 100
    ensures Hit(cfg, t, Dirty).pollution == 100
    ensures PollutionMaxed(Hit(cfg, t, Dirty))
  {
  }

  /**
   * A landing after the round was lost is still scored: pollution cannot fall
   * back below 100, so the loss condition holds again, and a clean catch
   * still raises the score.
   */
  lemma LandingAfterLoss(cfg: Config, t: Tally, k: Kind, caught: bool)
    requires WellFormed(cfg) && Bounded(cfg, t) && PollutionMaxed(t)
    ensures PollutionMaxed(Resolve(cfg, t, k, caught))
    ensures caught && k == Clean ==> Resolve(cfg, t, k, caught).score == t.score + 1
  {
  }

  /**
   * An obstacle catch: two points lost (not below 0), the speed multiplier
   * up by one step and the spawn interval 80 ms shorter, down to the floor.
   */
  lemma ObstacleHit(cfg: Config, t: Tally)
    requires WellFormed(cfg) && Bounded(cfg, t)
    ensures var r := Hit(cfg, t, Obstacle);
      && r.score == Max(0, t.score - 2)
      && r.speedMul == t.speedMul + cfg.speedStep
      && r.currentSpawn == Max(cfg.minSpawn, t.currentSpawn - 80)
      && r.pollution == t.pollution && r.clean == t.clean && r.dirty == t.dirty
  {
  }

  /** Only a dirty catch can end the round by pollution. */
  lemma OnlyDirtyPollutes(cfg: Config, t: Tally, k: Kind, caught: bool)
    requires WellFormed(cfg) && Bounded(cfg, t) && !PollutionMaxed(t)
    requires PollutionMaxed(Resolve(cfg, t, k, caught))
    ensures caught && k == Dirty
  {
  }

  /** One obstacle caught at the start of a normal round: multiplier 1.15, interval 520 ms. */
  lemma FirstObstacleOnNormal()
    ensures var r := Hit(Preset(Normal), Initial(Preset(Normal)), Obstacle);
      r.speedMul == 115 && r.currentSpawn == 520 && r.score == 0
  {
  }

  /** A drop that has landed: its kind and whether it overlapped the catcher. */
  datatype Landing = Landing(kind: Kind, caught: bool)

  /** The counters after the drops in `ls` land, in order. */
  function Play(cfg: Config, t: Tally, ls: seq<Landing>): (r: Tally)
    requires WellFormed(cfg) && Bounded(cfg, t)
    decreases |ls|
  {
    if ls == [] then t
    else Play(cfg, Resolve(cfg, t, ls[0].kind, ls[0].caught), ls[1..])
  }

  /**
   * Over any run of landings the counters stay in bounds (the score never
   * goes negative, the spawn interval never leaves [minSpawn, spawn]) and
   * escalation only moves one way.
   */
  lemma {:induction false} PlayBoundedAndEscalating(cfg: Config, t: Tally, ls: seq<Landing>)
    requires WellFormed(cfg) && Bounded(cfg, t)
    ensures Bounded(cfg, Play(cfg, t, ls))
    ensures Escalated(t, Play(cfg, t, ls))
    decreases |ls|
  {
    if ls != [] {
      var t' := Resolve(cfg, t, ls[0].kind, ls[0].caught);
      PlayBoundedAndEscalating(cfg, t', ls[1..]);
    }
  }

  /** `n` drops of kind `k`, all caught. */
  function Caught(k: Kind, n: nat): seq<Landing> {
    seq(n, _ => Landing(k, true))
  }

  /** Each dirty catch adds exactly ten pollution until the cap of 100. */
  lemma {:induction false} DirtyCatchesPollute(cfg: Config, t: Tally, n: nat)
    requires WellFormed(cfg) && Bounded(cfg, t)
    ensures Play(cfg, t, Caught(Dirty, n)).pollution == Min(100, t.pollution + 10 * n)
    ensures Play(cfg, t, Caught(Dirty, n)).dirty == Min(100, t.dirty + 10 * n)
    ensures Play(cfg, t, Caught(Dirty, n)).score == Max(0, t.score - n)
    decreases n
  {
    if n > 0 {
      var t' := Hit(cfg, t, Dirty);
      assert Caught(Dirty, n)[1..] == Caught(Dirty, n - 1);
      DirtyCatchesPollute(cfg, t', n - 1);
    }
  }

  /**
   * From the reset counters, pollution first reaches 100 exactly at the
   * tenth dirty catch: after nine it is 90.
   */
  lemma TenDirtyCatchesFromReset(cfg: Config)
    requires WellFormed(cfg)
    ensures Play(cfg, Initial(cfg), Caught(Dirty, 9)).pollution == 90
    ensures PollutionMaxed(Play(cfg, Initial(cfg), Caught(Dirty, 10)))
    ensures Play(cfg, Initial(cfg), Caught(Dirty, 10)).pollution == 100
  {
    DirtyCatchesPollute(cfg, Initial(cfg), 9);
    DirtyCatchesPollute(cfg, Initial(cfg), 10);
  }

  /**
   * Each obstacle catch shortens the spawn interval by 80 ms down to the
   * floor and raises the multiplier by one step.
   */
  lemma {:induction false} ObstacleCatchesEscalate(cfg: Config, t: Tally, n: nat)
    requires WellFormed(cfg) && Bounded(cfg, t)
    ensures Play(cfg, t, Caught(Obstacle, n)).currentSpawn == Max(cfg.minSpawn, t.currentSpawn - 80 * n)
    ensures Play(cfg, t, Caught(Obstacle, n)).speedMul == t.speedMul + n * cfg.speedStep
    decreases n
  {
    if n > 0 {
      var t' := Hit(cfg, t, Obstacle);
      assert Caught(Obstacle, n)[1..] == Caught(Obstacle, n - 1);
      ObstacleCatchesEscalate(cfg, t', n - 1);
    }
  }

  /** Misses change nothing, however many there are. */
  lemma {:induction false} MissesChangeNothing(cfg: Config, t: Tally, ls: seq<Landing>)
    requires WellFormed(cfg) && Bounded(cfg, t)
    requires forall i :: 0 <= i < |ls| ==> !ls[i].caught
    ensures Play(cfg, t, ls) == t
    decreases |ls|
  {
    if ls != [] {
      MissesChangeNothing(cfg, t, ls[1..]);
    }
  }
}
