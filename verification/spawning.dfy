/**
 * The decisions `spawn` takes for a new drop: its kind, its size and its
 * horizontal position. Each `Math.random()` draw is a parameter in [0, 1).
 */
module Spawning {
  import opened JsMath
  import opened Arith
  import opened Presets

  datatype Kind = Clean | Dirty | Obstacle

  /** A value `Math.random()` can return. */
  predicate IsDraw(r: real) {
    0.0 <= r < 1.0
  }

  /**
   * The two-stage kind choice: the first draw `r` decides obstacle or not;
   * only a non-obstacle drop consults the second draw `r2`, which decides
   * clean or dirty.
   */
  function Classify(cfg: Config, r: real, r2: real): (k: Kind)
    ensures k == Obstacle <==> r < cfg.obstacleChance
    ensures k == Clean <==> cfg.obstacleChance <= r && r2 < cfg.cleanChance
    ensures k == Dirty <==> cfg.obstacleChance <= r && cfg.cleanChance <= r2
  {
    if r < cfg.obstacleChance then Obstacle
    else if r2 < cfg.cleanChance then Clean
    else Dirty
  }

  /** An obstacle is decided by the first draw alone; the second is never used. */
  lemma ObstacleIgnoresSecondDraw(cfg: Config, r: real, r2: real, r2': real)
    requires r < cfg.obstacleChance
    ensures Classify(cfg, r, r2) == Classify(cfg, r, r2') == Obstacle
  {
  }

  /**
   * The split is nested, not flat: once a drop is not an obstacle, whether it
   * is clean depends on the second draw only, with the full clean chance.
   */
  lemma CleanDirtySplitIndependentOfFirstDraw(cfg: Config, r: real, r': real, r2: real)
    requires cfg.obstacleChance <= r && cfg.obstacleChance <= r'
    ensures Classify(cfg, r, r2) == Classify(cfg, r', r2) != Obstacle
  {
  }

  /** With an obstacle chance of zero no obstacle is ever spawned. */
  lemma NoObstacleWithoutChance(cfg: Config, r: real, r2: real)
    requires cfg.obstacleChance == 0.0 && IsDraw(r)
    ensures Classify(cfg, r, r2) != Obstacle
  {
  }

  /** A preset with a nonzero chance of each kind can produce every kind. */
  lemma EveryKindReachable(d: Difficulty)
    ensures Classify(Preset(d), 0.0, 0.0) == Obstacle
    ensures Classify(Preset(d), 0.5, 0.0) == Clean
    ensures Classify(Preset(d), 0.5, 0.99) == Dirty
  {
  }

  /** `28 + Math.round(r * 22)`: the side of a drop in pixels. */
  function DropSize(r: real): (size: int)
    requires IsDraw(r)
    ensures 28 <= size <= 50
  {
    RoundWithin(r * 22.0, 0, 22);
    28 + Round(r * 22.0)
  }

  /**
   * `Math.round(r * (width - size))`: the left offset of a drop in pixels.
   * It lies in the play area when the drop fits, and is within half a pixel
   * of the uniformly drawn position.
   */
  function DropLeft(r: real, width: int, size: int): (left: int)
    requires IsDraw(r)
    ensures size <= width ==> 0 <= left <= width - size
    ensures width < size ==> width - size <= left <= 0
    ensures left as real - 0.5 <= r * (width - size) as real < left as real + 0.5
  {
    RoundedScaleBounds(r, width - size);
    Round(r * (width - size) as real)
  }

  /** Rounding a draw scaled by `span` gives a value between 0 and `span`. */
  lemma RoundedScaleBounds(r: real, span: int)
    requires IsDraw(r)
    ensures 0 <= span ==> 0 <= Round(r * span as real) <= span
    ensures span < 0 ==> span <= Round(r * span as real) <= 0
  {
    var x := r * span as real;
    ScaleBounds(r, span, x);
    if 0 <= span {
      RoundWithin(x, 0, span);
    } else {
      RoundWithin(x, span, 0);
    }
  }

  /** A draw in [0, 1) scales `span` to a value `x` between 0 and `span`. */
  lemma ScaleBounds(r: real, span: int, x: real)
    requires IsDraw(r) && x == r * span as real
    ensures 0 <= span ==> 0.0 <= x <= span as real
    ensures span < 0 ==> span as real <= x <= 0.0
  {
    var s := span as real;
    if 0 <= span {
      MulMono(0.0, r, s);
      MulMono(r, 1.0, s);
    } else {
      MulAnti(0.0, r, s);
      MulAnti(r, 1.0, s);
    }
  }

  /** What `spawn` decides for one drop. */
  datatype Drop = Drop(kind: Kind, size: int, left: int)

  /**
   * A new drop in a play area `width` pixels wide, from the four draws
   * `spawn` makes (the second is used only for a non-obstacle).
   */
  function NewDrop(cfg: Config, r: real, r2: real, sizeDraw: real, leftDraw: real, width: int): (d: Drop)
    requires IsDraw(r) && IsDraw(r2) && IsDraw(sizeDraw) && IsDraw(leftDraw)
    ensures d.kind == Classify(cfg, r, r2)
    ensures 28 <= d.size <= 50
    ensures d.size <= width ==> 0 <= d.left && d.left + d.size <= width
  {
    var size := DropSize(sizeDraw);
    Drop(Classify(cfg, r, r2), size, DropLeft(leftDraw, width, size))
  }
}
