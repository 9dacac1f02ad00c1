/**
 * The numbers `updateHUD` shows: the remaining-time bar and the clean/dirty
 * quality split, computed from the counters on exact numbers.
 */
module Hud {
  import opened JsMath
  import opened Arith

  /** The clean and dirty percentages of the quality bar. */
  datatype Quality = Quality(cleanPct: int, dirtyPct: int)

  /**
   * `cPct = round(clean / total * 100)` and `dPct = 100 - cPct` when
   * `total = clean + dirty` is positive, both 0 otherwise. The clean share
   * is the nearest whole percent to the exact ratio.
   */
  function QualitySplit(clean: int, dirty: int): (q: Quality)
    requires 0 <= clean && 0 <= dirty
    ensures clean + dirty == 0 ==> q == Quality(0, 0)
    ensures clean + dirty > 0 ==> 0 <= q.cleanPct <= 100 && q.cleanPct + q.dirtyPct == 100
    ensures clean + dirty > 0 ==>
      (2 * q.cleanPct - 1) * (clean + dirty) <= 200 * clean < (2 * q.cleanPct + 1) * (clean + dirty)
  {
    var total := clean + dirty;
    if total > 0 then
      var c := Round(clean as real / total as real * 100.0);
      RoundedShareBounds(clean, total, c);
      Quality(c, 100 - c)
    else
      Quality(0, 0)
  }

  /** Rounding `clean / total * 100` to `c` bounds `200 * clean` by multiples of `total`. */
  lemma RoundedShareBounds(clean: int, total: int, c: int)
    requires 0 <= clean <= total && 0 < total
    requires c as real - 0.5 <= clean as real / total as real * 100.0 < c as real + 0.5
    ensures (2 * c - 1) * total <= 200 * clean < (2 * c + 1) * total
    ensures 0 <= c <= 100
  {
    ScaledBounds(clean as real, total as real, c as real - 0.5, c as real + 0.5);
    IntBounds(clean, total, c);
    PctRange(clean, total, c);
  }

  lemma ScaledBounds(x: real, t: real, lo: real, hi: real)
    requires t > 0.0
    requires lo <= x / t * 100.0 < hi
    ensures lo * t <= x * 100.0 < hi * t
  {
    var y := x / t * 100.0;
    assert y * t == x * 100.0;
    MulMono(lo, y, t);
    MulLtReal(y, hi, t);
  }

  lemma IntBounds(clean: int, total: int, c: int)
    requires (c as real - 0.5) * total as real <= clean as real * 100.0
    requires clean as real * 100.0 < (c as real + 0.5) * total as real
    ensures (2 * c - 1) * total <= 200 * clean < (2 * c + 1) * total
  {
    CastMul(2 * c - 1, total);
    CastMul(2 * c + 1, total);
  }

  lemma PctRange(clean: int, total: int, c: int)
    requires 0 <= clean <= total && 0 < total
    requires (2 * c - 1) * total <= 200 * clean < (2 * c + 1) * total
    ensures 0 <= c <= 100
  {
    if c > 100 {
      MulLe(total, 201, 2 * c - 1);
    } else if c < 0 {
      MulLe(total, 2 * c + 1, -1);
    }
  }

  /**
   * The shown clean percentage as integer arithmetic:
   * `(200 * clean + total) / (2 * total)`.
   */
  lemma CleanPctFormula(clean: int, dirty: int)
    requires 0 <= clean && 0 <= dirty && clean + dirty > 0
    ensures QualitySplit(clean, dirty).cleanPct == (200 * clean + clean + dirty) / (2 * (clean + dirty))
  {
    var t := clean + dirty;
    var c := QualitySplit(clean, dirty).cleanPct;
    assert (2 * c - 1) * t <= 200 * clean < (2 * c + 1) * t;
    assert 2 * t * c <= 200 * clean + t < 2 * t * c + 2 * t;
    DivUnique(200 * clean + t, 2 * t, c);
  }

  /** Only clean catches so far: the bar is fully clean. */
  lemma AllCleanIsHundred(clean: int)
    requires clean > 0
    ensures QualitySplit(clean, 0) == Quality(100, 0)
  {
    CleanPctFormula(clean, 0);
    DivUnique(201 * clean, 2 * clean, 100);
  }

  /** Only dirty catches so far: the bar is fully dirty. */
  lemma AllDirtyIsZero(dirty: int)
    requires dirty > 0
    ensures QualitySplit(0, dirty) == Quality(0, 100)
  {
    CleanPctFormula(0, dirty);
    DivUnique(dirty, 2 * dirty, 0);
  }

  /**
   * Swapping clean and dirty mirrors the split; the two clean percentages sum
   * to 101 exactly when the clean share is a rounding tie (half a point).
   */
  lemma SplitMirror(clean: int, dirty: int)
    requires 0 <= clean && 0 <= dirty && clean + dirty > 0
    ensures 100 <= QualitySplit(clean, dirty).cleanPct + QualitySplit(dirty, clean).cleanPct <= 101
    ensures QualitySplit(clean, dirty).cleanPct + QualitySplit(dirty, clean).cleanPct == 101
        <==> (200 * clean + clean + dirty) % (2 * (clean + dirty)) == 0
  {
    var c, d := QualitySplit(clean, dirty).cleanPct, QualitySplit(dirty, clean).cleanPct;
    MirrorArith(c, d, clean, dirty);
    CleanPctFormula(clean, dirty);
    CleanPctFormula(dirty, clean);
    TieRemainder(c, d, clean + dirty, 200 * clean + clean + dirty, 200 * dirty + clean + dirty);
  }

  /** Two quotients by `2t` whose dividends sum to `202t` sum to 101 exactly when the first divides evenly. */
  lemma TieRemainder(c: int, d: int, t: int, x: int, y: int)
    requires 0 < t && x + y == 202 * t
    requires c == x / (2 * t) && d == y / (2 * t)
    requires 100 <= c + d <= 101
    ensures c + d == 101 <==> x % (2 * t) == 0
  {
    var rx, ry := x % (2 * t), y % (2 * t);
    assert x == 2 * t * c + rx && y == 2 * t * d + ry;
    Distrib(c, d, 2 * t);
    assert rx + ry == 202 * t - (c + d) * (2 * t);
    if c + d == 101 {
      assert rx + ry == 0;
    } else {
      assert rx + ry == 2 * t;
    }
  }

  lemma MirrorArith(c: int, d: int, a: int, b: int)
    requires 0 < a + b
    requires (2 * c - 1) * (a + b) <= 200 * a < (2 * c + 1) * (a + b)
    requires (2 * d - 1) * (a + b) <= 200 * b < (2 * d + 1) * (a + b)
    ensures 100 <= c + d <= 101
  {
    var t := a + b;
    Distrib(2 * c - 1, 2 * d - 1, t);
    Distrib(2 * c + 1, 2 * d + 1, t);
    assert (2 * c + 2 * d - 2) * t <= 200 * t < (2 * c + 2 * d + 2) * t;
    if c + d < 100 {
      MulLe(t, 2 * c + 2 * d + 2, 200);
    } else if c + d > 101 {
      MulLe(t, 202, 2 * c + 2 * d - 2);
    }
  }

  /** `time / duration * 100`: the width of the remaining-time bar, in percent. */
  function TimeFillPct(time: int, duration: int): (p: real)
    requires duration > 0
    ensures 0 <= time <= duration ==> 0.0 <= p <= 100.0
    ensures time == duration ==> p == 100.0
    ensures time == 0 ==> p == 0.0
  {
    assert 0 <= time <= duration ==> time as real / duration as real <= 1.0;
    time as real / duration as real * 100.0
  }
}
