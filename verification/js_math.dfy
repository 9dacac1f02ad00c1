/**
 * The JavaScript `Math` functions the game relies on, on exact numbers:
 * `Math.round`, `Math.min` and `Math.max`.
 */
module JsMath {

  /** `Math.round`: the integer nearest to `x`, halves rounded towards +infinity. */
  function Round(x: real): (n: int)
    ensures n as real - 0.5 <= x < n as real + 0.5
  {
    (x + 0.5).Floor
  }

  /** The rounding condition determines the rounded value. */
  lemma RoundUnique(x: real, m: int)
    requires m as real - 0.5 <= x < m as real + 0.5
    ensures Round(x) == m
  {
    var n := Round(x);
    assert n as real - 1.0 < m as real < n as real + 1.0;
  }

  /** Rounding a value between two integers stays between them. */
  lemma RoundWithin(x: real, lo: int, hi: int)
    requires lo as real <= x <= hi as real
    ensures lo <= Round(x) <= hi
  {
    var n := Round(x);
    assert n as real < (hi + 1) as real;
    assert (lo - 1) as real < n as real;
  }

  /** `Math.min` on integers. */
  function Min(a: int, b: int): (m: int)
    ensures m <= a && m <= b
    ensures m == a || m == b
  {
    if a <= b then a else b
  }

  /** `Math.max` on integers. */
  function Max(a: int, b: int): (m: int)
    ensures a <= m && b <= m
    ensures m == a || m == b
  {
    if a >= b then a else b
  }
}
