/**
 The three JavaScript `Math` operations the hole view uses, over exact reals.
 Floating-point rounding of the IEEE doubles is not modelled.
 */
module JsMath {

  /** `Math.abs` */
  function Abs(x: real): (r: real)
    ensures r >= 0.0
    ensures r == x || r == -x
  {
    if x < 0.0 then -x else x
  }

  /** `Math.max` of two reals: the larger argument. */
  function Max(a: real, b: real): (r: real)
    ensures r >= a && r >= b
    ensures r == a || r == b
  {
    if a < b then b else a
  }

  /**
   `Math.round`: the integer nearest to x, ties going towards +infinity,
   which is floor(x + 1/2).
   */
  function Round(x: real): (n: int)
    ensures x - 0.5 < n as real <= x + 0.5
  {
    (x + 0.5).Floor
  }

  /** Only one integer lies in the half-open window that Round's contract names. */
  lemma RoundIsUnique(x: real, k: int)
    requires x - 0.5 < k as real <= x + 0.5
    ensures k == Round(x)
  {
  }
}
