/**
 * The pattern modules turn a uniform draw `r` from [0, 1) into an integer by
 * `Math.floor(r * n)` (an index below `n`) or `Math.floor(r * (max - min + 1)) + min`
 * (an integer in [min, max]). The draw is a parameter here and the arithmetic is
 * on exact reals.
 */
module Draws {

  /** `Math.floor(r * n)`: an index into a list of length `n`. */
  function FloorIndex(r: real, n: nat): (i: nat)
    requires 0.0 <= r < 1.0 && n > 0
    ensures i < n
    ensures i as real <= r * n as real < i as real + 1.0
  {
    var x := r * n as real;
    assert 0.0 <= x < n as real;
    x.Floor
  }

  /** Every index below `n` is the image of some draw, so the conversion leaves no slot out. */
  lemma FloorIndexReaches(i: nat, n: nat)
    requires i < n
    ensures 0.0 <= i as real / n as real < 1.0
    ensures FloorIndex(i as real / n as real, n) == i
  {
    var r := i as real / n as real;
    assert r * n as real == i as real;
  }

  /** `randomInt(min, max)`: an integer from `min` to `max` inclusive. */
  function RandomInt(r: real, min: int, max: int): (k: int)
    requires 0.0 <= r < 1.0 && min <= max
    ensures min <= k <= max
  {
    FloorIndex(r, max - min + 1) + min
  }
}
