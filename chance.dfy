/** `Math.random()` is injected: every random draw is a real number in [0, 1)
    passed in by the caller. */
module Chance {

  /** What `Math.random()` promises of its result. */
  predicate IsUnit(r: real) {
    0.0 <= r < 1.0
  }

  /** `Math.floor(r * n)`: the idiom the dashboard uses to pick an index
      into a table of `n` entries. */
  function Pick(r: real, n: nat): (k: nat)
    requires IsUnit(r) && n > 0
    ensures k < n
  {
    var scaled := r * n as real;
    assert 0.0 <= scaled < n as real;
    scaled.Floor
  }

  /** Every index can be drawn: the draw `k / n` picks exactly `k`. */
  lemma PickReaches(k: nat, n: nat)
    requires k < n
    ensures IsUnit(k as real / n as real) && Pick(k as real / n as real, n) == k
  {
    var r := k as real / n as real;
    assert r * n as real == k as real;
    assert 0.0 <= r;
    assert r < 1.0 by {
      assert r * n as real < n as real;
    }
  }
}
