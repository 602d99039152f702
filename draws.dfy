/**
 * The random source. Every `Math.random()` call of the original becomes an
 * explicit value: a stream of uniform draws in [0, 1), read in program order.
 */
module Draws {

  /** The value of one `Math.random()` call. */
  type Unit = r: real | 0.0 <= r < 1.0

  /** `Stream(i)` is what the i-th call (from 0) returns. */
  type Stream = nat -> Unit

  /** `Math.floor(r * n)` for a draw `r` and a positive count `n` lies in [0, n). */
  lemma ScaledDrawInRange(r: Unit, n: nat)
    requires n > 0
    ensures 0 <= (r * n as real).Floor < n
  {
    assert r * n as real < n as real by {
      assert (1.0 - r) * n as real > 0.0;
    }
  }
}
