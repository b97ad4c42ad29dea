// The random source made explicit. Every place where the source calls a generator
// `() => number` (Math.random or a seeded generator) takes instead an infinite stream of
// draws and a cursor saying how many draws have been used.

module Draws {

  /** Draw k of an infinite stream of random numbers. */
  type Stream = nat -> real

  /** The contract of Math.random and of the seeded generator: every draw lies in [0, 1). */
  ghost predicate Unit(rng: Stream)
  {
    forall k: nat :: 0.0 <= rng(k) < 1.0
  }

  /** Math.floor(r * n): a uniform index into a range of n elements. */
  function ScaledIndex(r: real, n: nat): (k: int)
    requires 0.0 <= r < 1.0
    ensures n > 0 ==> 0 <= k < n
    ensures n == 0 ==> k == 0
  {
    var x := r * n as real;
    assert n > 0 ==> x < n as real by {
      if n > 0 {
        assert n as real - x == (1.0 - r) * n as real;
      }
    }
    x.Floor
  }
}
