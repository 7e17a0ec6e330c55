/** The pseudo-random generator a pipeline draws its firing decisions from.
    Its algorithm is not modelled: a generator is a stream of draws fixed by
    the seed it was last given, read through a cursor that every draw advances. */
module DrawStream {

  /** Java's 64-bit `long`, the type of a seed. */
  newtype Long = x: int | -0x8000_0000_0000_0000 <= x < 0x8000_0000_0000_0000

  /** The generator's algorithm: the k-th draw after seeding with s.
      `nextDouble` only ever yields values in [0, 1). */
  type Algorithm = f: (Long, nat) -> real | forall s: Long, k: nat :: 0.0 <= f(s, k) < 1.0
    witness (s: Long, k: nat) => 0.0

  /** Every value lies in [0, 1). */
  ghost predicate InUnitInterval(draws: seq<real>) {
    forall k :: 0 <= k < |draws| ==> 0.0 <= draws[k] < 1.0
  }

  /** The n draws a generator seeded with `seed` yields from position `from` on. */
  function Draws(algorithm: Algorithm, seed: Long, from: nat, n: nat): (draws: seq<real>)
    ensures |draws| == n && InUnitInterval(draws)
  {
    seq(n, k requires 0 <= k < n => algorithm(seed, from + k))
  }

  /** The generator object: `setSeed` restarts its stream, `nextDouble` reads it. */
  class Generator {
    const algorithm: Algorithm
    var seed: Long
    /** How many draws have been taken since the last seeding. */
    var cursor: nat

    constructor (algorithm: Algorithm, seed: Long)
      ensures this.algorithm == algorithm && this.seed == seed && cursor == 0
    {
      this.algorithm := algorithm;
      this.seed := seed;
      cursor := 0;
    }

    /** Reseeding fixes every later draw: the stream restarts from its first value. */
    method SetSeed(seed: Long)
      modifies this
      ensures this.seed == seed && cursor == 0
    {
      this.seed := seed;
      cursor := 0;
    }

    /** Yields the next value of the stream, in [0, 1), and moves past it. */
    method NextDouble() returns (r: real)
      modifies this
      ensures r == algorithm(seed, old(cursor)) && 0.0 <= r < 1.0
      ensures seed == old(seed) && cursor == old(cursor) + 1
    {
      r := algorithm(seed, cursor);
      cursor := cursor + 1;
    }
  }
}
