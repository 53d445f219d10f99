/**
 * The host's pseudo-random generator (java.util.Random), reduced to what the
 * core observes of it: an unbounded stream of draws consumed one at a time.
 */
module HostRandom {

  /** The value `nextInt(bound)` yields for the raw draw `d`: always in [0, bound). */
  function Draw(d: int, bound: int): (r: int)
    requires bound > 0
    ensures 0 <= r < bound
    ensures 0 <= d < bound ==> r == d
  {
    d % bound
  }

  /**
   * A random source. `stream(k)` is the k-th raw draw and `pos` counts the
   * draws used so far; every call of NextInt consumes exactly one draw.
   */
  class Random {
    const stream: nat -> int
    var pos: nat

    constructor (stream: nat -> int)
      ensures this.stream == stream && pos == 0
    {
      this.stream := stream;
      pos := 0;
    }

    /** `nextInt(bound)`: the host throws for a bound that is not positive. */
    method NextInt(bound: int) returns (r: int)
      requires bound > 0
      modifies this
      ensures pos == old(pos) + 1
      ensures r == Draw(stream(old(pos)), bound)
    {
      r := Draw(stream(pos), bound);
      pos := pos + 1;
    }
  }
}
