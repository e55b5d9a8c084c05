/** The pseudo-random engines, made explicit: an engine is the stream of the samples its
    distributions draw, together with a cursor that says how many have been drawn. */
module Rng {

  /** One entry per distribution sample, in the order the samples are drawn. */
  type Draws = nat -> int

  /** A uniform integer distribution over `[lo, hi]`, reading one entry of the stream. */
  function Uniform(draw: int, lo: int, hi: int): (r: int)
    requires lo <= hi
    ensures lo <= r <= hi
  {
    lo + draw % (hi - lo + 1)
  }

  /** The `[0, 100]` trigger distribution applied to the draw at cursor `pos`. */
  function Trigger(draws: Draws, pos: nat): (r: int)
    ensures 0 <= r <= 100
  {
    Uniform(draws(pos), 0, 100)
  }
}
