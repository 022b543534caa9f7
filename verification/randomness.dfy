/** The deterministic tie-break source. A run uses exactly one of two
    interchangeable sources: the stable source, which always answers 0, and a
    seeded pseudo-random generator. The generator's algorithm is foreign
    library code, so it is an oracle here: a function from (generator state,
    bound n) to an index below n and the next state. Because the oracle is a
    function, equal seeds and equal sequences of draws give equal answers. */
module Randomness {
  import opened Types

  /** A bounded-draw oracle: for every state and every bound `n > 0`, the
      index it yields is below `n`. */
  type DrawFn = f: (nat, nat) -> (nat, nat) | forall state: nat, n: nat :: 0 < n ==> f(state, n).0 < n
    witness (state: nat, n: nat) => (0, state)

  datatype TieBreakSource = StableSource | SeededSource(draw: DrawFn, state: nat)

  /** `src'` is a later state of the source `src`: the stable source stays
      as it is, and a seeded source stays seeded with the same generator. */
  ghost predicate SameSource(src: TieBreakSource, src': TieBreakSource) {
    && (src.StableSource? ==> src' == src)
    && (src.SeededSource? ==> src'.SeededSource? && src'.draw == src.draw)
  }

  lemma SameSourceTrans(a: TieBreakSource, b: TieBreakSource, c: TieBreakSource)
    requires SameSource(a, b) && SameSource(b, c)
    ensures SameSource(a, c)
  {
  }

  /** One bounded draw in `[0, n)`. */
  function Draw(src: TieBreakSource, n: nat): (r: (nat, TieBreakSource))
    requires 0 < n
    ensures r.0 < n
    ensures src.StableSource? ==> r.0 == 0 && r.1 == src
    ensures src.SeededSource? ==> r.1.SeededSource? && r.1.draw == src.draw
    ensures SameSource(src, r.1)
  {
    match src
    case StableSource => (0, src)
    case SeededSource(draw, state) =>
      var (i, next) := draw(state, n);
      (i, SeededSource(draw, next))
  }

  /** The source a run uses for its tie-break mode; `stdRng` is the seeded
      generator's algorithm and the seed is its initial state. */
  function SourceFor(tieBreak: TieBreak, stdRng: DrawFn): (src: TieBreakSource)
    ensures tieBreak.Stable? <==> src.StableSource?
    ensures tieBreak.Seeded? ==> src == SeededSource(stdRng, tieBreak.seed)
  {
    match tieBreak
    case Stable => StableSource
    case Seeded(seed) => SeededSource(stdRng, seed)
  }
}
