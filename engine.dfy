/** The capabilities the calculation takes from the external TrueSkill
    library: the Bayesian update, the match-quality measure, the standard
    normal cumulative distribution function and the square root. They are
    parameters of the model; the predicates below state the only facts the
    model relies on. */
module Engine {
  import opened Config
  import opened Types

  datatype Capabilities = Capabilities(
    /** `env.rate(ratings, ranks, weights)` for an environment built from the config. */
    rate: (TrueSkillConfig, seq<seq<Rating>>, seq<real>, seq<seq<real>>) -> seq<seq<Rating>>,
    /** `env.quality(ratings, weights)`. */
    quality: (TrueSkillConfig, seq<seq<Rating>>, seq<seq<real>>) -> real,
    /** `env.guassian.cdf`, the standard normal CDF. */
    cdf: real -> real,
    /** `Math.sqrt`. */
    sqrt: real -> real)

  /** Two nested sequences have the same outer length and the same inner lengths. */
  predicate SameShape<A, B>(a: seq<seq<A>>, b: seq<seq<B>>) {
    |a| == |b| && forall i :: 0 <= i < |a| ==> |a[i]| == |b[i]|
  }

  /** The update returns one new rating per input rating, team by team. */
  ghost predicate RatePreservesShape(
    rate: (TrueSkillConfig, seq<seq<Rating>>, seq<real>, seq<seq<real>>) -> seq<seq<Rating>>)
  {
    forall c, ratings, ranks, weights :: SameShape(rate(c, ratings, ranks, weights), ratings)
  }

  /** The quality measure is a probability. */
  ghost predicate QualityIsProbability(quality: (TrueSkillConfig, seq<seq<Rating>>, seq<seq<real>>) -> real) {
    forall c, ratings, weights :: 0.0 <= quality(c, ratings, weights) <= 1.0
  }

  /** The CDF is a probability. */
  ghost predicate CdfIsProbability(cdf: real -> real) {
    forall x :: 0.0 <= cdf(x) <= 1.0
  }

  /** The square root of a non-negative number is its non-negative root. */
  ghost predicate SqrtIsRoot(sqrt: real -> real) {
    forall x :: 0.0 <= x ==> 0.0 <= sqrt(x) && sqrt(x) * sqrt(x) == x
  }
}
