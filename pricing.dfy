/** What the full estimator and the quick-estimate widget share: the complexity
    tiers with their multipliers, `Math.round`, and the displayed price range.
    Money is an exact real; the IEEE-754 rounding of the products is not modelled. */
module Pricing {
  import opened Options

  /** The four complexity options of both estimators. */
  datatype Complexity = Simple | Standard | Complex | Premium

  /** Position of a tier in the order the options are listed. */
  function Rank(c: Complexity): nat
  {
    match c
    case Simple => 0
    case Standard => 1
    case Complex => 2
    case Premium => 3
  }

  /** The complexity multiplier table (identical in both estimators). */
  function ComplexityMultiplier(c: Complexity): (m: real)
    ensures 0.8 <= m <= 1.6
  {
    match c
    case Simple => 0.8
    case Standard => 1.0
    case Complex => 1.3
    case Premium => 1.6
  }

  /** A more demanding tier always costs more. */
  lemma MultiplierIncreasesWithRank(a: Complexity, b: Complexity)
    ensures Rank(a) < Rank(b) <==> ComplexityMultiplier(a) < ComplexityMultiplier(b)
  {
  }

  /** `Math.round`: the nearest integer, halves rounded up. */
  function Round(x: real): (n: int)
    ensures x - 0.5 < n as real <= x + 0.5
  {
    (x + 0.5).Floor
  }

  lemma RoundIsMonotone(a: real, b: real)
    requires a <= b
    ensures Round(a) <= Round(b)
  {
  }

  lemma RoundOfInteger(n: int)
    ensures Round(n as real) == n
  {
  }

  /** The "Estimated Range" pair of whole currency units shown for an estimate. */
  datatype Range = Range(low: int, high: int)

  /** `Math.round(estimate * 0.9)` to `Math.round(estimate * 1.1)`. */
  function PriceRange(estimate: real): Range
  {
    Range(Round(estimate * 0.9), Round(estimate * 1.1))
  }

  /** Each end lies within half a unit of its ±10 % bound, and for a
      non-negative estimate the range brackets the rounded estimate; a negative
      estimate turns it upside down. */
  lemma PriceRangeBrackets(e: real)
    ensures e * 0.9 - 0.5 < PriceRange(e).low as real <= e * 0.9 + 0.5
    ensures e * 1.1 - 0.5 < PriceRange(e).high as real <= e * 1.1 + 0.5
    ensures e >= 0.0 ==> PriceRange(e).low <= Round(e) <= PriceRange(e).high
    ensures e < 0.0 ==> PriceRange(e).high <= Round(e) <= PriceRange(e).low
  {
    if e >= 0.0 {
      RoundIsMonotone(e * 0.9, e);
      RoundIsMonotone(e, e * 1.1);
    } else {
      RoundIsMonotone(e * 1.1, e);
      RoundIsMonotone(e, e * 0.9);
    }
  }

  /** The range is rendered under `{estimate && ...}`: only when an estimate is
      set and is not zero. */
  function ShownRange(estimate: Option<real>): Option<Range>
  {
    if estimate.Some? && estimate.value != 0.0 then Some(PriceRange(estimate.value)) else None
  }
}
