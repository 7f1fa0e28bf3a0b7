/** The floating "Quick Estimate" widget: one fixed rate, a complexity
    multiplier, and no service type or timeline. */
module EstimatorWidget {
  import opened Options
  import opened Pricing

  /** $8 per square foot, whatever the project. */
  const WidgetBaseRate: real := 8.0

  /** The widget's `calculateEstimate` result: nothing when the input is NaN,
      zero or negative (`!sqFt || sqFt <= 0`), otherwise sqFt × 8 × multiplier. */
  function Estimate(squareFootage: Option<real>, complexity: Complexity): (r: Option<real>)
    ensures r.Some? <==> squareFootage.Some? && squareFootage.value > 0.0
    ensures r.Some? ==> r.value > 0.0
  {
    match squareFootage
    case None => None
    case Some(sqFt) =>
      // `!sqFt || sqFt <= 0`: the first test (0 or NaN) is subsumed by the second.
      if sqFt == 0.0 || sqFt <= 0.0 then None
      else Some(sqFt * WidgetBaseRate * ComplexityMultiplier(complexity))
  }

  /** For a fixed area the estimate strictly increases along
      simple < standard < complex < premium. */
  lemma EstimateIncreasesWithComplexity(sqFt: real, a: Complexity, b: Complexity)
    requires sqFt > 0.0 && Rank(a) < Rank(b)
    ensures Estimate(Some(sqFt), a).value < Estimate(Some(sqFt), b).value
  {
    MultiplierIncreasesWithRank(a, b);
    var d := ComplexityMultiplier(b) - ComplexityMultiplier(a);
    assert sqFt * WidgetBaseRate * ComplexityMultiplier(b) - sqFt * WidgetBaseRate * ComplexityMultiplier(a)
        == sqFt * WidgetBaseRate * d;
    assert sqFt * WidgetBaseRate * d > 0.0;
  }

  /** Holding complexity fixed, more square footage costs strictly more. */
  lemma EstimateIncreasesWithArea(a: real, b: real, complexity: Complexity)
    requires 0.0 < a < b
    ensures Estimate(Some(a), complexity).value < Estimate(Some(b), complexity).value
  {
    var k := WidgetBaseRate * ComplexityMultiplier(complexity);
    assert a * WidgetBaseRate * ComplexityMultiplier(complexity) == a * k;
    assert b * WidgetBaseRate * ComplexityMultiplier(complexity) == b * k;
    assert (b - a) * k > 0.0;
  }

  /** 500 sq ft at the premium tier: 6400, shown as 5760 to 7040. */
  lemma PremiumExample()
    ensures Estimate(Some(500.0), Premium) == Some(6400.0)
    ensures ShownRange(Some(6400.0)) == Some(Range(5760, 7040))
  {
    RoundOfInteger(5760);
    RoundOfInteger(7040);
  }

  /** Every estimate the widget shows has a well-ordered range. */
  lemma ShownRangeIsOrdered(squareFootage: Option<real>, complexity: Complexity)
    requires Estimate(squareFootage, complexity).Some?
    ensures ShownRange(Estimate(squareFootage, complexity)).Some?
    ensures ShownRange(Estimate(squareFootage, complexity)).value.low
         <= ShownRange(Estimate(squareFootage, complexity)).value.high
  {
    PriceRangeBrackets(Estimate(squareFootage, complexity).value);
  }

  /** The widget's UI state: the selected complexity and the last estimate. */
  class Widget {
    var complexity: Complexity
    var estimate: Option<real>

    constructor ()
      ensures complexity == Complexity.Standard && estimate == None
    {
      complexity := Complexity.Standard;
      estimate := None;
    }

    /** The complexity `<select>`: only its four options can be chosen. */
    method SetComplexity(c: Complexity)
      modifies this`complexity
      ensures complexity == c
    {
      complexity := c;
    }

    /** "Calculate Estimate"; `squareFootage` is `parseFloat` of the text field. */
    method CalculateEstimate(squareFootage: Option<real>)
      modifies this`estimate
      ensures estimate == if Estimate(squareFootage, complexity).Some? then Estimate(squareFootage, complexity)
                          else old(estimate)
    {
      var r := Estimate(squareFootage, complexity);
      if r.None? {
        return;
      }
      estimate := r;
    }
  }
}
