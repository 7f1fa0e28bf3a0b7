/** How the two estimators relate: the same formula where their inputs meet,
    and different rejection rules for negative input. */
module EstimatorVariants {
  import opened Options
  import opened Pricing
  import EstimatorForm
  import EstimatorWidget

  /** On positive input the widget is the full estimator for epoxy flooring
      (rate 8) with the standard timeline. */
  lemma WidgetIsFormForEpoxy(sqFt: real, complexity: Complexity)
    requires sqFt > 0.0
    ensures EstimatorWidget.Estimate(Some(sqFt), complexity)
         == EstimatorForm.Estimate(EstimatorForm.FormValues(Some(sqFt), "epoxy-flooring", complexity, EstimatorForm.Timeline.Standard))
  {
    EstimatorForm.BaseRateTable("epoxy-flooring");
  }

  /** The two rejection rules differ exactly on negative input: the widget
      declines it, the form prices it. On zero and NaN both decline. */
  lemma RejectionRulesDiffer(squareFootage: Option<real>, v: EstimatorForm.FormValues)
    requires v.squareFootage == squareFootage
    ensures EstimatorForm.Estimate(v).None? ==> EstimatorWidget.Estimate(squareFootage, v.complexity).None?
    ensures (EstimatorForm.Estimate(v).Some? && EstimatorWidget.Estimate(squareFootage, v.complexity).None?)
        <==> (squareFootage.Some? && squareFootage.value < 0.0)
  {
  }
}
