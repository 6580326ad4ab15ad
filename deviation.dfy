/**
 * The two rules by which the handlers call a cost anomalous: the absolute
 * rule (actual above 1.3 times the forecast, strictly) and the relative rule
 * (percent increase over the previous value at or above a threshold), and
 * how they differ.
 */
module DeviationPolicy {

  /** The factor in `predicted_cost * 1.3`: 30% above the forecast. */
  const Multiplier: real := 1.3

  /** The absolute rule: `actual_cost > predicted_cost * 1.3`. */
  predicate ExceedsForecast(predicted: real, actual: real)
  {
    actual > predicted * Multiplier
  }

  /** `((curr - prev) / prev) * 100 if prev else 0`: no increase is reported over a zero value. */
  function PercentIncrease(prev: real, curr: real): real
  {
    if prev != 0.0 then (curr - prev) / prev * 100.0 else 0.0
  }

  /** The relative rule: `increase >= THRESHOLD_PERCENT`. */
  predicate ReachesThreshold(increase: real, thresholdPercent: real)
  {
    increase >= thresholdPercent
  }

  // ---------------------------------------------------------------------
  // The absolute rule

  /** A cost exactly 1.3 times the forecast is normal; any cost above it is not. */
  lemma ExceedsForecastBoundary(predicted: real, excess: real)
    requires excess > 0.0
    ensures !ExceedsForecast(predicted, predicted * 1.3)
    ensures ExceedsForecast(predicted, predicted * 1.3 + excess)
  {
  }

  /** A higher actual cost is anomalous whenever a lower one is. */
  lemma ExceedsForecastMonotone(predicted: real, actual: real, actual': real)
    requires ExceedsForecast(predicted, actual) && actual' >= actual
    ensures ExceedsForecast(predicted, actual')
  {
  }

  lemma ExceedsForecastExamples()
    ensures !ExceedsForecast(100.0, 130.0)
    ensures ExceedsForecast(100.0, 130.01)
  {
  }

  // ---------------------------------------------------------------------
  // The relative rule

  /** Over a positive previous value the rule reads "curr >= prev * (1 + t / 100)". */
  lemma ReachesThresholdAsRatio(prev: real, curr: real, thresholdPercent: real)
    requires prev > 0.0
    ensures ReachesThreshold(PercentIncrease(prev, curr), thresholdPercent)
        <==> curr >= prev * (1.0 + thresholdPercent / 100.0)
  {
    var ratio := (curr - prev) / prev;
    assert ratio * prev == curr - prev;
    if curr >= prev * (1.0 + thresholdPercent / 100.0) {
      assert curr - prev >= (thresholdPercent / 100.0) * prev;
      DivideBoth(curr - prev, (thresholdPercent / 100.0) * prev, prev);
    } else {
      assert curr - prev < (thresholdPercent / 100.0) * prev;
      DivideBothStrict(curr - prev, (thresholdPercent / 100.0) * prev, prev);
    }
  }

  lemma DivideBoth(a: real, b: real, p: real)
    requires p > 0.0 && a >= b
    ensures a / p >= b / p
  {
  }

  lemma DivideBothStrict(a: real, b: real, p: real)
    requires p > 0.0 && a < b
    ensures a / p < b / p
  {
  }

  /** A zero previous value never alerts under a positive threshold, whatever follows it. */
  lemma ZeroPreviousNeverAlerts(curr: real, thresholdPercent: real)
    requires thresholdPercent > 0.0
    ensures PercentIncrease(0.0, curr) == 0.0
    ensures !ReachesThreshold(PercentIncrease(0.0, curr), thresholdPercent)
  {
  }

  lemma ReachesThresholdExamples()
    ensures PercentIncrease(100.0, 121.0) == 21.0 && ReachesThreshold(21.0, 20.0)
    ensures PercentIncrease(100.0, 119.0) == 19.0 && !ReachesThreshold(19.0, 20.0)
    ensures PercentIncrease(100.0, 120.0) == 20.0 && ReachesThreshold(20.0, 20.0)
    ensures PercentIncrease(0.0, 50.0) == 0.0 && !ReachesThreshold(0.0, 20.0)
  {
  }

  // ---------------------------------------------------------------------
  // The two rules side by side

  /**
   * With the forecast as the previous value and a 30% threshold, the two
   * rules agree on every positive forecast except at the boundary itself:
   * there the relative rule alerts and the absolute rule does not.
   */
  lemma RulesDifferOnlyAtBoundary(predicted: real, actual: real)
    requires predicted > 0.0
    ensures ExceedsForecast(predicted, actual)
        <==> ReachesThreshold(PercentIncrease(predicted, actual), 30.0) && actual != predicted * 1.3
    ensures actual == predicted * 1.3 ==>
              ReachesThreshold(PercentIncrease(predicted, actual), 30.0) && !ExceedsForecast(predicted, actual)
  {
    ReachesThresholdAsRatio(predicted, actual, 30.0);
    assert predicted * (1.0 + 30.0 / 100.0) == predicted * 1.3;
  }

  /**
   * Over a zero baseline the rules disagree the other way: any positive cost
   * exceeds a zero forecast, but no increase is reported over a zero
   * previous value.
   */
  lemma RulesDifferAtZero(actual: real, thresholdPercent: real)
    requires actual > 0.0 && thresholdPercent > 0.0
    ensures ExceedsForecast(0.0, actual)
    ensures !ReachesThreshold(PercentIncrease(0.0, actual), thresholdPercent)
  {
  }
}
