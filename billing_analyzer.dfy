/**
 * The billing analyzer: compare the last two group amounts of yesterday's
 * first hourly period and notify when the second exceeds the first by the
 * threshold percentage or more.
 */
module BillingAnalyzer {
  import opened Wrappers
  import opened Services
  import opened DeviationPolicy

  const DefaultThresholdPercent: real := 20.0
  const AlertSubject: string := "CloudGuard360 Alert"

  /** The module-level settings read from the environment. */
  datatype Config = Config(topicArn: string, thresholdPercent: real)

  /**
   * Module initialisation: `SNS_TOPIC_ARN` must be set (reading it raises
   * otherwise), and `THRESHOLD_PERCENT` falls back to 20.  Each variable is
   * given as its value, if set; for the threshold, the value `float` reads.
   */
  function Configure(topicArn: Option<string>, thresholdPercent: Option<real>): (r: Result<Config>)
    ensures r.Success? <==> topicArn.Some?
    ensures r.Success? ==> r.value.topicArn == topicArn.value
    ensures r.Success? && thresholdPercent.None? ==> r.value.thresholdPercent == 20.0
    ensures r.Success? && thresholdPercent.Some? ==> r.value.thresholdPercent == thresholdPercent.value
  {
    match topicArn
    case None => Failure("KeyError: 'SNS_TOPIC_ARN'")
    case Some(arn) => Success(Config(arn, if thresholdPercent.Some? then thresholdPercent.value else DefaultThresholdPercent))
  }

  /** The alert text: the increase and the two costs it quotes. */
  datatype AlertMessage = AlertMessage(increasePercent: real, prevCost: real, currCost: real)

  /** The three records the handler returns. */
  datatype Outcome =
    | NotEnoughData
    | Alert(message: AlertMessage)
    | NoAlert(increase: real)

  /**
   * The decision on the cost values: too few values, or the increase from
   * the second-to-last to the last value against the threshold.
   */
  function Evaluate(costValues: seq<real>, thresholdPercent: real): (r: Outcome)
    ensures r == NotEnoughData <==> |costValues| < 2
    ensures r.Alert? ==>
              r.message.prevCost == costValues[|costValues| - 2] &&
              r.message.currCost == costValues[|costValues| - 1] &&
              r.message.increasePercent >= thresholdPercent
    ensures r.NoAlert? ==> r.increase < thresholdPercent
    ensures |costValues| >= 2 ==>
              var increase := PercentIncrease(costValues[|costValues| - 2], costValues[|costValues| - 1]);
              (r.Alert? <==> increase >= thresholdPercent) &&
              (r.Alert? ==> r.message.increasePercent == increase) &&
              (r.NoAlert? ==> r.increase == increase)
  {
    if |costValues| < 2 then NotEnoughData
    else
      var prev, curr := costValues[|costValues| - 2], costValues[|costValues| - 1];
      var increase := PercentIncrease(prev, curr);
      if ReachesThreshold(increase, thresholdPercent) then Alert(AlertMessage(increase, prev, curr))
      else NoAlert(increase)
  }

  /** Values before the last two do not affect the decision. */
  lemma OnlyLastTwoCount(earlier: seq<real>, prev: real, curr: real, thresholdPercent: real)
    ensures Evaluate(earlier + [prev, curr], thresholdPercent) == Evaluate([prev, curr], thresholdPercent)
  {
    var s := earlier + [prev, curr];
    assert s[|s| - 2] == prev && s[|s| - 1] == curr;
  }

  /** Under the default threshold: 21% alerts, 19% does not, a zero previous value never does. */
  lemma DefaultThresholdExamples(earlier: seq<real>)
    ensures Evaluate(earlier + [100.0, 121.0], DefaultThresholdPercent) == Alert(AlertMessage(21.0, 100.0, 121.0))
    ensures Evaluate(earlier + [100.0, 119.0], DefaultThresholdPercent) == NoAlert(19.0)
    ensures Evaluate(earlier + [100.0, 120.0], DefaultThresholdPercent).Alert?
    ensures Evaluate(earlier + [0.0, 50.0], DefaultThresholdPercent) == NoAlert(0.0)
    ensures Evaluate([100.0], DefaultThresholdPercent) == NotEnoughData
  {
    OnlyLastTwoCount(earlier, 100.0, 121.0, DefaultThresholdPercent);
    OnlyLastTwoCount(earlier, 100.0, 119.0, DefaultThresholdPercent);
    OnlyLastTwoCount(earlier, 100.0, 120.0, DefaultThresholdPercent);
    OnlyLastTwoCount(earlier, 0.0, 50.0, DefaultThresholdPercent);
  }

  /** A request the handler sends. */
  datatype Call =
    | GetCostAndUsage(query: CostQuery)
    | Publish(topic: string, subject: string, message: AlertMessage)

  /** Yesterday's unblended cost in HOURLY periods, from today - 1 up to today. */
  function HourlyQuery(today: Date): CostQuery
  {
    CostQuery(today - 1, today, Hourly, UnblendedCost)
  }

  /**
   * The handler.  `costExplorer` answers a cost query with, for each
   * period, the amounts of its groups, or with the error the call raises;
   * `publishError` is the error SNS raises, if any.  No error is caught.
   */
  method Handle(config: Config, today: Date, costExplorer: CostQuery -> Result<seq<seq<real>>>,
                publishError: Option<string>, log: Log<Call>)
    returns (r: Invocation<Outcome>)
    modifies log
    ensures FirstPeriod(costExplorer(HourlyQuery(today))).Failure? ==>
              r == Raised(FirstPeriod(costExplorer(HourlyQuery(today))).error) &&
              log.entries == old(log.entries) + [GetCostAndUsage(HourlyQuery(today))]
    ensures FirstPeriod(costExplorer(HourlyQuery(today))).Success? ==>
              var outcome := Evaluate(FirstPeriod(costExplorer(HourlyQuery(today))).value, config.thresholdPercent);
              log.entries == old(log.entries) + [GetCostAndUsage(HourlyQuery(today))] +
                (if outcome.Alert? then [Publish(config.topicArn, AlertSubject, outcome.message)] else []) &&
              r == (if outcome.Alert? && publishError.Some? then Raised(publishError.value) else Returned(outcome))
  {
    var end := today;
    var start := end - 1;
    var query := CostQuery(start, end, Hourly, UnblendedCost);
    log.Append(GetCostAndUsage(query));
    var results := FirstPeriod(costExplorer(query));
    if results.Failure? {
      return Raised(results.error);
    }
    var costValues := results.value;

    if |costValues| < 2 {
      return Returned(NotEnoughData);
    }

    var prevCost, currCost := costValues[|costValues| - 2], costValues[|costValues| - 1];
    var increase := if prevCost != 0.0 then ((currCost - prevCost) / prevCost) * 100.0 else 0.0;

    if increase >= config.thresholdPercent {
      var message := AlertMessage(increase, prevCost, currCost);
      log.Append(Publish(config.topicArn, AlertSubject, message));
      if publishError.Some? {
        return Raised(publishError.value);
      }
      return Returned(Alert(message));
    }
    return Returned(NoAlert(increase));
  }
}
