/**
 * The anomaly-alert handler: the cost monitor's check, followed by an SNS
 * notification when yesterday's cost exceeds the forecast by more than 30%.
 */
module AiData {
  import opened Wrappers
  import opened Services
  import opened DeviationPolicy
  import CostMonitor

  const AlertTopic: string := "arn:aws:sns:ap-south-1:713881803439:CloudGuard360CostAlerts"
  const AlertSubject: string := "[CloudGuard360] Billing Anomaly Alert"

  /** The alert or all-clear message: its branch, the day it reports on, and the two costs it quotes. */
  datatype Message = Message(anomaly: bool, day: Date, predictedCost: real, actualCost: real)

  /** A request the handler sends. */
  datatype Call =
    | GetObject(bucket: string, key: string)
    | GetCostAndUsage(query: CostQuery)
    | Publish(topic: string, subject: string, message: Message)

  /** The message without the day it names: the monitor's status message. */
  function WithoutDay(r: CostMonitor.Response<Message>): CostMonitor.Response<CostMonitor.Status>
  {
    match r.body
    case LoadError(e) => CostMonitor.Response(r.statusCode, CostMonitor.LoadError(e))
    case FetchError(e) => CostMonitor.Response(r.statusCode, CostMonitor.FetchError(e))
    case Report(p, a, m) =>
      CostMonitor.Response(r.statusCode, CostMonitor.Report(p, a, CostMonitor.Status(m.anomaly, m.predictedCost, m.actualCost)))
  }

  /** The number of notifications among the requests. */
  function Publishes(calls: seq<Call>): nat
  {
    if |calls| == 0 then 0 else Publishes(calls[..|calls| - 1]) + (if calls[|calls| - 1].Publish? then 1 else 0)
  }

  lemma {:induction false} PublishesAppend(calls: seq<Call>, more: seq<Call>)
    ensures Publishes(calls + more) == Publishes(calls) + Publishes(more)
  {
    if |more| > 0 {
      assert (calls + more)[..|calls + more| - 1] == calls + more[..|more| - 1];
      PublishesAppend(calls, more[..|more| - 1]);
    } else {
      assert calls + more == calls;
    }
  }

  /**
   * The handler.  `stored` is the outcome of reading and parsing the stored
   * prediction, `costExplorer` answers cost queries, and `publishError` is
   * the error SNS raises, if any; a publish error is not caught.
   */
  method Handle(stored: Result<real>, today: Date, costExplorer: CostQuery -> Result<seq<real>>,
                publishError: Option<string>, log: Log<Call>)
    returns (r: Invocation<CostMonitor.Response<Message>>)
    modifies log
    // A failed load: status 500, and neither a cost query nor a notification.
    ensures stored.Failure? ==>
              r == Returned(CostMonitor.Response(500, CostMonitor.LoadError(stored.error))) &&
              log.entries == old(log.entries) + [GetObject(CostMonitor.PredictionBucket, CostMonitor.PredictionKey)]
    // Otherwise yesterday's cost is queried once.
    ensures stored.Success? ==>
              |log.entries| >= |old(log.entries)| + 2 &&
              log.entries[..|old(log.entries)| + 2] == old(log.entries) + [
                GetObject(CostMonitor.PredictionBucket, CostMonitor.PredictionKey),
                GetCostAndUsage(CostMonitor.YesterdayQuery(today))]
    // A failed fetch: status 500 and no notification.
    ensures stored.Success? && FirstPeriod(costExplorer(CostMonitor.YesterdayQuery(today))).Failure? ==>
              r == Returned(CostMonitor.Response(500, CostMonitor.FetchError(FirstPeriod(costExplorer(CostMonitor.YesterdayQuery(today))).error))) &&
              |log.entries| == |old(log.entries)| + 2
    // Both costs known: one notification exactly when the cost is anomalous.
    ensures stored.Success? && FirstPeriod(costExplorer(CostMonitor.YesterdayQuery(today))).Success? ==>
              var predicted, actual := stored.value, FirstPeriod(costExplorer(CostMonitor.YesterdayQuery(today))).value;
              var message := Message(ExceedsForecast(predicted, actual), today - 1, predicted, actual);
              log.entries == old(log.entries) + [
                GetObject(CostMonitor.PredictionBucket, CostMonitor.PredictionKey),
                GetCostAndUsage(CostMonitor.YesterdayQuery(today))] +
                (if message.anomaly then [Publish(AlertTopic, AlertSubject, message)] else []) &&
              r == (if message.anomaly && publishError.Some? then Raised(publishError.value)
                    else Returned(CostMonitor.Response(200, CostMonitor.Report(predicted, actual, message))))
    // What it returns is what the cost monitor returns, with the day added to the message.
    ensures r.Returned? ==> WithoutDay(r.value) == CostMonitor.Handle(stored, today, costExplorer)
  {
    log.Append(GetObject(CostMonitor.PredictionBucket, CostMonitor.PredictionKey));
    if stored.Failure? {
      return Returned(CostMonitor.Response(500, CostMonitor.LoadError(stored.error)));
    }
    var predicted := stored.value;

    var yesterday := today - 1;
    var query := CostQuery(yesterday, today, Daily, UnblendedCost);
    log.Append(GetCostAndUsage(query));
    var fetched := FirstPeriod(costExplorer(query));
    if fetched.Failure? {
      return Returned(CostMonitor.Response(500, CostMonitor.FetchError(fetched.error)));
    }
    var actual := fetched.value;

    var threshold := predicted * 1.3;
    var message;
    if actual > threshold {
      message := Message(true, yesterday, predicted, actual);
      log.Append(Publish(AlertTopic, AlertSubject, message));
      if publishError.Some? {
        return Raised(publishError.value);
      }
    } else {
      message := Message(false, yesterday, predicted, actual);
    }
    r := Returned(CostMonitor.Response(200, CostMonitor.Report(predicted, actual, message)));
  }

  /** A run that gets both costs sends exactly one notification when the cost is anomalous, none otherwise. */
  lemma PublishedOnceIffAnomalous(before: seq<Call>, today: Date, predicted: real, actual: real)
    ensures var message := Message(ExceedsForecast(predicted, actual), today - 1, predicted, actual);
            var after := before + [
              GetObject(CostMonitor.PredictionBucket, CostMonitor.PredictionKey),
              GetCostAndUsage(CostMonitor.YesterdayQuery(today))] +
              (if message.anomaly then [Publish(AlertTopic, AlertSubject, message)] else []);
            Publishes(after) == Publishes(before) + (if ExceedsForecast(predicted, actual) then 1 else 0)
  {
    var message := Message(ExceedsForecast(predicted, actual), today - 1, predicted, actual);
    var fixed := [GetObject(CostMonitor.PredictionBucket, CostMonitor.PredictionKey),
                  GetCostAndUsage(CostMonitor.YesterdayQuery(today))];
    var alert := if message.anomaly then [Publish(AlertTopic, AlertSubject, message)] else [];
    PublishesAppend(before + fixed, alert);
    PublishesAppend(before, fixed);
    assert Publishes(fixed) == 0 by {
      assert fixed[..1] == [fixed[0]];
      assert [fixed[0]][..0] == [];
    }
    if message.anomaly {
      assert alert[..0] == [];
    }
  }
}
