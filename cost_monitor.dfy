/**
 * The cost-monitor handler: load the stored forecast, fetch yesterday's
 * actual cost, and report whether it exceeds the forecast by more than 30%.
 * It sends no notification; its only outputs are the record it returns and
 * a line on standard output, which is not modelled.
 */
module CostMonitor {
  import opened Wrappers
  import opened Services
  import opened DeviationPolicy

  /** Where the forecast run stored its prediction. */
  const PredictionBucket: string := "cloudguard360-ai-data"
  const PredictionKey: string := "predicted_cost.json"

  /** The status message: which branch was taken and the two costs it quotes. */
  datatype Status = Status(anomaly: bool, predictedCost: real, actualCost: real)

  /**
   * The body of the returned record: the error text of a failed step (its
   * constructor stands for the "Error loading predicted cost: " or "Error
   * fetching actual cost: " prefix), or the JSON report of both costs and
   * the status message.
   */
  datatype Body<M> =
    | LoadError(error: string)
    | FetchError(error: string)
    | Report(predictedCost: real, actualCost: real, status: M)

  datatype Response<M> = Response(statusCode: int, body: Body<M>)

  /** Yesterday's unblended cost, one DAILY period from today - 1 up to today. */
  function YesterdayQuery(today: Date): CostQuery
  {
    CostQuery(today - 1, today, Daily, UnblendedCost)
  }

  /**
   * The handler.  `stored` is the outcome of reading and parsing the stored
   * prediction; `costExplorer` answers a cost query with the totals of its
   * periods, or with the error the call raises.
   */
  function Handle(stored: Result<real>, today: Date, costExplorer: CostQuery -> Result<seq<real>>): (r: Response<Status>)
    ensures r.statusCode == 200 || r.statusCode == 500
    ensures stored.Failure? ==> r == Response(500, LoadError(stored.error))
    ensures stored.Success? && FirstPeriod(costExplorer(YesterdayQuery(today))).Failure? ==>
              r == Response(500, FetchError(FirstPeriod(costExplorer(YesterdayQuery(today))).error))
    ensures r.statusCode == 200 <==> stored.Success? && FirstPeriod(costExplorer(YesterdayQuery(today))).Success?
    ensures r.statusCode == 200 ==>
              r.body.Report? &&
              r.body.predictedCost == stored.value &&
              r.body.actualCost == costExplorer(YesterdayQuery(today)).value[0] &&
              r.body.status == Status(r.body.actualCost > r.body.predictedCost * 1.3, r.body.predictedCost, r.body.actualCost)
  {
    match stored
    case Failure(e) => Response(500, LoadError(e))
    case Success(predicted) =>
      match FirstPeriod(costExplorer(YesterdayQuery(today)))
      case Failure(e) => Response(500, FetchError(e))
      case Success(actual) =>
        Response(200, Report(predicted, actual, Status(ExceedsForecast(predicted, actual), predicted, actual)))
  }

  /** A failed load returns before any cost is fetched: the cost service does not matter. */
  lemma LoadFailureIgnoresCostExplorer(stored: Result<real>, today: Date,
                                       ce: CostQuery -> Result<seq<real>>, ce': CostQuery -> Result<seq<real>>)
    requires stored.Failure?
    ensures Handle(stored, today, ce) == Handle(stored, today, ce')
  {
  }

  /** Only yesterday's DAILY unblended cost is consulted. */
  lemma OnlyYesterdayIsQueried(stored: Result<real>, today: Date,
                               ce: CostQuery -> Result<seq<real>>, ce': CostQuery -> Result<seq<real>>)
    requires ce(YesterdayQuery(today)) == ce'(YesterdayQuery(today))
    ensures Handle(stored, today, ce) == Handle(stored, today, ce')
  {
  }
}
