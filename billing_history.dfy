/**
 * The billing-history handler behind the dashboard: sixty days of daily
 * unblended cost as a list of `{date, cost}` entries, next to a fixed list
 * of usage figures.
 */
module BillingHistory {
  import opened Wrappers
  import opened Services

  /**
   * One period of a Cost Explorer response: its `TimePeriod.Start` and its
   * total `UnblendedCost.Amount` as `float` reads it, or the error that
   * reading it raises.
   */
  datatype CostItem = CostItem(start: string, amount: Result<real>)

  datatype BillingEntry = BillingEntry(date: string, cost: real)

  datatype UsageEntry = UsageEntry(service: string, usage: string, cost: string)

  /** The usage figures every response carries, whatever the costs. */
  const MockUsage: seq<UsageEntry> := [
    UsageEntry("Amazon EC2", "24 vCPU", "$120.50"),
    UsageEntry("Amazon S3", "150 GB", "$30.10"),
    UsageEntry("CloudWatch", "12 Alarms", "$12.80")
  ]

  /** The headers of a successful response: any origin may read it, and it is JSON. */
  const SuccessHeaders: map<string, string> :=
    map["Access-Control-Allow-Origin" := "*", "Content-Type" := "application/json"]

  datatype Body =
    | History(usage: seq<UsageEntry>, billing: seq<BillingEntry>)
    | Error(error: string)

  datatype Response = Response(statusCode: int, headers: map<string, string>, body: Body)

  /** The last sixty days, DAILY, from today - 60 up to today. */
  function HistoryQuery(today: Date): CostQuery
  {
    CostQuery(today - 60, today, Daily, UnblendedCost)
  }

  /** Every period before index k has a readable amount. */
  predicate ReadableUpTo(items: seq<CostItem>, k: int)
  {
    forall j :: 0 <= j < k && j < |items| ==> items[j].amount.Success?
  }

  /**
   * The handler.  `costExplorer` answers a cost query with its periods, or
   * with the error the call raises.
   */
  method Handle(today: Date, costExplorer: CostQuery -> Result<seq<CostItem>>) returns (r: Response)
    // A failed call: status 500, no headers, the error alone.
    ensures costExplorer(HistoryQuery(today)).Failure? ==>
              r == Response(500, map[], Error(costExplorer(HistoryQuery(today)).error))
    // An unreadable amount: status 500 with the error of the first one.
    ensures costExplorer(HistoryQuery(today)).Success? ==>
              var items := costExplorer(HistoryQuery(today)).value;
              (r.statusCode == 200 <==> ReadableUpTo(items, |items|)) &&
              (r.statusCode != 200 ==>
                 exists k :: 0 <= k < |items| && ReadableUpTo(items, k) && items[k].amount.Failure? &&
                   r == Response(500, map[], Error(items[k].amount.error)))
    // Success: one billing entry per period, in order, beside the fixed usage list.
    ensures r.statusCode == 200 ==>
              var items := costExplorer(HistoryQuery(today)).value;
              r.headers == SuccessHeaders && r.body.History? && r.body.usage == MockUsage &&
              |r.body.billing| == |items| &&
              forall j :: 0 <= j < |items| ==> r.body.billing[j] == BillingEntry(items[j].start, items[j].amount.value)
  {
    var endDate := today;
    var startDate := endDate - 60;
    var response := costExplorer(CostQuery(startDate, endDate, Daily, UnblendedCost));
    if response.Failure? {
      return Response(500, map[], Error(response.error));
    }
    var items := response.value;

    var billingData: seq<BillingEntry> := [];
    var i := 0;
    while i < |items|
      invariant 0 <= i <= |items|
      invariant ReadableUpTo(items, i)
      invariant |billingData| == i
      invariant forall j :: 0 <= j < i ==> billingData[j] == BillingEntry(items[j].start, items[j].amount.value)
    {
      var item := items[i];
      if item.amount.Failure? {
        return Response(500, map[], Error(item.amount.error));
      }
      billingData := billingData + [BillingEntry(item.start, item.amount.value)];
      i := i + 1;
    }

    r := Response(200, SuccessHeaders, History(MockUsage, billingData));
  }
}
