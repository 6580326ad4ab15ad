/**
 * What the handlers see of the cloud services: calendar days, Cost Explorer
 * queries, the outcome of a whole Lambda invocation, and a log of the
 * requests a handler sends.  The services themselves are not modelled; their
 * responses are parameters of the handlers.
 */
module Services {
  import opened Wrappers

  /** A calendar day, counted in days from a fixed epoch. */
  type Date = int

  datatype Granularity = Daily | Hourly

  /** The `TimePeriod` (start inclusive, end exclusive), granularity and metric of a cost query. */
  datatype CostQuery = CostQuery(start: Date, end: Date, granularity: Granularity, metric: string)

  const UnblendedCost: string := "UnblendedCost"

  /**
   * How an invocation ends: it returns a value, or an exception escapes the
   * handler (the Lambda runtime then reports the invocation as failed).
   */
  datatype Invocation<+R> = Returned(value: R) | Raised(error: string)

  /**
   * `response['ResultsByTime'][0]`: the first period of a Cost Explorer
   * response, or the error that the call or the lookup raises.
   */
  function FirstPeriod<T>(response: Result<seq<T>>): (r: Result<T>)
    ensures r.Success? <==> response.Success? && |response.value| > 0
    ensures r.Success? ==> r.value == response.value[0]
    ensures response.Failure? ==> r == Failure(response.error)
  {
    match response
    case Failure(e) => Failure(e)
    case Success(periods) => if |periods| == 0 then Failure("list index out of range") else Success(periods[0])
  }

  /** The requests a handler has sent to the cloud services, oldest first. */
  class Log<E> {
    var entries: seq<E>

    constructor ()
      ensures entries == []
    {
      entries := [];
    }

    method Append(e: E)
      modifies this
      ensures entries == old(entries) + [e]
    {
      entries := entries + [e];
    }
  }
}
