# CloudGuard360 cost monitoring, modelled in Dafny

CloudGuard360 watches the cost and usage of an AWS account. This project
models its core:

- **The forecast script** (`Forecast`, `Regression`, `Vectors`). It drops
  the days whose cost is not positive, sorts the rest by date and numbers
  them 0, 1, 2, …. It then fits a straight line of cost on day number by
  ordinary least squares and evaluates that line at the next day number.
- **Two anomaly checks**, which compare yesterday's actual cost with the
  stored forecast:
  - `CostMonitor` only reports the result;
  - `AiData` also publishes an SNS alert when the cost is anomalous.
- **The billing analyzer** (`BillingAnalyzer`). It compares the last two
  group amounts of yesterday's first hourly period against a percentage
  threshold.
- **The rules both kinds of check use** (`DeviationPolicy`), and how those
  rules differ.
- **The billing-history endpoint** (`BillingHistory`), which feeds the
  dashboard.
- **The two usage reports**: per S3 bucket (`S3Usage`) and per EC2 instance
  (`Ec2Usage`).

How the model treats AWS and the runtime:

- **AWS services** are not modelled. Each handler takes the services'
  answers as parameters: a function from query to result, or an error.
- **Requests a handler sends**, where the source sends them for their effect
  (S3 reads and writes, Cost Explorer queries, SNS publishes), are appended
  to a `Services.Log` by `AiData`, `BillingAnalyzer`, `S3Usage` and `Ec2Usage`.
  `CostMonitor.Handle` and `BillingHistory.Handle` keep no log: they are
  stated through the query they pass to their `costExplorer` argument
  (`CostMonitor.OnlyYesterdayIsQueried`, `BillingHistory.HistoryQuery`).
- **Exceptions that escape a handler** end the invocation as
  `Services.Invocation.Raised`.
- **Money and amounts** are reals.
- **Calendar days** are integers. The clock is a parameter: `today`, or the
  timestamp string.

### Where the behaviour is not what a reader might expect

The model follows the code, including these points:

- **The forecast does not deduplicate dates.** Two rows for the same day are
  both kept and numbered.
- **Day numbers ignore gaps between dates.** The series is only sorted into
  non-decreasing date order.
- **Rows that share a date are ordered by the input.** `sort_values('date')`
  uses an unstable sort, so their order, and with it the fitted line, is not
  fixed by the source; the model keeps their input order (see "## Left out").
  Where no two kept dates tie, every sort by date gives the same list
  (`Forecast.SortByDateUnique`), so the series is the source's.
- **A single positive day predicts its own cost** with slope 0.
- **No positive day at all makes the fit raise.** The forecast is then a
  failure.
- **A missing forecast file is not treated specially.** The anomaly checks
  answer status 500 with the loading error, as for any other failure.
- **Nothing is retried.**
- **The analyzer's input is the first period's `Groups` amounts.**
  `CloudGuard360-BillingAnalyzer.py` asks for no grouping, so AWS returns an
  empty `Groups` list and the handler answers "Not enough data". The model
  keeps the period's group amounts as an input, so that the comparison the
  code describes can be stated.

## Model

| member | source | states |
|---|---|---|
| Services.FirstPeriod | CloudGuard360/aws/lamda/cloudguard360-ai-data.py:41 | `ResultsByTime[0]` succeeds exactly when the call succeeded with at least one period, and then yields the first period; a failed call's error is passed on |
| DeviationPolicy.ExceedsForecastBoundary | CloudGuard360/aws/lamda/cloudguard360-ai-data.py:49-50 | a cost of exactly 1.3 times the forecast is normal; any cost above that is anomalous |
| DeviationPolicy.ExceedsForecastMonotone | CloudGuard360/aws/Terraform/lambda/cloud_cost_monitor.py:42-43 | raising the actual cost never turns an anomaly into a normal day |
| DeviationPolicy.ExceedsForecastExamples | CloudGuard360/aws/Terraform/lambda/cloud_cost_monitor.py:42-46 | 130 against a forecast of 100 is normal; 130.01 is anomalous |
| DeviationPolicy.ReachesThresholdAsRatio | CloudGuard360/aws/lamda/CloudGuard360-BillingAnalyzer.py:28-30 | over a positive previous value, the percentage rule alerts exactly when the current cost is at least the previous one times (1 + t/100) |
| DeviationPolicy.ZeroPreviousNeverAlerts | CloudGuard360/aws/lamda/CloudGuard360-BillingAnalyzer.py:28 | after a zero previous value the increase is 0, so a positive threshold never alerts |
| DeviationPolicy.ReachesThresholdExamples | CloudGuard360/aws/lamda/CloudGuard360-BillingAnalyzer.py:28-30 | 100 to 121 is +21% and alerts at 20%; +19% does not; exactly +20% does, because the comparison is `>=`; 0 to 50 gives 0% |
| DeviationPolicy.RulesDifferOnlyAtBoundary | CloudGuard360/aws/lamda/cloudguard360-ai-data.py:49-50 | for a positive forecast, "more than 1.3 times" matches "an increase of at least 30%" everywhere except at exactly 1.3 times, where only the percentage rule fires |
| DeviationPolicy.RulesDifferAtZero | CloudGuard360/aws/lamda/CloudGuard360-BillingAnalyzer.py:28 | over a zero baseline the rules disagree the other way: any positive cost exceeds a zero forecast, but the percentage rule reports no increase |
| DeviationPolicy.ExceedsForecast | CloudGuard360/aws/lamda/cloudguard360-ai-data.py:49-50 | the absolute rule `actual > predicted × 1.3`, strict; described by `ExceedsForecastBoundary`, `ExceedsForecastMonotone`, `ExceedsForecastExamples` and `RulesDifferOnlyAtBoundary` |
| DeviationPolicy.PercentIncrease | CloudGuard360/aws/lamda/CloudGuard360-BillingAnalyzer.py:28 | the percent increase from the previous to the current value, 0 over a zero previous value; described by `ReachesThresholdAsRatio`, `ZeroPreviousNeverAlerts` and `ReachesThresholdExamples` |
| DeviationPolicy.ReachesThreshold | CloudGuard360/aws/lamda/CloudGuard360-BillingAnalyzer.py:30 | the relative rule `increase >= threshold`; described by `ReachesThresholdAsRatio`, `RulesDifferOnlyAtBoundary` and `RulesDifferAtZero` |
| CostMonitor.Handle | CloudGuard360/aws/Terraform/lambda/cloud_cost_monitor.py:8-57 | status is 200 or 500. A load error gives 500 with the loading error. A fetch error gives 500 with the fetch error. 200 exactly when both steps succeed, and then the body carries the stored forecast, yesterday's first-period total and the anomaly verdict "actual > predicted × 1.3" |
| CostMonitor.LoadFailureIgnoresCostExplorer | CloudGuard360/aws/Terraform/lambda/cloud_cost_monitor.py:12-21 | when the forecast cannot be loaded, the handler returns before consulting Cost Explorer, so its answer does not matter |
| CostMonitor.OnlyYesterdayIsQueried | CloudGuard360/aws/Terraform/lambda/cloud_cost_monitor.py:23-35 | the result depends on Cost Explorer only through the DAILY unblended-cost query from yesterday to today |
| AiData.Handle | CloudGuard360/aws/lamda/cloudguard360-ai-data.py:12-81 | the stored forecast is read first. On a load error: status 500 and no further request. Otherwise yesterday's DAILY cost is queried once; a fetch error gives status 500 and no notification. With both costs known, exactly one SNS publish to the fixed topic and subject happens when the cost is anomalous, and none otherwise. An SNS error escapes the handler. Whatever it returns equals the cost monitor's answer, with the day added to the message |
| AiData.PublishedOnceIffAnomalous | CloudGuard360/aws/lamda/cloudguard360-ai-data.py:49-63 | a run that gets both costs adds exactly one notification to whatever the log held before if the cost is anomalous, and none otherwise |
| BillingAnalyzer.Configure | CloudGuard360/aws/lamda/CloudGuard360-BillingAnalyzer.py:8-9 | initialisation fails exactly when `SNS_TOPIC_ARN` is unset; the threshold is `THRESHOLD_PERCENT` when it is set, and 20 otherwise |
| BillingAnalyzer.Evaluate | CloudGuard360/aws/lamda/CloudGuard360-BillingAnalyzer.py:24-35 | fewer than two values means "not enough data". Otherwise it alerts exactly when the increase from the second-to-last to the last value reaches the threshold; the alert quotes that increase and both values, and the no-alert answer carries the increase |
| BillingAnalyzer.OnlyLastTwoCount | CloudGuard360/aws/lamda/CloudGuard360-BillingAnalyzer.py:27 | values before the last two never change the decision |
| BillingAnalyzer.DefaultThresholdExamples | CloudGuard360/aws/lamda/CloudGuard360-BillingAnalyzer.py:9-33 | under the default 20%: 100 to 121 alerts, 100 to 119 does not, 100 to 120 alerts, 0 to 50 does not, and a single value is not enough data |
| BillingAnalyzer.Handle | CloudGuard360/aws/lamda/CloudGuard360-BillingAnalyzer.py:11-35 | yesterday's HOURLY cost is queried once; a failed query or a missing first period escapes the handler. Otherwise the outcome is `Evaluate` of the first period's values. SNS is called, with the configured topic, once and only on an alert; its error escapes |
| BillingHistory.Handle | CloudGuard360/aws/lamda/CloudGuard360BillingHistoryFetcher.py:5-53 | the DAILY unblended cost of the 60 days before today is queried. A failed call gives status 500 with its error and no headers. Otherwise status 200 holds exactly when every period's amount is readable; if not, 500 carries the error of the first unreadable one. A 200 response has the CORS and JSON headers, the fixed usage list and one `{date, cost}` entry per period, in order |
| S3Usage.DatePart | CloudGuard360/aws/lamda/index.js:36 | the date part of an ISO timestamp is its longest prefix without 'T', and is followed by 'T' when shorter than the timestamp |
| S3Usage.Handle | CloudGuard360/aws/lamda/index.js:6-52 | a failed bucket listing gives the fixed failure message. Otherwise every bucket's objects are listed once, in order, and one report `Usage(buckets)` is written to the log bucket under `s3-usage-<date>.json`. It answers that key and the number of entries, or the failure message if the write fails |
| S3Usage.UsageFollowsListedBuckets | CloudGuard360/aws/lamda/index.js:12-34 | the report has one entry per bucket whose listing succeeded, in the given order; each entry counts that bucket's objects and reports their total size in GiB |
| S3Usage.FailedBucketSkipped | CloudGuard360/aws/lamda/index.js:17-27 | a bucket whose listing fails is left out, and the report is the same as if the bucket did not exist |
| S3Usage.UsageAppend | CloudGuard360/aws/lamda/index.js:12-34 | the report of a concatenation of bucket lists is the concatenation of their reports: buckets are reported independently |
| S3Usage.EmptyListingReportsZero | CloudGuard360/aws/lamda/index.js:19-24 | a listing without `Contents` reports 0 objects and 0 GiB |
| S3Usage.TotalSizeAppend | CloudGuard360/aws/lamda/index.js:20-23 | the accumulated size is additive over the objects |
| S3Usage.ReportKeyNamesDate | CloudGuard360/aws/lamda/index.js:36-37 | for a timestamp `<date>T<time>`, the report is written under `s3-usage-<date>.json` |
| S3Usage.Usage | CloudGuard360/aws/lamda/index.js:12-34 | the report the bucket loop builds; described by `UsageFollowsListedBuckets`, `FailedBucketSkipped` and `UsageAppend`, and tied to the loop by `S3Usage.Handle` |
| S3Usage.UsageOf | CloudGuard360/aws/lamda/index.js:19-33 | one bucket's entry: its object count and total size over 1024³; described by `EmptyListingReportsZero`, `TotalSizeAppend` and `UsageFollowsListedBuckets` |
| S3Usage.ReportKey | CloudGuard360/aws/lamda/index.js:36-37 | the report key `s3-usage-<date>.json`; described by `ReportKeyNamesDate` and the contract of `DatePart` |
| Ec2Usage.Flatten | CloudGuard360/aws/lamda/CloudGuard360-EC2Analyzer.py:14-22 | the records of all reservations' instances; described by `FlattenLength`, `FlattenAt` and `FlattenOfEmptyReservations`, and tied to the nested loops by `Ec2Usage.Handle` |
| Ec2Usage.ReportKey | CloudGuard360/aws/lamda/CloudGuard360-EC2Analyzer.py:25-26 | the report key `ec2-usage-<day>.json` for the given `%Y-%m-%d` day, used as the written key and the returned name in `Ec2Usage.Handle` |
| Ec2Usage.Handle | CloudGuard360/aws/lamda/CloudGuard360-EC2Analyzer.py:10-34 | instances are described once, and a failure escapes before anything is written. Otherwise the flattened records of all reservations are written to `ec2-usage-<day>.json` in the log bucket. It answers that key and the record count; a write error escapes |
| Ec2Usage.FlattenLength | CloudGuard360/aws/lamda/CloudGuard360-EC2Analyzer.py:34 | the count returned is the total number of instances over all reservations |
| Ec2Usage.FlattenAt | CloudGuard360/aws/lamda/CloudGuard360-EC2Analyzer.py:14-22 | instance j of reservation k is record number (instances before reservation k) + j, and it copies that instance's id, type, state and launch time |
| Ec2Usage.FlattenOfEmptyReservations | CloudGuard360/aws/lamda/CloudGuard360-EC2Analyzer.py:14-32 | reservations without instances yield an empty report, which is still written |
| Forecast.Active | CloudGuard360/aws/Forecasting/predict_billing_cost.py:16 | `df[df['cost'] > 0]`; described by `ActiveKeepsPositive`, `ActiveAllPositive`, `ActiveAppend` and `ActiveDropsMiddle` |
| Forecast.Indexed | CloudGuard360/aws/Forecasting/predict_billing_cost.py:19 | `day_index = range(len(df))`; described by `IndexedObservations` and `SeriesSortedAndIndexed` |
| Forecast.Series | CloudGuard360/aws/Forecasting/predict_billing_cost.py:16-19 | the cleaned, sorted and numbered series; described by `SeriesKeepsPositiveRows`, `SeriesSortedAndIndexed` and `SeriesEmptyIffNoPositiveCost` |
| Forecast.Predict | CloudGuard360/aws/Forecasting/predict_billing_cost.py:16-31 | the whole script: fails on an empty series, otherwise fits and predicts; described by `ForecastAtNextIndex`, `ForecastIsLeastSquares`, `ForecastOfLinearCosts` and `ForecastOfSingleRow` |
| Forecast.FitAndPredict | CloudGuard360/aws/Forecasting/predict_billing_cost.py:22-31 | fit on X = day index and y = cost, then predict at `len(df)`; described by `FitOfLinearRows`, `FitOfSingleRow`, `FitOfTwoDays` and `FitOfThreeDays` |
| Forecast.ActiveKeepsPositive | CloudGuard360/aws/Forecasting/predict_billing_cost.py:16 | `cost > 0` keeps each observation with a positive cost as many times as it occurs, and no other |
| Forecast.Insert | CloudGuard360/aws/Forecasting/predict_billing_cost.py:16 | inserting into a date-sorted list keeps it sorted and adds exactly that observation |
| Forecast.SortByDate | CloudGuard360/aws/Forecasting/predict_billing_cost.py:16 | `sort_values('date')` yields a date-sorted permutation of its input |
| Forecast.SortSorted | CloudGuard360/aws/Forecasting/predict_billing_cost.py:16 | sorting leaves data with strictly increasing dates as it is |
| Forecast.SortByDateUnique | CloudGuard360/aws/Forecasting/predict_billing_cost.py:16 | when the sorted result has no two equal dates, it is the only date-sorted permutation: any sort by date, stable or not, gives the same list |
| Forecast.InsertLatest | CloudGuard360/aws/Forecasting/predict_billing_cost.py:16 | an observation no earlier than all others goes last |
| Forecast.ActiveAllPositive | CloudGuard360/aws/Forecasting/predict_billing_cost.py:16 | data whose costs are all positive passes the filter unchanged |
| Forecast.ActiveAppend | CloudGuard360/aws/Forecasting/predict_billing_cost.py:16 | one more observation is kept exactly when its cost is positive |
| Forecast.ActiveDropsMiddle | CloudGuard360/aws/Forecasting/predict_billing_cost.py:16 | a zero-cost day between two positive ones is dropped |
| Forecast.IndexedObservations | CloudGuard360/aws/Forecasting/predict_billing_cost.py:19 | numbering the rows adds the day index and changes nothing else |
| Forecast.SeriesKeepsPositiveRows | CloudGuard360/aws/Forecasting/predict_billing_cost.py:16-19 | the cleaned series holds exactly the positive-cost observations, each as often as in the input: dates are not deduplicated |
| Forecast.SeriesSortedAndIndexed | CloudGuard360/aws/Forecasting/predict_billing_cost.py:16-19 | series rows are in non-decreasing date order, and row i has day index i whatever the gaps between dates |
| Forecast.SeriesEmptyIffNoPositiveCost | CloudGuard360/aws/Forecasting/predict_billing_cost.py:16 | the series is empty exactly when no observation has a positive cost |
| Forecast.CleanInputOnlyIndexed | CloudGuard360/aws/Forecasting/predict_billing_cost.py:16-19 | input with strictly increasing dates and positive costs is only numbered |
| Forecast.SeriesOfKept | CloudGuard360/aws/Forecasting/predict_billing_cost.py:16-19 | when what the filter keeps has strictly increasing dates, the series just numbers it |
| Forecast.FilterExample | CloudGuard360/aws/Forecasting/predict_billing_cost.py:16-19 | costs 5, 0, 7 on increasing dates become rows 0 and 1 with costs 5 and 7 |
| Forecast.ConsecutiveSeries | CloudGuard360/aws/Forecasting/predict_billing_cost.py:16-19 | positive costs on consecutive days are numbered in the order given |
| Forecast.ForecastAtNextIndex | CloudGuard360/aws/Forecasting/predict_billing_cost.py:30-31 | the forecast fails exactly when no cost is positive. Otherwise it evaluates the fitted line at `len(df)`, one past every day index in the series |
| Forecast.ForecastIsLeastSquares | CloudGuard360/aws/Forecasting/predict_billing_cost.py:26-27 | no straight line has a smaller sum of squared residuals over the series than the fitted one |
| Forecast.IndexSpreadPositive | CloudGuard360/aws/Forecasting/predict_billing_cost.py:19-22 | two or more day indexes 0, 1, … have a positive spread, so the slope is determined |
| Forecast.ForecastOfLinearCosts | CloudGuard360/aws/Forecasting/predict_billing_cost.py:26-31 | with two or more rows whose costs lie on a line a·i + b, the fit is that line and the forecast is a·n + b |
| Forecast.FitOfLinearRows | CloudGuard360/aws/Forecasting/predict_billing_cost.py:26-31 | fitting rows exactly on a line recovers that line and predicts its next value |
| Forecast.ForecastOfSingleRow | CloudGuard360/aws/Forecasting/predict_billing_cost.py:26-31 | one positive day gives slope 0 and forecasts that day's cost |
| Forecast.FitOfSingleRow | CloudGuard360/aws/Forecasting/predict_billing_cost.py:26-31 | fitting one row gives the flat line through its cost |
| Forecast.FitOfTwoDays | CloudGuard360/aws/Forecasting/predict_billing_cost.py:26-31 | two consecutive days b, a + b forecast 2a + b |
| Forecast.FitOfThreeDays | CloudGuard360/aws/Forecasting/predict_billing_cost.py:26-31 | three consecutive days on a line forecast 3a + b |
| Forecast.RisingExample | CloudGuard360/aws/Forecasting/predict_billing_cost.py:16-31 | costs 10, 12, 14 on three consecutive days forecast 16 at day index 3 with slope 2 |
| Forecast.FallingExample | CloudGuard360/aws/Forecasting/predict_billing_cost.py:30-31 | costs 10 then 4 forecast −2: the prediction is not clamped at zero |
| Regression.FitLine | CloudGuard360/aws/Forecasting/predict_billing_cost.py:26-27 | `LinearRegression().fit` as the closed-form least-squares line, slope 0 when x has no spread; described by `LeastSquares`, `NormalEquations`, `FitResidualsSumToZero`, `FitResidualsOrthogonal` and `FitOfExactLine` |
| Regression.DeviationsSumToZero | CloudGuard360/aws/Forecasting/predict_billing_cost.py:26-27 | deviations from the mean add up to zero |
| Regression.FitResidualsSumToZero | CloudGuard360/aws/Forecasting/predict_billing_cost.py:26-27 | the residuals of the fitted line with intercept add up to zero |
| Regression.FitResidualsOrthogonal | CloudGuard360/aws/Forecasting/predict_billing_cost.py:26-27 | the residuals of the fit are orthogonal to the centred regressor, including when the regressor has no spread |
| Regression.NormalEquations | CloudGuard360/aws/Forecasting/predict_billing_cost.py:26-27 | the fitted line satisfies both normal equations: residuals sum to zero and are orthogonal to x |
| Regression.NormalEquationsMinimise | CloudGuard360/aws/Forecasting/predict_billing_cost.py:26-27 | any line satisfying the normal equations has the least sum of squared errors; a line that ties agrees with it at every x |
| Regression.LeastSquares | CloudGuard360/aws/Forecasting/predict_billing_cost.py:26-27 | the closed-form fit minimises the sum of squared errors over all lines; a line with equal error predicts the same at every sample |
| Regression.SquaredErrorOfOtherLine | CloudGuard360/aws/Forecasting/predict_billing_cost.py:26-27 | the error of any other line is the fit's error plus a cross term plus the squared gap between the two lines |
| Regression.LinesAgreeWhereGapVanishes | CloudGuard360/aws/Forecasting/predict_billing_cost.py:26-27 | two lines whose gap is zero at every sample predict the same there |
| Regression.FitOfExactLine | CloudGuard360/aws/Forecasting/predict_billing_cost.py:26-27 | data lying exactly on a line, with spread in x, is fitted by that line |

## Left out

- Output to standard output and `console.error` are left out. This covers the forecast banner, the messages the anomaly checks print, and the error log of the S3 report. None of them affects a result.
- The forecast plot (matplotlib) is left out. It is display only.
- Text formatting is left out. That covers the f-string and `:.4f`/`:.2f` formatting, the emoji and the JSON serialisation of bodies. Messages are modelled as the branch taken plus the values they quote.
- `BillingHistory.Handle`: the `json.dumps` error body is modelled as the error alone.
- Reading `billing_data.json` and `pd.to_datetime` are left out. The forecast starts from a sequence of observations whose dates are already day numbers.
- The stored forecast is either a number or a load failure. A failing S3 read, UTF-8 decoding, JSON parsing or `predicted_cost` lookup is the load failure.
- A `predicted_cost` that is present but not a number (a string, null, a list) is not modelled. In the source the load then succeeds and Cost Explorer is queried. `predicted_cost * 1.3` then raises a TypeError outside any `try`, and it escapes the handler (CloudGuard360/aws/Terraform/lambda/cloud_cost_monitor.py:42, CloudGuard360/aws/lamda/cloudguard360-ai-data.py:49).
- Floating point is left out. Costs and the regression are exact reals. IEEE rounding and the numerical method sklearn uses are not modelled.
- `S3Usage.Handle`: `toFixed(2)` is left out. `TotalSizeGB` is the unrounded size in GiB.
- Constructing boto3 and AWS SDK clients is left out, and so are credentials, Cost Explorer pagination (`NextPageToken`) and retries. The services' answers are parameters.
- The clock is a parameter: `today`, the ISO timestamp of `new Date()`, or the `%Y-%m-%d` day string. The formatting of dates as strings (`str`, `isoformat`, `strftime`) is not modelled.
- The environment is a parameter. `BillingAnalyzer.Configure` receives the environment variables as optional values. A `THRESHOLD_PERCENT` that `float` cannot read is left out.
- `Forecast.SortByDate`: the row order `sort_values` gives to observations sharing a date is not claimed. Only the sorted order and the permutation are stated.
- `Forecast.Predict`: where two kept observations share a date, the model keeps them in input order (its insertion sort is stable). Pandas' default sort is not stable and may order them otherwise. Because the fit depends on that order, the model's series and forecast on such input are one of the results the source can give, not the only one. `Forecast.SortSorted`, `Forecast.CleanInputOnlyIndexed` and `Forecast.SeriesOfKept` therefore require strictly increasing dates, and `Forecast.SortByDateUnique` shows every sort agrees when dates do not tie.
- Missing keys inside a Cost Explorer period, such as `TimePeriod` or `Total`, are not modelled. The exception is the per-period amount that the billing-history loop reads.
- The dashboard and the Terraform deployment are not part of this model.
