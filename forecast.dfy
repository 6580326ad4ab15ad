/**
 * The forecast script: drop the days without cost, sort by date, number
 * the days 0, 1, 2, ... and fit a straight line of cost on day number;
 * the forecast is that line at the next day number.
 */
module Forecast {
  import opened Wrappers
  import opened Services
  import opened Vectors
  import opened Regression

  /** A row of the billing data file. */
  datatype Observation = Observation(date: Date, cost: real)

  /** A row of the cleaned series, with its day index. */
  datatype Row = Row(dayIndex: nat, date: Date, cost: real)

  /** The fitted line and its value at the next day index. */
  datatype Prediction = Prediction(nextDayIndex: nat, predictedCost: real, model: Line)

  /** `df[df['cost'] > 0]`: the observations with a positive cost, in input order, duplicates included. */
  function Active(observations: seq<Observation>): (kept: seq<Observation>)
    ensures |kept| <= |observations|
  {
    if |observations| == 0 then []
    else
      var init, last := observations[..|observations| - 1], observations[|observations| - 1];
      Active(init) + (if last.cost > 0.0 then [last] else [])
  }

  predicate SortedByDate(s: seq<Observation>)
  {
    forall i, j :: 0 <= i < j < |s| ==> s[i].date <= s[j].date
  }

  /** Dates strictly increase: sorted, and no two observations share a date. */
  predicate StrictlyByDate(s: seq<Observation>)
  {
    forall i, j :: 0 <= i < j < |s| ==> s[i].date < s[j].date
  }

  /** Insert an observation into a date-sorted list, after those of the same date. */
  function Insert(o: Observation, sorted: seq<Observation>): (r: seq<Observation>)
    requires SortedByDate(sorted)
    ensures SortedByDate(r)
    ensures multiset(r) == multiset(sorted) + multiset{o}
    ensures forall x :: x in r ==> x == o || x in sorted
  {
    if |sorted| == 0 then [o]
    else if o.date < sorted[0].date then [o] + sorted
    else
      var rest := Insert(o, sorted[1..]);
      assert sorted == [sorted[0]] + sorted[1..];
      PrependEarliest(sorted[0], rest);
      [sorted[0]] + rest
  }

  /** An observation no later than any of a sorted list can go in front of it. */
  lemma PrependEarliest(first: Observation, rest: seq<Observation>)
    requires SortedByDate(rest)
    requires forall x :: x in rest ==> first.date <= x.date
    ensures SortedByDate([first] + rest)
  {
    forall i, j | 0 <= i < j < |[first] + rest| ensures ([first] + rest)[i].date <= ([first] + rest)[j].date {
      if i > 0 {
        assert ([first] + rest)[i] == rest[i - 1];
      }
      assert ([first] + rest)[j] == rest[j - 1] && rest[j - 1] in rest;
    }
  }

  /**
   * `sort_values('date')`: the observations in non-decreasing date order.
   * Only the order and the contents are specified: the order of rows that
   * share a date is left open.
   */
  function SortByDate(observations: seq<Observation>): (sorted: seq<Observation>)
    ensures SortedByDate(sorted)
    ensures multiset(sorted) == multiset(observations)
  {
    if |observations| == 0 then []
    else
      var init, last := observations[..|observations| - 1], observations[|observations| - 1];
      assert observations == init + [last];
      Insert(last, SortByDate(init))
  }

  /** `df['day_index'] = range(len(df))` */
  function Indexed(sorted: seq<Observation>): seq<Row>
  {
    seq(|sorted|, i requires 0 <= i < |sorted| => Row(i, sorted[i].date, sorted[i].cost))
  }

  /** The cleaned series the line is fitted to. */
  function Series(observations: seq<Observation>): seq<Row>
  {
    Indexed(SortByDate(Active(observations)))
  }

  /** The rows without their index. */
  function Observations(rows: seq<Row>): seq<Observation>
  {
    seq(|rows|, i requires 0 <= i < |rows| => Observation(rows[i].date, rows[i].cost))
  }

  /** `X = df[['day_index']]` */
  function DayIndexes(rows: seq<Row>): seq<real>
  {
    seq(|rows|, i requires 0 <= i < |rows| => rows[i].dayIndex as real)
  }

  /** `y = df['cost']` */
  function Costs(rows: seq<Row>): seq<real>
  {
    seq(|rows|, i requires 0 <= i < |rows| => rows[i].cost)
  }

  /**
   * The fit and the prediction at `next_day_index = len(df)`.  Fitting no
   * rows at all raises; the predicted value is neither floored nor clamped.
   */
  function Predict(observations: seq<Observation>): Result<Prediction>
  {
    var rows := Series(observations);
    if |rows| == 0 then Failure("Found array with 0 sample(s) while a minimum of 1 is required")
    else Success(FitAndPredict(rows))
  }

  /** `model.fit(X, y)` and `model.predict([[len(df)]])` on a non-empty series. */
  function FitAndPredict(rows: seq<Row>): Prediction
    requires |rows| > 0
  {
    var model := FitLine(DayIndexes(rows), Costs(rows));
    Prediction(|rows|, model.At(|rows| as real), model)
  }

  // ---------------------------------------------------------------------
  // The cleaned series

  lemma IndexedObservations(sorted: seq<Observation>)
    ensures Observations(Indexed(sorted)) == sorted
  {
  }

  /** Filtering keeps every observation with a positive cost, as often as it occurs, and no other. */
  lemma {:induction false} ActiveKeepsPositive(observations: seq<Observation>)
    ensures forall o :: multiset(Active(observations))[o] == if o.cost > 0.0 then multiset(observations)[o] else 0
  {
    if |observations| > 0 {
      var init, last := observations[..|observations| - 1], observations[|observations| - 1];
      ActiveKeepsPositive(init);
      assert observations == init + [last];
    }
  }

  /**
   * The series holds exactly the observations with a positive cost, each as
   * often as it occurs in the input (no date is deduplicated).
   */
  lemma SeriesKeepsPositiveRows(observations: seq<Observation>)
    ensures |Series(observations)| <= |observations|
    ensures forall o :: multiset(Observations(Series(observations)))[o]
                     == if o.cost > 0.0 then multiset(observations)[o] else 0
    ensures forall i :: 0 <= i < |Series(observations)| ==> Series(observations)[i].cost > 0.0
  {
    var active := Active(observations);
    var sorted := SortByDate(active);
    ActiveKeepsPositive(observations);
    IndexedObservations(sorted);
    forall i | 0 <= i < |sorted| ensures sorted[i].cost > 0.0 {
      assert sorted[i] in multiset(sorted);
      assert multiset(active)[sorted[i]] > 0;
    }
  }

  /** Rows are in date order and row i has day index i, whatever the gaps between dates. */
  lemma SeriesSortedAndIndexed(observations: seq<Observation>)
    ensures forall i, j :: 0 <= i < j < |Series(observations)| ==>
              Series(observations)[i].date <= Series(observations)[j].date
    ensures forall i :: 0 <= i < |Series(observations)| ==> Series(observations)[i].dayIndex == i
  {
  }

  /** The series is empty exactly when no observation has a positive cost. */
  lemma SeriesEmptyIffNoPositiveCost(observations: seq<Observation>)
    ensures |Series(observations)| == 0 <==> forall o :: o in observations ==> o.cost <= 0.0
  {
    SeriesKeepsPositiveRows(observations);
    var rows := Series(observations);
    if o :| o in observations && o.cost > 0.0 {
      assert multiset(Observations(rows))[o] > 0;
    }
    if |rows| > 0 {
      var o := Observations(rows)[0];
      assert o in multiset(Observations(rows));
      assert o.cost > 0.0;
    }
  }

  /** An observation no earlier than every other goes last. */
  lemma {:induction false} InsertLatest(o: Observation, sorted: seq<Observation>)
    requires SortedByDate(sorted)
    requires forall i :: 0 <= i < |sorted| ==> sorted[i].date <= o.date
    ensures Insert(o, sorted) == sorted + [o]
  {
    if |sorted| > 0 {
      InsertLatest(o, sorted[1..]);
      assert sorted == [sorted[0]] + sorted[1..];
    }
  }

  /** Sorting leaves a list with strictly increasing dates as it is. */
  lemma {:induction false} SortSorted(observations: seq<Observation>)
    requires StrictlyByDate(observations)
    ensures SortByDate(observations) == observations
  {
    if |observations| > 0 {
      var init, last := observations[..|observations| - 1], observations[|observations| - 1];
      assert observations == init + [last];
      assert StrictlyByDate(init) && SortedByDate(init) by {
        forall i, j | 0 <= i < j < |init| ensures init[i].date < init[j].date {
          assert init[i] == observations[i] && init[j] == observations[j];
        }
      }
      SortSorted(init);
      InsertLatest(last, init);
    }
  }

  /**
   * Where no two dates tie there is only one date-sorted arrangement, so
   * any sort by date gives what this one gives.
   */
  lemma SortByDateUnique(observations: seq<Observation>, sorted: seq<Observation>)
    requires StrictlyByDate(sorted) && multiset(sorted) == multiset(observations)
    ensures SortByDate(observations) == sorted
  {
    SortedArrangementUnique(sorted, SortByDate(observations));
  }

  /** A date-sorted rearrangement of a list with strictly increasing dates is that list. */
  lemma {:induction false} SortedArrangementUnique(a: seq<Observation>, b: seq<Observation>)
    requires StrictlyByDate(a) && SortedByDate(b) && multiset(a) == multiset(b)
    ensures a == b
  {
    assert |a| == |multiset(a)| == |multiset(b)| == |b|;
    if |a| > 0 {
      assert a[0] in multiset(b) && b[0] in multiset(a);
      var k :| 0 <= k < |b| && b[k] == a[0];
      var j :| 0 <= j < |a| && a[j] == b[0];
      assert a[j].date <= a[0].date by {
        assert b[0].date <= b[k].date;
      }
      assert j == 0;
      TailsRearranged(a, b);
      SortedArrangementUnique(a[1..], b[1..]);
      assert a == [a[0]] + a[1..] && b == [b[0]] + b[1..];
    }
  }

  /** Two rearrangements of each other that start alike are rearrangements after the start too. */
  lemma TailsRearranged(a: seq<Observation>, b: seq<Observation>)
    requires |a| > 0 && |b| > 0 && a[0] == b[0] && multiset(a) == multiset(b)
    ensures multiset(a[1..]) == multiset(b[1..])
  {
    assert a == [a[0]] + a[1..] && b == [b[0]] + b[1..];
    var x := multiset{a[0]};
    assert x + multiset(a[1..]) == x + multiset(b[1..]);
    forall o ensures multiset(a[1..])[o] == multiset(b[1..])[o] {
      assert (x + multiset(a[1..]))[o] == (x + multiset(b[1..]))[o];
    }
  }

  /** Filtering keeps an input whose costs are all positive as it is. */
  lemma {:induction false} ActiveAllPositive(observations: seq<Observation>)
    requires forall i :: 0 <= i < |observations| ==> observations[i].cost > 0.0
    ensures Active(observations) == observations
  {
    if |observations| > 0 {
      var init, last := observations[..|observations| - 1], observations[|observations| - 1];
      assert observations == init + [last];
      assert Active(observations) == Active(init) + [last];
      ActiveAllPositive(init);
    }
  }

  /** An input with strictly increasing dates and positive costs is only numbered. */
  lemma CleanInputOnlyIndexed(observations: seq<Observation>)
    requires StrictlyByDate(observations)
    requires forall i :: 0 <= i < |observations| ==> observations[i].cost > 0.0
    ensures Series(observations) == Indexed(observations)
  {
    ActiveAllPositive(observations);
    SortSorted(observations);
  }

  // ---------------------------------------------------------------------
  // The forecast

  /**
   * The forecast fails only when no observation has a positive cost;
   * otherwise it predicts at one past the last day index, n, the number of
   * rows fitted.
   */
  lemma ForecastAtNextIndex(observations: seq<Observation>)
    ensures Predict(observations).Failure? <==> forall o :: o in observations ==> o.cost <= 0.0
    ensures Predict(observations).Success? ==>
              var p := Predict(observations).value;
              var n := |Series(observations)|;
              p.nextDayIndex == n &&
              (forall i :: 0 <= i < n ==> Series(observations)[i].dayIndex < p.nextDayIndex) &&
              p.predictedCost == p.model.At(n as real)
  {
    SeriesEmptyIffNoPositiveCost(observations);
  }

  /** No straight line fits the series with a smaller sum of squared residuals. */
  lemma ForecastIsLeastSquares(observations: seq<Observation>, other: Line)
    requires Predict(observations).Success?
    ensures var rows := Series(observations);
            SquaredError(DayIndexes(rows), Costs(rows), Predict(observations).value.model)
              <= SquaredError(DayIndexes(rows), Costs(rows), other)
  {
    var rows := Series(observations);
    LeastSquares(DayIndexes(rows), Costs(rows), other);
  }

  /** Two or more distinct day indexes have a positive spread. */
  lemma IndexSpreadPositive(rows: seq<Row>)
    requires |rows| >= 2
    requires forall i :: 0 <= i < |rows| ==> rows[i].dayIndex == i
    ensures Spread(DayIndexes(rows)) > 0.0
  {
    var xs := DayIndexes(rows);
    var dx := Deviations(xs, Mean(xs));
    assert dx[1] - dx[0] == 1.0;
    if dx[0] != 0.0 {
      SquareSumPositive(dx, 0);
    } else {
      SquareSumPositive(dx, 1);
    }
  }

  /**
   * Costs on a straight line over the day index are forecast on that line:
   * with two or more rows the fit recovers the line exactly.
   */
  lemma ForecastOfLinearCosts(observations: seq<Observation>, rows: seq<Row>, a: real, b: real)
    requires rows == Series(observations) && |rows| >= 2
    requires forall i :: 0 <= i < |rows| ==> rows[i].cost == a * i as real + b
    ensures Predict(observations) == Success(Prediction(|rows|, a * |rows| as real + b, Line(a, b)))
  {
    SeriesSortedAndIndexed(observations);
    FitOfLinearRows(rows, a, b);
  }

  lemma FitOfLinearRows(rows: seq<Row>, a: real, b: real)
    requires |rows| >= 2
    requires forall i :: 0 <= i < |rows| ==> rows[i].dayIndex == i && rows[i].cost == a * i as real + b
    ensures FitAndPredict(rows) == Prediction(|rows|, a * |rows| as real + b, Line(a, b))
  {
    IndexSpreadPositive(rows);
    assert Costs(rows) == Affine(DayIndexes(rows), a, b) by {
      forall i | 0 <= i < |rows| ensures Costs(rows)[i] == Affine(DayIndexes(rows), a, b)[i] {
        assert DayIndexes(rows)[i] == i as real;
      }
    }
    FitOfExactLine(DayIndexes(rows), a, b);
  }

  /** With a single row there is no trend: the slope is zero and the forecast repeats the cost. */
  lemma ForecastOfSingleRow(observations: seq<Observation>)
    requires |Series(observations)| == 1
    ensures Predict(observations) == Success(Prediction(1, Series(observations)[0].cost, Line(0.0, Series(observations)[0].cost)))
  {
    SeriesSortedAndIndexed(observations);
    FitOfSingleRow(Series(observations));
  }

  lemma FitOfSingleRow(rows: seq<Row>)
    requires |rows| == 1 && rows[0].dayIndex == 0
    ensures FitAndPredict(rows) == Prediction(1, rows[0].cost, Line(0.0, rows[0].cost))
  {
    var xs, ys := DayIndexes(rows), Costs(rows);
    assert xs == [0.0] && xs[1..] == [];
    assert ys == [rows[0].cost] && ys[1..] == [];
    assert Sum(xs) == 0.0;
    assert Mean(xs) == 0.0 / 1.0 == 0.0;
    assert Sum(ys) == rows[0].cost && Mean(ys) == rows[0].cost;
    var dx := Deviations(xs, 0.0);
    assert dx == [0.0] && dx[1..] == [];
    assert Deviations(xs, Mean(xs)) == dx;
    assert Dot(dx, dx) == 0.0;
    assert Spread(xs) == 0.0;
  }

  // ---------------------------------------------------------------------
  // Examples

  /** A zero-cost day is dropped and the remaining days are numbered 0 and 1. */
  lemma FilterExample(d1: Date, d2: Date, d3: Date)
    requires d1 < d3
    ensures Series([Observation(d1, 5.0), Observation(d2, 0.0), Observation(d3, 7.0)])
         == [Row(0, d1, 5.0), Row(1, d3, 7.0)]
  {
    var o1, o2, o3 := Observation(d1, 5.0), Observation(d2, 0.0), Observation(d3, 7.0);
    ActiveDropsMiddle(o1, o2, o3);
    assert StrictlyByDate([o1, o3]);
    SeriesOfKept([o1, o2, o3], [o1, o3]);
    assert Indexed([o1, o3]) == [Row(0, d1, 5.0), Row(1, d3, 7.0)];
  }

  /** When what filtering keeps has strictly increasing dates, the series only numbers it. */
  lemma SeriesOfKept(observations: seq<Observation>, kept: seq<Observation>)
    requires Active(observations) == kept && StrictlyByDate(kept)
    ensures Series(observations) == Indexed(kept)
  {
    SortSorted(kept);
  }

  /** Filtering one more observation keeps it exactly when its cost is positive. */
  lemma ActiveAppend(observations: seq<Observation>, o: Observation)
    ensures Active(observations + [o]) == Active(observations) + (if o.cost > 0.0 then [o] else [])
  {
    assert (observations + [o])[..|observations|] == observations;
  }

  lemma ActiveDropsMiddle(o1: Observation, o2: Observation, o3: Observation)
    requires o1.cost > 0.0 && o2.cost <= 0.0 && o3.cost > 0.0
    ensures Active([o1, o2, o3]) == [o1, o3]
  {
    assert [] + [o1] == [o1] && [o1] + [o2] == [o1, o2] && [o1, o2] + [o3] == [o1, o2, o3];
    ActiveAppend([], o1);
    ActiveAppend([o1], o2);
    ActiveAppend([o1, o2], o3);
  }

  /** One observation per day from day d on, with the given costs. */
  function Consecutive(d: Date, costs: seq<real>): seq<Observation>
  {
    seq(|costs|, i requires 0 <= i < |costs| => Observation(d + i, costs[i]))
  }

  /** The rows numbering one cost per day from day d on. */
  function ConsecutiveRows(d: Date, costs: seq<real>): seq<Row>
  {
    seq(|costs|, i requires 0 <= i < |costs| => Row(i, d + i, costs[i]))
  }

  /** Positive costs on consecutive days are numbered as given. */
  lemma ConsecutiveSeries(d: Date, costs: seq<real>)
    requires forall i :: 0 <= i < |costs| ==> costs[i] > 0.0
    ensures Series(Consecutive(d, costs)) == ConsecutiveRows(d, costs)
  {
    var obs := Consecutive(d, costs);
    assert StrictlyByDate(obs);
    CleanInputOnlyIndexed(obs);
    var rows := Indexed(obs);
    assert forall i :: 0 <= i < |rows| ==> rows[i] == ConsecutiveRows(d, costs)[i];
  }

  /** Two days on a line are fitted by that line. */
  lemma FitOfTwoDays(d: Date, a: real, b: real)
    ensures FitAndPredict(ConsecutiveRows(d, [b, a + b])) == Prediction(2, 2.0 * a + b, Line(a, b))
  {
    var rows := ConsecutiveRows(d, [b, a + b]);
    forall i | 0 <= i < |rows| ensures rows[i].dayIndex == i && rows[i].cost == a * i as real + b {
      if i == 0 {} else {}
    }
    FitOfLinearRows(rows, a, b);
  }

  /** Three days on a line are fitted by that line. */
  lemma FitOfThreeDays(d: Date, a: real, b: real)
    ensures FitAndPredict(ConsecutiveRows(d, [b, a + b, 2.0 * a + b])) == Prediction(3, 3.0 * a + b, Line(a, b))
  {
    var rows := ConsecutiveRows(d, [b, a + b, 2.0 * a + b]);
    forall i | 0 <= i < |rows| ensures rows[i].dayIndex == i && rows[i].cost == a * i as real + b {
      if i == 0 {} else if i == 1 {} else {}
    }
    FitOfLinearRows(rows, a, b);
  }

  /** Costs 10, 12, 14 on three consecutive days forecast 16 for day index 3. */
  lemma RisingExample(d: Date)
    ensures Predict([Observation(d, 10.0), Observation(d + 1, 12.0), Observation(d + 2, 14.0)])
         == Success(Prediction(3, 16.0, Line(2.0, 10.0)))
  {
    var costs := [10.0, 12.0, 14.0];
    assert Consecutive(d, costs) == [Observation(d, 10.0), Observation(d + 1, 12.0), Observation(d + 2, 14.0)];
    ConsecutiveSeries(d, costs);
    FitOfThreeDays(d, 2.0, 10.0);
  }

  /** A falling trend is extrapolated below zero: 10 then 4 forecasts -2. */
  lemma FallingExample(d: Date)
    ensures Predict([Observation(d, 10.0), Observation(d + 1, 4.0)])
         == Success(Prediction(2, -2.0, Line(-6.0, 10.0)))
  {
    var costs := [10.0, 4.0];
    assert Consecutive(d, costs) == [Observation(d, 10.0), Observation(d + 1, 4.0)];
    ConsecutiveSeries(d, costs);
    FitOfTwoDays(d, -6.0, 10.0);
  }
}
