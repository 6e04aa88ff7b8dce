/**
 * The distractions chart (src/features/dashboard/DistractionsChart.jsx):
 * distraction entries per day over the last seven days, with today's count,
 * the week's total and the rounded daily average.
 */
module DistractionsChart {
  import opened JsNumber
  import opened SessionData
  import opened DayBuckets

  datatype Summary = Summary(today: nat, weekly: nat, average: nat)

  /** The chart's buckets, its bar scale (`maxDistractions`) and the figures under it, for the week ending on day `today`. */
  method Chart(sessions: seq<Session>, today: int) returns (values: seq<nat>, maxDistractions: nat, summary: Summary)
    ensures values == Row(Distractions, sessions, today - 6, 7)
    ensures maxDistractions == MaxValue(values)
    ensures maxDistractions >= 1 && forall k :: 0 <= k < 7 ==> values[k] <= maxDistractions
    ensures summary.today == DayTotal(Distractions, sessions, today)
    ensures summary.weekly == SpanTotal(Distractions, sessions, today - 6, 7)
    ensures summary.average == DailyAverage(values)
    ensures (2 * summary.average - 1) * 7 <= 2 * summary.weekly < (2 * summary.average + 1) * 7
  {
    var days, buckets := BuildBuckets(Distractions, sessions, today);
    values := buckets[..];
    maxDistractions := MaxValue(values);
    WeeklyTotal(Distractions, sessions, today);
    summary := Summary(values[6], Total(values), DailyAverage(values));
  }
}
