/**
 * The focus-time chart (src/features/dashboard/FocusChart.jsx): minutes per
 * day over the last seven days, with today's, the week's and the daily
 * average's minutes written as "Hh Mm" or "Mm".
 */
module FocusChart {
  import opened Wrappers
  import opened Text
  import opened DurationText
  import opened SessionData
  import opened DayBuckets

  /** `formatMinutes`: "Hh Mm" from one hour on, "Mm" below it. */
  function FormatMinutes(minutes: nat): (r: string)
    ensures ParseHourMin(r) == Some(minutes)
    ensures minutes >= 60 <==> 'h' in r
    ensures minutes >= 60 ==> r == NatToString(minutes / 60) + "h " + NatToString(minutes % 60) + "m"
    ensures minutes < 60 ==> r == NatToString(minutes) + "m"
  {
    var hours := minutes / 60;
    var mins := minutes % 60;
    if hours > 0 then
      HourMinRoundTrip(hours, mins, minutes);
      assert (NatToString(hours) + "h " + NatToString(mins) + "m")[|NatToString(hours)|] == 'h';
      NatToString(hours) + "h " + NatToString(mins) + "m"
    else
      MinRoundTrip(mins);
      assert 'h' !in NatToString(mins) + "m" by {
        assert forall i :: 0 <= i < |NatToString(mins)| ==> IsDigit(NatToString(mins)[i]);
      }
      NatToString(mins) + "m"
  }

  /** The three figures under the chart, as text. */
  datatype Summary = Summary(today: string, weekly: string, average: string)

  /** The chart's buckets, its bar scale (`maxMinutes`) and the figures under it, for the week ending on day `today`. */
  method Chart(sessions: seq<Session>, today: int) returns (values: seq<nat>, maxMinutes: nat, summary: Summary)
    ensures values == Row(Minutes, sessions, today - 6, 7)
    ensures maxMinutes == MaxValue(values)
    ensures maxMinutes >= 1 && forall k :: 0 <= k < 7 ==> values[k] <= maxMinutes
    ensures summary == Summary(FormatMinutes(DayTotal(Minutes, sessions, today)),
                               FormatMinutes(SpanTotal(Minutes, sessions, today - 6, 7)),
                               FormatMinutes(DailyAverage(values)))
    ensures ParseHourMin(summary.today) == Some(DayTotal(Minutes, sessions, today))
    ensures ParseHourMin(summary.weekly) == Some(SpanTotal(Minutes, sessions, today - 6, 7))
    ensures ParseHourMin(summary.average) == Some(DailyAverage(values))
  {
    var days, buckets := BuildBuckets(Minutes, sessions, today);
    values := buckets[..];
    maxMinutes := MaxValue(values);
    WeeklyTotal(Minutes, sessions, today);
    summary := Summary(FormatMinutes(values[6]), FormatMinutes(Total(values)), FormatMinutes(DailyAverage(values)));
  }
}
