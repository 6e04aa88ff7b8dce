/**
 * The seven-day bar charts of the dashboard (src/features/dashboard/FocusChart.jsx
 * and DistractionsChart.jsx): one bucket per calendar day, oldest first and
 * today last, each summing what the sessions dated that day contribute.
 * Days are day numbers (see `Calendar`); `today` is the day the chart is drawn.
 */
module DayBuckets {
  import opened Wrappers
  import opened JsNumber
  import opened SessionData
  import opened Calendar

  /** What a chart adds up: focus minutes or distraction entries. */
  datatype Measure = Minutes | Distractions

  /** What one session adds to its day's bucket, if it counts at all. The focus chart needs a truthy duration and a date and adds `Math.round(duration / 60)`; the distractions chart needs only a date and adds the entry count. */
  function Contribution(m: Measure, s: Session): (r: Option<nat>)
    ensures m == Minutes ==> (r.Some? <==> DurationOf(s) != 0 && s.date.Some?)
    ensures m == Minutes && r.Some? ==> 2 * r.value * 60 <= 2 * DurationOf(s) + 60 && 2 * DurationOf(s) < (2 * r.value + 1) * 60
    ensures m == Distractions ==> (r.Some? <==> s.date.Some?)
    ensures m == Distractions && r.Some? ==> r.value == |DistractionsOf(s)|
  {
    match m
    case Minutes => if DurationOf(s) != 0 && s.date.Some? then Some(RoundDiv(DurationOf(s), 60)) else None
    case Distractions => if s.date.Some? then Some(DistractionCount(s)) else None
  }

  /** What a session adds to the days `first .. first + n - 1` taken together. */
  function SpanAmount(m: Measure, s: Session, first: int, n: nat): nat {
    match Contribution(m, s)
    case Some(c) => if first <= DayOf(s.date.value) < first + n then c else 0
    case None => 0
  }

  lemma SpanOne(m: Measure, s: Session, day: int)
    ensures var c := Contribution(m, s);
      SpanAmount(m, s, day, 1) == if c.Some? && DayOf(s.date.value) == day then c.value else 0
  {
  }

  /** The total of one calendar day: every session dated that day, in list order. */
  function DayTotal(m: Measure, ss: seq<Session>, day: int): nat {
    if ss == [] then 0 else DayTotal(m, ss[..|ss| - 1], day) + SpanAmount(m, ss[|ss| - 1], day, 1)
  }

  /** The total over a span of days, counted session by session. */
  function SpanTotal(m: Measure, ss: seq<Session>, first: int, n: nat): nat {
    if ss == [] then 0 else SpanTotal(m, ss[..|ss| - 1], first, n) + SpanAmount(m, ss[|ss| - 1], first, n)
  }

  /** The buckets of `n` consecutive days from `first`. */
  function Row(m: Measure, ss: seq<Session>, first: int, n: nat): (r: seq<nat>)
    ensures |r| == n
    ensures forall k :: 0 <= k < n ==> r[k] == DayTotal(m, ss, first + k)
  {
    if n == 0 then [] else Row(m, ss, first, n - 1) + [DayTotal(m, ss, first + n - 1)]
  }

  /** `values.reduce((sum, v) => sum + v, 0)`. */
  function Total(values: seq<nat>): nat {
    if values == [] then 0 else Total(values[..|values| - 1]) + values[|values| - 1]
  }

  lemma {:induction false} RowEmpty(m: Measure, first: int, n: nat)
    ensures Total(Row(m, [], first, n)) == 0
  {
    if n > 0 {
      RowEmpty(m, first, n - 1);
      var r := Row(m, [], first, n);
      assert r[..n - 1] == Row(m, [], first, n - 1);
    }
  }

  /** One more session adds its span amount to the row's total. */
  lemma {:induction false} RowStep(m: Measure, ss: seq<Session>, s: Session, first: int, n: nat)
    ensures Total(Row(m, ss + [s], first, n)) == Total(Row(m, ss, first, n)) + SpanAmount(m, s, first, n)
  {
    if n > 0 {
      RowStep(m, ss, s, first, n - 1);
      var ss' := ss + [s];
      assert ss'[..|ss'| - 1] == ss;
      assert DayTotal(m, ss', first + n - 1) == DayTotal(m, ss, first + n - 1) + SpanAmount(m, s, first + n - 1, 1);
      var r', r := Row(m, ss', first, n), Row(m, ss, first, n);
      assert r'[..n - 1] == Row(m, ss', first, n - 1);
      assert r[..n - 1] == Row(m, ss, first, n - 1);
    }
  }

  /** The row's buckets add up to what every session in the span contributes: nothing is counted twice or lost. */
  lemma {:induction false} RowTotal(m: Measure, ss: seq<Session>, first: int, n: nat)
    ensures Total(Row(m, ss, first, n)) == SpanTotal(m, ss, first, n)
  {
    if ss == [] {
      RowEmpty(m, first, n);
    } else {
      var init := ss[..|ss| - 1];
      RowTotal(m, init, first, n);
      RowStep(m, init, ss[|ss| - 1], first, n);
      assert init + [ss[|ss| - 1]] == ss;
    }
  }

  /** `findIndex` over the bucket days: the first position holding `day`. */
  function FindIndex(days: seq<int>, day: int): (r: Option<nat>)
    ensures r.None? <==> day !in days
    ensures r.Some? ==> r.value < |days| && days[r.value] == day && forall j :: 0 <= j < r.value ==> days[j] != day
  {
    if days == [] then None
    else if days[0] == day then Some(0)
    else
      var r := FindIndex(days[1..], day);
      assert forall j :: 1 <= j < |days| ==> days[j] == days[1..][j - 1];
      if r.None? then None else Some(r.value + 1)
  }

  /** The chart data: the seven day numbers from `today - 6` to `today`, and each day's total. */
  method BuildBuckets(m: Measure, sessions: seq<Session>, today: int) returns (days: array<int>, values: array<nat>)
    ensures days.Length == 7 && forall k :: 0 <= k < 7 ==> days[k] == today - 6 + k
    ensures values[..] == Row(m, sessions, today - 6, 7)
  {
    days := new int[7];
    values := new nat[7];
    for j := 0 to 7
      invariant forall k :: 0 <= k < j ==> days[k] == today - 6 + k && values[k] == 0
    {
      var i := 6 - j;
      days[j] := today - i;
      values[j] := 0;
    }
    for i := 0 to |sessions|
      invariant forall k :: 0 <= k < 7 ==> days[k] == today - 6 + k
      invariant forall k :: 0 <= k < 7 ==> values[k] == DayTotal(m, sessions[..i], today - 6 + k)
    {
      var s := sessions[i];
      ghost var before := values[..];
      var c := Contribution(m, s);
      if c.Some? {
        var day := DayOf(s.date.value);
        var idx := FindIndex(days[..], day);
        if idx.Some? {
          var j := idx.value;
          assert j == day - (today - 6);
          values[j] := values[j] + c.value;
        }
        forall k | 0 <= k < 7
          ensures values[k] == before[k] + SpanAmount(m, s, today - 6 + k, 1)
        {
          SpanOne(m, s, today - 6 + k);
          assert days[..][k] == today - 6 + k;
        }
      } else {
        forall k | 0 <= k < 7
          ensures values[k] == before[k] + SpanAmount(m, s, today - 6 + k, 1)
        {
          SpanOne(m, s, today - 6 + k);
        }
      }
      assert sessions[..i + 1][..i] == sessions[..i];
    }
    assert sessions[..|sessions|] == sessions;
    assert forall k :: 0 <= k < 7 ==> values[..][k] == Row(m, sessions, today - 6, 7)[k];
  }

  /** The weekly total is everything the sessions of the last seven days contribute, and sessions outside them add nothing. */
  lemma WeeklyTotal(m: Measure, sessions: seq<Session>, today: int)
    ensures Total(Row(m, sessions, today - 6, 7)) == SpanTotal(m, sessions, today - 6, 7)
  {
    RowTotal(m, sessions, today - 6, 7);
  }

  /** `Math.max(...values, 1)`: at least 1 and at least every bucket. */
  function MaxValue(values: seq<nat>): (r: nat)
    ensures r >= 1 && forall k :: 0 <= k < |values| ==> values[k] <= r
    ensures r == 1 || r in values
  {
    if values == [] then 1
    else
      var r := MaxValue(values[..|values| - 1]);
      assert forall k :: 0 <= k < |values| - 1 ==> values[k] == values[..|values| - 1][k];
      if values[|values| - 1] > r then values[|values| - 1] else r
  }

  /** The daily average shown under both charts, `Math.round(total / 7)`. */
  function DailyAverage(values: seq<nat>): (r: nat)
    ensures (2 * r - 1) * 7 <= 2 * Total(values) < (2 * r + 1) * 7
  {
    RoundDiv(Total(values), 7)
  }
}
