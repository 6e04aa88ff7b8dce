/**
 * The profile page's analytics (src/features/profile/Analytics.jsx): the
 * sessions of this week, this month and all time, their statistics, the site
 * that took the most distraction time and the best focused session.
 */
module Analytics {
  import opened Wrappers
  import opened JsNumber
  import opened Text
  import opened DurationText
  import opened SessionData
  import opened Calendar

  datatype Stats = Stats(count: nat, total: nat, max: nat, avg: nat, distractions: nat)

  function EmptyStats(): Stats {
    Stats(0, 0, 0, 0, 0)
  }

  /** The sum of the durations, missing ones counted as 0. */
  function TotalDuration(list: seq<Session>): nat {
    if list == [] then 0 else TotalDuration(list[..|list| - 1]) + DurationOf(list[|list| - 1])
  }

  /** The sum of the distraction-list lengths, missing lists counted as 0. */
  function TotalDistractions(list: seq<Session>): nat {
    if list == [] then 0 else TotalDistractions(list[..|list| - 1]) + DistractionCount(list[|list| - 1])
  }

  /** The largest duration of a non-empty list, and 0 for the empty one. */
  function MaxDuration(list: seq<Session>): (m: nat)
    ensures forall i :: 0 <= i < |list| ==> DurationOf(list[i]) <= m
    ensures list == [] ==> m == 0
    ensures list != [] ==> exists i :: 0 <= i < |list| && DurationOf(list[i]) == m
  {
    if list == [] then 0
    else
      var m := MaxDuration(list[..|list| - 1]);
      var d := DurationOf(list[|list| - 1]);
      assert forall i :: 0 <= i < |list| - 1 ==> list[i] == list[..|list| - 1][i];
      if d > m then d else m
  }

  lemma {:induction false} MaxAtMostTotal(list: seq<Session>)
    ensures MaxDuration(list) <= TotalDuration(list)
  {
    if list != [] {
      MaxAtMostTotal(list[..|list| - 1]);
    }
  }

  lemma {:induction false} TotalAtMostCountTimesMax(list: seq<Session>)
    ensures TotalDuration(list) <= |list| * MaxDuration(list)
  {
    if list != [] {
      var p := list[..|list| - 1];
      var m := MaxDuration(list);
      assert TotalDuration(p) <= |p| * m by {
        TotalAtMostCountTimesMax(p);
        assert MaxDuration(p) <= m by {
          if p != [] {
            var i :| 0 <= i < |p| && DurationOf(p[i]) == MaxDuration(p);
            assert p[i] == list[i];
          }
        }
        MulLeftMonotone(|p|, MaxDuration(p), m);
      }
      assert DurationOf(list[|list| - 1]) <= m;
      assert |list| * m == |p| * m + m by {
        assert |list| == |p| + 1;
      }
    }
  }

  lemma MulLeftMonotone(c: nat, a: nat, b: nat)
    requires a <= b
    ensures c * a <= c * b
  {
  }

  /** `calculateStats`: the count, total, maximum, rounded mean and distraction count of a list. */
  function CalculateStats(list: seq<Session>): (r: Stats)
    ensures r.count == |list| && r.total == TotalDuration(list) && r.max == MaxDuration(list)
    ensures r.distractions == TotalDistractions(list)
    ensures list == [] ==> r == EmptyStats()
    ensures list != [] ==> (2 * r.avg - 1) * |list| <= 2 * r.total < (2 * r.avg + 1) * |list|
    ensures r.max <= r.total && r.avg <= r.max
  {
    var count := |list|;
    var total := TotalDuration(list);
    var max := MaxDuration(list);
    MaxAtMostTotal(list);
    if count == 0 then
      Stats(0, total, max, 0, TotalDistractions(list))
    else
      TotalAtMostCountTimesMax(list);
      RoundDivAtMost(total, count, max);
      Stats(count, total, max, RoundDiv(total, count), TotalDistractions(list))
  }

  /** The totals of a concatenation are the sums of the parts' totals, and its maximum the larger maximum. */
  lemma {:induction false} StatsAppend(a: seq<Session>, b: seq<Session>)
    ensures TotalDuration(a + b) == TotalDuration(a) + TotalDuration(b)
    ensures TotalDistractions(a + b) == TotalDistractions(a) + TotalDistractions(b)
    ensures MaxDuration(a + b) == if MaxDuration(a) >= MaxDuration(b) then MaxDuration(a) else MaxDuration(b)
  {
    if b == [] {
      assert a + b == a;
    } else {
      var b' := b[..|b| - 1];
      assert (a + b)[..|a + b| - 1] == a + b';
      StatsAppend(a, b');
    }
  }

  /** A session is in a window when it has a `startTime` or `date` at or after the window's start. */
  predicate InWindow(s: Session, start: int) {
    StampOf(s).Some? && StampOf(s).value >= start
  }

  /** The sessions of `list` that fall in the window starting at `start`, in their order. */
  function Window(list: seq<Session>, start: int): (w: seq<Session>)
    ensures |w| <= |list|
    ensures forall s :: s in w ==> s in list && InWindow(s, start)
    ensures forall s :: s in list && InWindow(s, start) ==> s in w
  {
    if list == [] then []
    else
      var p := list[..|list| - 1];
      var s := list[|list| - 1];
      assert list == p + [s];
      if InWindow(s, start) then Window(p, start) + [s] else Window(p, start)
  }

  /** Filtering keeps order: the window of a concatenation is the concatenation of the windows. */
  lemma {:induction false} WindowAppend(a: seq<Session>, b: seq<Session>, start: int)
    ensures Window(a + b, start) == Window(a, start) + Window(b, start)
  {
    if b == [] {
      assert a + b == a;
    } else {
      var b' := b[..|b| - 1];
      assert (a + b)[..|a + b| - 1] == a + b';
      WindowAppend(a, b', start);
    }
  }

  /** A later window lies inside an earlier one: the week's list is drawn from the month's when the week starts later. */
  lemma {:induction false} WindowNested(list: seq<Session>, early: int, late: int)
    requires early <= late
    ensures Window(Window(list, early), late) == Window(list, late)
  {
    if list != [] {
      var p := list[..|list| - 1];
      var s := list[|list| - 1];
      WindowNested(p, early, late);
      if InWindow(s, early) {
        WindowAppend(Window(p, early), [s], late);
      }
    }
  }

  /** The loop that pushes each dated session into the week and month lists. */
  method SplitWindows(sessions: seq<Session>, weekStart: int, monthStart: int)
    returns (weekList: seq<Session>, monthList: seq<Session>)
    ensures weekList == Window(sessions, weekStart)
    ensures monthList == Window(sessions, monthStart)
  {
    weekList, monthList := [], [];
    var i := 0;
    while i < |sessions|
      invariant 0 <= i <= |sessions|
      invariant weekList == Window(sessions[..i], weekStart)
      invariant monthList == Window(sessions[..i], monthStart)
    {
      var s := sessions[i];
      assert sessions[..i + 1][..i] == sessions[..i];
      var stamp := StampOf(s);
      if stamp.Some? {
        if stamp.value >= weekStart {
          weekList := weekList + [s];
        }
        if stamp.value >= monthStart {
          monthList := monthList + [s];
        }
      }
      i := i + 1;
    }
    assert sessions[..i] == sessions;
  }

  /** A reason's accumulated distraction time and number of entries. */
  datatype Tally = Tally(totalTime: nat, count: nat)

  /** The reasons in first-seen order with their tallies (the `siteData` object). */
  datatype Groups = Groups(keys: seq<string>, data: map<string, Tally>)

  datatype SiteTotal = SiteTotal(site: string, totalTime: nat, count: nat)

  /** Every distraction entry of every session that has a list, in order. */
  function Entries(sessions: seq<Session>): seq<Distraction> {
    if sessions == [] then []
    else Entries(sessions[..|sessions| - 1]) + DistractionsOf(sessions[|sessions| - 1])
  }

  /** The time of the entries whose reason is `k`. */
  function TimeFor(ds: seq<Distraction>, k: string): nat {
    if ds == [] then 0
    else TimeFor(ds[..|ds| - 1], k) + (if ReasonOf(ds[|ds| - 1]) == k then DistractionMs(ds[|ds| - 1]) else 0)
  }

  /** The number of entries whose reason is `k`. */
  function CountFor(ds: seq<Distraction>, k: string): nat {
    if ds == [] then 0
    else CountFor(ds[..|ds| - 1], k) + (if ReasonOf(ds[|ds| - 1]) == k then 1 else 0)
  }

  /** One step of the grouping loop: create the reason's tally if absent, then add the entry to it. */
  function AddEntry(g: Groups, d: Distraction): Groups {
    var k := ReasonOf(d);
    var g' := if k in g.data then g else Groups(g.keys + [k], g.data[k := Tally(0, 0)]);
    Groups(g'.keys, g'.data[k := Tally(g'.data[k].totalTime + DistractionMs(d), g'.data[k].count + 1)])
  }

  /** The grouping of a list of entries, one `AddEntry` step per entry in order. */
  function Group(ds: seq<Distraction>): Groups {
    if ds == [] then Groups([], map[]) else AddEntry(Group(ds[..|ds| - 1]), ds[|ds| - 1])
  }

  /** `g` holds each reason of `ds` once, in first-seen order, with that reason's time and count. */
  ghost predicate Grouping(g: Groups, ds: seq<Distraction>) {
    (forall k :: k in g.data <==> k in g.keys)
    && (forall i, j :: 0 <= i < j < |g.keys| ==> g.keys[i] != g.keys[j])
    && (forall k :: k in g.data ==> g.data[k] == Tally(TimeFor(ds, k), CountFor(ds, k)))
    && (forall k :: k !in g.data ==> CountFor(ds, k) == 0 && TimeFor(ds, k) == 0)
    && (g.keys == [] <==> ds == [])
  }

  lemma {:induction false} GroupCorrect(ds: seq<Distraction>)
    ensures Grouping(Group(ds), ds)
  {
    if ds != [] {
      var p := ds[..|ds| - 1];
      var d := ds[|ds| - 1];
      GroupCorrect(p);
      assert CountFor(ds, ReasonOf(d)) > 0;
    }
  }

  lemma GroupSnoc(xs: seq<Distraction>, d: Distraction)
    ensures Group(xs + [d]) == AddEntry(Group(xs), d)
  {
    assert (xs + [d])[..|xs|] == xs;
  }

  /** Entry `i` of `keys` has a positive total, beats every earlier key strictly and is not beaten by a later one. */
  predicate FirstStrictMax(keys: seq<string>, data: map<string, Tally>, i: int)
    requires forall j :: 0 <= j < |keys| ==> keys[j] in data
  {
    0 <= i < |keys| && data[keys[i]].totalTime > 0
    && (forall j :: 0 <= j < i ==> data[keys[j]].totalTime < data[keys[i]].totalTime)
    && (forall j :: i < j < |keys| ==> data[keys[j]].totalTime <= data[keys[i]].totalTime)
  }

  /** The selection loop: start from an empty site with 0 time and take each strictly larger total. */
  function Select(keys: seq<string>, data: map<string, Tally>): (r: SiteTotal)
    requires forall j :: 0 <= j < |keys| ==> keys[j] in data
    ensures (r == SiteTotal("", 0, 0) && forall j :: 0 <= j < |keys| ==> data[keys[j]].totalTime == 0)
            || exists i :: FirstStrictMax(keys, data, i)
                 && r == SiteTotal(keys[i], data[keys[i]].totalTime, data[keys[i]].count)
  {
    if keys == [] then SiteTotal("", 0, 0)
    else
      var p := keys[..|keys| - 1];
      var best := Select(p, data);
      var k := keys[|keys| - 1];
      assert forall j :: 0 <= j < |p| ==> p[j] == keys[j];
      if data[k].totalTime > best.totalTime then
        assert FirstStrictMax(keys, data, |keys| - 1);
        SiteTotal(k, data[k].totalTime, data[k].count)
      else if best == SiteTotal("", 0, 0) && forall j :: 0 <= j < |p| ==> data[p[j]].totalTime == 0 then
        best
      else
        var i :| FirstStrictMax(p, data, i) && best == SiteTotal(p[i], data[p[i]].totalTime, data[p[i]].count);
        assert FirstStrictMax(keys, data, i);
        best
  }

  /** The loop body's two in-place updates of `siteData` are one `AddEntry` step. */
  lemma AddEntryUpdate(keys0: seq<string>, data0: map<string, Tally>, d: Distraction,
                       keys: seq<string>, data1: map<string, Tally>, data: map<string, Tally>)
    requires var k := ReasonOf(d);
      keys == (if k in data0 then keys0 else keys0 + [k])
      && data1 == (if k in data0 then data0 else data0[k := Tally(0, 0)])
      && data == data1[k := Tally(data1[k].totalTime + DistractionMs(d), data1[k].count + 1)]
    ensures Groups(keys, data) == AddEntry(Groups(keys0, data0), d)
  {
  }

  lemma EntriesStep(sessions: seq<Session>, i: nat)
    requires i < |sessions|
    ensures Entries(sessions[..i + 1]) == Entries(sessions[..i]) + DistractionsOf(sessions[i])
  {
    assert sessions[..i + 1][..i] == sessions[..i];
  }

  lemma GroupStep(before: seq<Distraction>, ds: seq<Distraction>, j: nat)
    requires j < |ds|
    ensures Group(before + ds[..j + 1]) == AddEntry(Group(before + ds[..j]), ds[j])
  {
    assert before + ds[..j + 1] == (before + ds[..j]) + [ds[j]];
    GroupSnoc(before + ds[..j], ds[j]);
  }

  /** The nested loops that fill the `siteData` object from every session's entries. */
  method GroupEntries(sessions: seq<Session>) returns (keys: seq<string>, data: map<string, Tally>)
    ensures Groups(keys, data) == Group(Entries(sessions))
  {
    keys, data := [], map[];
    var i := 0;
    while i < |sessions|
      invariant 0 <= i <= |sessions|
      invariant Groups(keys, data) == Group(Entries(sessions[..i]))
    {
      var ds := DistractionsOf(sessions[i]);
      ghost var before := Entries(sessions[..i]);
      EntriesStep(sessions, i);
      var j := 0;
      assert before + ds[..0] == before;
      while j < |ds|
        invariant 0 <= j <= |ds|
        invariant Groups(keys, data) == Group(before + ds[..j])
      {
        var d := ds[j];
        ghost var keys0, data0 := keys, data;
        GroupStep(before, ds, j);
        var k := ReasonOf(d);
        if k !in data {
          keys := keys + [k];
          data := data[k := Tally(0, 0)];
        }
        ghost var data1 := data;
        data := data[k := Tally(data[k].totalTime + DistractionMs(d), data[k].count + 1)];
        AddEntryUpdate(keys0, data0, d, keys, data1, data);
        j := j + 1;
      }
      assert ds[..j] == ds;
      i := i + 1;
    }
    assert sessions[..i] == sessions;
  }

  /** `getMostDistractionSite`: group every entry by reason, then pick the first strictly largest total. */
  method GetMostDistractionSite(sessions: seq<Session>) returns (r: Option<SiteTotal>)
    ensures r.None? <==> Entries(sessions) == []
    ensures r.Some? ==> var g := Group(Entries(sessions));
      Grouping(g, Entries(sessions)) && r.value == Select(g.keys, g.data)
  {
    var keys, data := GroupEntries(sessions);
    GroupCorrect(Entries(sessions));
    if |keys| == 0 {
      return None;
    }
    var best := SiteTotal("", 0, 0);
    var n := 0;
    while n < |keys|
      invariant 0 <= n <= |keys|
      invariant best == Select(keys[..n], data)
    {
      var k := keys[n];
      assert keys[..n + 1][..n] == keys[..n];
      if data[k].totalTime > best.totalTime {
        best := SiteTotal(k, data[k].totalTime, data[k].count);
      }
      n := n + 1;
    }
    assert keys[..n] == keys;
    return Some(best);
  }

  /** The focus score scaled by 2000 so that it is a whole number: 2000 * duration, less 120000 per distraction, less the distraction milliseconds, and never below 0. */
  function FocusScore(s: Session): (score: nat)
    ensures score as real == 2000.0 * JsFocusScore(s)
  {
    var raw := 2000 * DurationOf(s) - 120000 * DistractionCount(s) - TotalMs(DistractionsOf(s));
    if raw > 0 then raw else 0
  }

  /** `calculateFocusScore` on exact numbers: duration less 60 per distraction less half the distraction seconds, at least 0. */
  ghost function JsFocusScore(s: Session): real {
    var totalDistractionTime := TotalMs(DistractionsOf(s)) as real / 1000.0;
    var score := DurationOf(s) as real - (DistractionCount(s) * 60) as real - totalDistractionTime * 0.5;
    if score >= 0.0 then score else 0.0
  }

  /** Session `k` has the greatest score and every earlier session a strictly smaller one. */
  ghost predicate FirstBest(sessions: seq<Session>, k: int) {
    0 <= k < |sessions|
    && (forall j :: 0 <= j < |sessions| ==> FocusScore(sessions[j]) <= FocusScore(sessions[k]))
    && (forall j :: 0 <= j < k ==> FocusScore(sessions[j]) < FocusScore(sessions[k]))
  }

  /** At most one position is the first best one. */
  lemma FirstBestUnique(sessions: seq<Session>, k1: int, k2: int)
    requires FirstBest(sessions, k1) && FirstBest(sessions, k2)
    ensures k1 == k2
  {
    assert FocusScore(sessions[k1]) == FocusScore(sessions[k2]);
  }

  /** `getBestSession`: the earliest session with the largest focus score, or none for an empty list. */
  method GetBestSession(sessions: seq<Session>) returns (r: Option<Session>)
    ensures r.None? <==> sessions == []
    ensures r.Some? ==> exists k :: FirstBest(sessions, k) && r.value == sessions[k]
  {
    if |sessions| == 0 {
      return None;
    }
    var best := 0;
    var bestScore := FocusScore(sessions[0]);
    var i := 0;
    while i < |sessions|
      invariant 0 <= i <= |sessions| && 0 <= best < |sessions| && (best < i || best == i == 0)
      invariant bestScore == FocusScore(sessions[best])
      invariant forall j :: 0 <= j < i ==> FocusScore(sessions[j]) <= bestScore
      invariant forall j :: 0 <= j < best ==> FocusScore(sessions[j]) < bestScore
    {
      var score := FocusScore(sessions[i]);
      if score > bestScore {
        bestScore := score;
        best := i;
      }
      i := i + 1;
    }
    assert FirstBest(sessions, best);
    return Some(sessions[best]);
  }

  /** `formatTime`: always "Hh Mm Ss", with minutes and seconds below 60, reading back as `seconds`. */
  function FormatTime(seconds: nat): (r: string)
    ensures ParseHms(r) == Some(seconds)
    ensures exists h: nat, m: nat, s: nat :: m < 60 && s < 60 && HmsShape(r, h, m, s)
  {
    var h := seconds / 3600;
    var m := seconds % 3600 / 60;
    var s := seconds % 60;
    var r := NatToString(h) + "h " + NatToString(m) + "m " + NatToString(s) + "s";
    assert 3600 * h + 60 * m + s == seconds && m < 60 && s < 60 by {
      SplitHms(seconds);
    }
    assert ParseHms(r) == Some(seconds) by {
      HmsRoundTrip(h, m, s, seconds);
    }
    assert HmsShape(r, h, m, s);
    r
  }

  datatype AnalyticsView = AnalyticsView(
    week: Stats,
    month: Stats,
    all: Stats,
    mostDistractionSite: Option<SiteTotal>,
    bestSession: Option<Session>)

  /** The whole computation for the sessions at instant `now`, whose day of the month is `dayOfMonth`. */
  method Analyze(sessions: Option<seq<Session>>, now: int, dayOfMonth: nat) returns (a: AnalyticsView)
    requires dayOfMonth >= 1
    ensures sessions.None? || sessions.value == [] ==>
      a == AnalyticsView(EmptyStats(), EmptyStats(), EmptyStats(), None, None)
    ensures sessions.Some? && sessions.value != [] ==>
      var ss := sessions.value;
      var today := DayOf(now);
      a.week == CalculateStats(Window(ss, StartOfDay(WeekStartDay(today))))
      && a.month == CalculateStats(Window(ss, StartOfDay(MonthStartDay(today, dayOfMonth))))
      && a.all == CalculateStats(ss)
      && a.bestSession.Some? && a.mostDistractionSite.None? == (Entries(ss) == [])
  {
    if sessions.None? || |sessions.value| == 0 {
      return AnalyticsView(EmptyStats(), EmptyStats(), EmptyStats(), None, None);
    }
    var ss := sessions.value;
    var today := DayOf(now);
    var weekList, monthList := SplitWindows(ss, StartOfDay(WeekStartDay(today)), StartOfDay(MonthStartDay(today, dayOfMonth)));
    var most := GetMostDistractionSite(ss);
    var best := GetBestSession(ss);
    return AnalyticsView(CalculateStats(weekList), CalculateStats(monthList), CalculateStats(ss), most, best);
  }
}
