/**
 * The duration texts the pipeline shows ("4s", "2m 5s", "1h 0m 3s", "2h 5m",
 * "00:02:05") and, as their partner, a reader for each form: every formatter
 * is proved to produce text that this reader turns back into the number it
 * was given, so the text loses nothing and its fields are in range.
 */
module DurationText {
  import opened Wrappers
  import opened Text
  import opened JsNumber

  /** A number followed by a unit text such as "m " or "s". */
  function ParseUnit(t: string, unit: string): Option<(nat, string)> {
    match ParseNat(t)
    case None => None
    case Some((n, rest)) =>
      match After(unit, rest)
      case None => None
      case Some(rest2) => Some((n, rest2))
  }

  /** Reads "Ys" or "Xm Ys" as a number of seconds. */
  function ParseMinSec(t: string): Option<nat> {
    match ParseUnit(t, "s")
    case Some((sec, rest)) => if rest == [] then Some(sec) else None
    case None =>
      match ParseUnit(t, "m ")
      case None => None
      case Some((min, rest)) =>
        match ParseUnit(rest, "s")
        case None => None
        case Some((sec, rest2)) => if rest2 == [] then Some(60 * min + sec) else None
  }

  /** Reads "Hh Mm Ss", "Mm Ss" or "Ss" as a number of seconds. */
  function ParseHms(t: string): Option<nat> {
    match ParseUnit(t, "h ")
    case Some((h, rest)) =>
      (match ParseMinSec(rest)
       case None => None
       case Some(sec) => Some(3600 * h + sec))
    case None => ParseMinSec(t)
  }

  /** Reads "Hh Mm" or "Mm" as a number of minutes. */
  function ParseHourMin(t: string): Option<nat> {
    match ParseUnit(t, "h ")
    case Some((h, rest)) =>
      (match ParseUnit(rest, "m")
       case Some((min, rest2)) => if rest2 == [] then Some(60 * h + min) else None
       case None => None)
    case None =>
      match ParseUnit(t, "m")
      case Some((min, rest)) => if rest == [] then Some(min) else None
      case None => None
  }

  /** Reads "H:M:S" (each field any number of digits) as a number of seconds. */
  function ParseClock(t: string): Option<nat> {
    match ParseUnit(t, ":")
    case None => None
    case Some((h, r1)) =>
      match ParseUnit(r1, ":")
      case None => None
      case Some((m, r2)) =>
        match ParseNat(r2)
        case Some((s, r3)) => if r3 == [] then Some(3600 * h + 60 * m + s) else None
        case None => None
  }

  /** `d` is a non-empty run of decimal digits whose value is `n`. */
  predicate Numeral(d: string, n: nat) {
    AllDigits(d) && |d| >= 1 && DigitsValue(d) == n
  }

  lemma NatToStringNumeral(n: nat)
    ensures Numeral(NatToString(n), n)
  {
    NatToStringValue(n);
  }

  /** A numeral followed by a unit that starts with a non-digit reads back as that number. */
  lemma ParseUnitOf(d: string, n: nat, unit: string, rest: string)
    requires Numeral(d, n)
    requires |unit| >= 1 && !IsDigit(unit[0])
    ensures ParseUnit(d + unit + rest, unit) == Some((n, rest))
  {
    assert d + unit + rest == d + (unit + rest);
    ParseDigits(d, n, unit + rest);
    AfterPrefix(unit, rest);
  }

  /** A numeral followed by a unit other than `unit` is not read as `unit`. */
  lemma ParseUnitOther(d: string, n: nat, u: string, rest: string, unit: string)
    requires Numeral(d, n)
    requires |u| >= 1 && |unit| >= 1 && !IsDigit(u[0]) && u[0] != unit[0]
    ensures ParseUnit(d + u + rest, unit) == None
  {
    assert d + u + rest == d + (u + rest);
    ParseDigits(d, n, u + rest);
  }

  /** The hours, minutes and seconds the formatters take from a number of seconds. */
  lemma SplitHms(total: nat)
    ensures var x := total % 3600;
      3600 * (total / 3600) + 60 * (x / 60) + total % 60 == total && x / 60 < 60 && total % 60 < 60
  {
    var q, x := total / 3600, total % 3600;
    assert total == 3600 * q + x;
    assert x == 60 * (x / 60) + x % 60;
    assert total % 60 == x % 60 by {
      assert total == 60 * (60 * q + x / 60) + x % 60;
    }
  }

  /** `r` is "Hh Mm Ss" for these three numbers. */
  predicate HmsShape(r: string, h: nat, m: nat, s: nat) {
    r == NatToString(h) + "h " + NatToString(m) + "m " + NatToString(s) + "s"
  }

  /** `r` is "Mm Ss" for these two numbers. */
  predicate MinSecShape(r: string, m: nat, s: nat) {
    r == NatToString(m) + "m " + NatToString(s) + "s"
  }

  /** `r` is "Ss" for this number. */
  predicate SecShape(r: string, s: nat) {
    r == NatToString(s) + "s"
  }

  /** Whole minutes and the seconds left over. */
  lemma MinutesOf(total: nat)
    ensures 60 * (total / 60) + total % 60 == total && total % 60 < 60
    ensures total / 60 > 0 <==> total >= 60
  {
  }

  /** From a minute on, the "Xm Ys" text reads back as the seconds and holds an 'm'. */
  lemma MinSecText(total: nat)
    requires total >= 60
    ensures var r := NatToString(total / 60) + "m " + NatToString(total % 60) + "s";
      ParseMinSec(r) == Some(total) && 'm' in r
  {
    var minutes, secs := total / 60, total % 60;
    var r := NatToString(minutes) + "m " + NatToString(secs) + "s";
    MinutesOf(total);
    MinSecRoundTrip(minutes, secs, total);
    assert r[|NatToString(minutes)|] == 'm';
  }

  /** Below a minute, the "Ys" text reads back as the seconds and holds no 'm'. */
  lemma SecText(total: nat)
    requires total < 60
    ensures var r := NatToString(total) + "s";
      ParseMinSec(r) == Some(total) && 'm' !in r
  {
    SecRoundTrip(total);
    assert forall i :: 0 <= i < |NatToString(total)| ==> IsDigit(NatToString(total)[i]);
  }

  /** "Ys" for fewer than 60 seconds, otherwise "Xm Ys": the text shared by the
      extension's notification, the dashboard's distraction entries and the
      most-distracting-site card. */
  function MinutesSeconds(total: nat): (r: string)
    ensures ParseMinSec(r) == Some(total)
    ensures total >= 60 <==> 'm' in r
    ensures total >= 60 ==> MinSecShape(r, total / 60, total % 60)
    ensures total < 60 ==> SecShape(r, total)
  {
    var minutes := total / 60;
    var secs := total % 60;
    MinutesOf(total);
    if minutes > 0 then
      MinSecText(total);
      NatToString(minutes) + "m " + NatToString(secs) + "s"
    else
      assert secs == total;
      SecText(secs);
      NatToString(secs) + "s"
  }

  /** A number of milliseconds rounded to whole seconds (`Math.round(ms / 1000)`) and written as "Xm Ys" or "Ys". */
  function RoundedMinSec(ms: nat): (r: string)
    ensures var secs := RoundDiv(ms, 1000);
      ParseMinSec(r) == Some(secs)
      && (secs >= 60 ==> MinSecShape(r, secs / 60, secs % 60))
      && (secs < 60 ==> SecShape(r, secs))
  {
    MinutesSeconds(RoundDiv(ms, 1000))
  }

  lemma EvalSec(t: string, secs: nat)
    requires ParseUnit(t, "s") == Some((secs, []))
    ensures ParseMinSec(t) == Some(secs)
  {
  }

  lemma SecOf(ds: string, secs: nat)
    requires Numeral(ds, secs)
    ensures ParseMinSec(ds + "s") == Some(secs)
  {
    var t := ds + "s";
    assert ParseUnit(t, "s") == Some((secs, [])) by {
      ParseUnitOf(ds, secs, "s", []);
      assert t + [] == t;
    }
    EvalSec(t, secs);
  }

  /** "Ys" reads back as its number of seconds. */
  lemma SecRoundTrip(secs: nat)
    ensures ParseMinSec(NatToString(secs) + "s") == Some(secs)
  {
    NatToStringNumeral(secs);
    SecOf(NatToString(secs), secs);
  }

  lemma EvalMinSec(t: string, minutes: nat, rest: string, secs: nat, total: nat)
    requires ParseUnit(t, "s") == None
    requires ParseUnit(t, "m ") == Some((minutes, rest))
    requires ParseUnit(rest, "s") == Some((secs, []))
    requires total == 60 * minutes + secs
    ensures ParseMinSec(t) == Some(total)
  {
  }

  lemma MinSecOf(dm: string, ds: string, minutes: nat, secs: nat, total: nat)
    requires Numeral(dm, minutes) && Numeral(ds, secs)
    requires total == 60 * minutes + secs
    ensures ParseMinSec(dm + "m " + ds + "s") == Some(total)
  {
    var rest := ds + "s";
    var t := dm + "m " + rest;
    assert dm + "m " + ds + "s" == t;
    assert ParseUnit(t, "s") == None by {
      ParseUnitOther(dm, minutes, "m ", rest, "s");
    }
    assert ParseUnit(t, "m ") == Some((minutes, rest)) by {
      ParseUnitOf(dm, minutes, "m ", rest);
    }
    assert ParseUnit(rest, "s") == Some((secs, [])) by {
      ParseUnitOf(ds, secs, "s", []);
      assert rest + [] == rest;
    }
    EvalMinSec(t, minutes, rest, secs, total);
  }

  /** "Xm Ys" reads back as its number of seconds. */
  lemma MinSecRoundTrip(minutes: nat, secs: nat, total: nat)
    requires total == 60 * minutes + secs
    ensures ParseMinSec(NatToString(minutes) + "m " + NatToString(secs) + "s") == Some(total)
  {
    NatToStringNumeral(minutes);
    NatToStringNumeral(secs);
    MinSecOf(NatToString(minutes), NatToString(secs), minutes, secs, total);
  }

  lemma EvalHms(t: string, h: nat, rest: string, sec: nat)
    requires ParseUnit(t, "h ") == Some((h, rest))
    requires ParseMinSec(rest) == Some(sec)
    ensures ParseHms(t) == Some(3600 * h + sec)
  {
  }

  lemma HoursThen(dh: string, h: nat, rest: string, sec: nat, total: nat)
    requires Numeral(dh, h) && ParseMinSec(rest) == Some(sec)
    requires total == 3600 * h + sec
    ensures ParseHms(dh + "h " + rest) == Some(total)
  {
    var t := dh + "h " + rest;
    assert ParseUnit(t, "h ") == Some((h, rest)) by {
      ParseUnitOf(dh, h, "h ", rest);
    }
    EvalHms(t, h, rest, sec);
  }

  lemma HmsOf(dh: string, dm: string, ds: string, h: nat, m: nat, s: nat, total: nat)
    requires Numeral(dh, h) && Numeral(dm, m) && Numeral(ds, s)
    requires total == 3600 * h + 60 * m + s
    ensures ParseHms(dh + "h " + dm + "m " + ds + "s") == Some(total)
  {
    var rest := dm + "m " + ds + "s";
    assert dh + "h " + dm + "m " + ds + "s" == dh + "h " + rest;
    MinSecOf(dm, ds, m, s, 60 * m + s);
    HoursThen(dh, h, rest, 60 * m + s, total);
  }

  /** "Hh Mm Ss" reads back as its number of seconds. */
  lemma HmsRoundTrip(h: nat, m: nat, s: nat, total: nat)
    requires total == 3600 * h + 60 * m + s
    ensures ParseHms(NatToString(h) + "h " + NatToString(m) + "m " + NatToString(s) + "s") == Some(total)
  {
    NatToStringNumeral(h);
    NatToStringNumeral(m);
    NatToStringNumeral(s);
    HmsOf(NatToString(h), NatToString(m), NatToString(s), h, m, s, total);
  }

  lemma EvalHmsShort(t: string, sec: nat)
    requires ParseUnit(t, "h ") == None
    requires ParseMinSec(t) == Some(sec)
    ensures ParseHms(t) == Some(sec)
  {
  }

  lemma MsOf(dm: string, ds: string, m: nat, s: nat, total: nat)
    requires Numeral(dm, m) && Numeral(ds, s)
    requires total == 60 * m + s
    ensures ParseHms(dm + "m " + ds + "s") == Some(total)
  {
    var rest := ds + "s";
    var t := dm + "m " + rest;
    assert dm + "m " + ds + "s" == t;
    assert ParseUnit(t, "h ") == None by {
      ParseUnitOther(dm, m, "m ", rest, "h ");
    }
    assert ParseMinSec(t) == Some(total) by {
      MinSecOf(dm, ds, m, s, total);
    }
    EvalHmsShort(t, total);
  }

  /** "Mm Ss" reads back as its number of seconds. */
  lemma MsRoundTrip(m: nat, s: nat, total: nat)
    requires total == 60 * m + s
    ensures ParseHms(NatToString(m) + "m " + NatToString(s) + "s") == Some(total)
  {
    NatToStringNumeral(m);
    NatToStringNumeral(s);
    MsOf(NatToString(m), NatToString(s), m, s, total);
  }

  lemma SOf(ds: string, s: nat)
    requires Numeral(ds, s)
    ensures ParseHms(ds + "s") == Some(s)
  {
    var t := ds + "s";
    assert ParseUnit(t, "h ") == None by {
      ParseUnitOther(ds, s, "s", [], "h ");
      assert t + [] == t;
    }
    assert ParseMinSec(t) == Some(s) by {
      SecOf(ds, s);
    }
    EvalHmsShort(t, s);
  }

  /** "Ss" reads back as its number of seconds. */
  lemma SRoundTrip(s: nat)
    ensures ParseHms(NatToString(s) + "s") == Some(s)
  {
    NatToStringNumeral(s);
    SOf(NatToString(s), s);
  }

  lemma EvalHourMin(t: string, h: nat, rest: string, m: nat, total: nat)
    requires ParseUnit(t, "h ") == Some((h, rest))
    requires ParseUnit(rest, "m") == Some((m, []))
    requires total == 60 * h + m
    ensures ParseHourMin(t) == Some(total)
  {
  }

  lemma HourMinOf(dh: string, dm: string, h: nat, m: nat, total: nat)
    requires Numeral(dh, h) && Numeral(dm, m)
    requires total == 60 * h + m
    ensures ParseHourMin(dh + "h " + dm + "m") == Some(total)
  {
    var rest := dm + "m";
    var t := dh + "h " + rest;
    assert dh + "h " + dm + "m" == t;
    assert ParseUnit(t, "h ") == Some((h, rest)) by {
      ParseUnitOf(dh, h, "h ", rest);
    }
    assert ParseUnit(rest, "m") == Some((m, [])) by {
      ParseUnitOf(dm, m, "m", []);
      assert rest + [] == rest;
    }
    EvalHourMin(t, h, rest, m, total);
  }

  /** "Hh Mm" reads back as its number of minutes. */
  lemma HourMinRoundTrip(h: nat, m: nat, total: nat)
    requires total == 60 * h + m
    ensures ParseHourMin(NatToString(h) + "h " + NatToString(m) + "m") == Some(total)
  {
    NatToStringNumeral(h);
    NatToStringNumeral(m);
    HourMinOf(NatToString(h), NatToString(m), h, m, total);
  }

  lemma EvalMin(t: string, m: nat)
    requires ParseUnit(t, "h ") == None
    requires ParseUnit(t, "m") == Some((m, []))
    ensures ParseHourMin(t) == Some(m)
  {
  }

  lemma MinOf(dm: string, m: nat)
    requires Numeral(dm, m)
    ensures ParseHourMin(dm + "m") == Some(m)
  {
    var t := dm + "m";
    assert ParseUnit(t, "h ") == None by {
      ParseUnitOther(dm, m, "m", [], "h ");
      assert t + [] == t;
    }
    assert ParseUnit(t, "m") == Some((m, [])) by {
      ParseUnitOf(dm, m, "m", []);
      assert t + [] == t;
    }
    EvalMin(t, m);
  }

  /** "Mm" reads back as its number of minutes. */
  lemma MinRoundTrip(m: nat)
    ensures ParseHourMin(NatToString(m) + "m") == Some(m)
  {
    NatToStringNumeral(m);
    MinOf(NatToString(m), m);
  }

  lemma EvalClock(t: string, h: nat, r1: string, m: nat, r2: string, s: nat, total: nat)
    requires ParseUnit(t, ":") == Some((h, r1))
    requires ParseUnit(r1, ":") == Some((m, r2))
    requires ParseNat(r2) == Some((s, []))
    requires total == 3600 * h + 60 * m + s
    ensures ParseClock(t) == Some(total)
  {
  }

  lemma ClockOf(dh: string, dm: string, ds: string, h: nat, m: nat, s: nat, total: nat)
    requires Numeral(dh, h) && Numeral(dm, m) && Numeral(ds, s)
    requires total == 3600 * h + 60 * m + s
    ensures ParseClock(dh + ":" + dm + ":" + ds) == Some(total)
  {
    var r1 := dm + ":" + ds;
    var t := dh + ":" + r1;
    assert dh + ":" + dm + ":" + ds == t;
    assert ParseUnit(t, ":") == Some((h, r1)) by {
      ParseUnitOf(dh, h, ":", r1);
    }
    assert ParseUnit(r1, ":") == Some((m, ds)) by {
      ParseUnitOf(dm, m, ":", ds);
    }
    assert ParseNat(ds) == Some((s, [])) by {
      ParseDigits(ds, s, []);
      assert ds + [] == ds;
    }
    EvalClock(t, h, r1, m, ds, s, total);
  }

  /** "HH:MM:SS" built from zero-padded fields reads back as its number of seconds. */
  lemma ClockRoundTrip(h: nat, m: nat, s: nat, total: nat)
    requires total == 3600 * h + 60 * m + s
    ensures ParseClock(Pad2(h) + ":" + Pad2(m) + ":" + Pad2(s)) == Some(total)
  {
    ClockOf(Pad2(h), Pad2(m), Pad2(s), h, m, s, total);
  }
}
