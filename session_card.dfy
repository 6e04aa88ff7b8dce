/**
 * A session's summary card (src/features/dashboard/SessionCard.jsx): its
 * duration as "Hh Mm Ss", "Mm Ss" or "Ss", its distraction count, and the id
 * its link and delete button use.
 */
module SessionCard {
  import opened Wrappers
  import opened Text
  import opened DurationText
  import opened SessionData
  import opened SessionContext

  /** The three-way split behind `formatDuration`, on a whole number of seconds. */
  function FormatSeconds(t: nat): (r: string)
    ensures ParseHms(r) == Some(t)
    ensures var h, m, s := t / 3600, t % 3600 / 60, t % 60;
      m < 60 && s < 60
      && (h > 0 ==> HmsShape(r, h, m, s))
      && (h == 0 && m > 0 ==> MinSecShape(r, m, s))
      && (h == 0 && m == 0 ==> SecShape(r, s))
  {
    var hours := t / 3600;
    var mins := t % 3600 / 60;
    var secs := t % 60;
    assert 3600 * hours + 60 * mins + secs == t && mins < 60 && secs < 60 by {
      SplitHms(t);
    }
    if hours > 0 then
      var r := NatToString(hours) + "h " + NatToString(mins) + "m " + NatToString(secs) + "s";
      assert ParseHms(r) == Some(t) by {
        HmsRoundTrip(hours, mins, secs, t);
      }
      r
    else if mins > 0 then
      var r := NatToString(mins) + "m " + NatToString(secs) + "s";
      assert ParseHms(r) == Some(t) by {
        MsRoundTrip(mins, secs, t);
      }
      r
    else
      var r := NatToString(secs) + "s";
      assert ParseHms(r) == Some(t) by {
        SRoundTrip(secs);
      }
      r
  }

  /** `formatDuration(session.duration)`: a missing or zero duration is "0s", which is also what the split gives for 0. */
  function FormatDuration(seconds: Option<nat>): (r: string)
    ensures r == FormatSeconds(seconds.GetOr(0))
    ensures seconds.GetOr(0) == 0 ==> r == "0s"
  {
    if seconds.None? || seconds.value == 0 then
      assert NatToString(0) + "s" == "0s";
      "0s"
    else
      FormatSeconds(seconds.value)
  }

  /** The card's delete button: `deleteSession(session._id || session.id)` drops this session from the cache. */
  lemma DeleteFromCard(sessions: seq<Session>, card: Session)
    requires card in sessions && IdOf(card).Some?
    ensures card !in RemoveId(sessions, IdOf(card).value)
    ensures |RemoveId(sessions, IdOf(card).value)| < |sessions|
  {
    var id := IdOf(card).value;
    CountRemoved(sessions, id, card);
  }

  /** Dropping every session with an id removes at least one session when some session carries it. */
  lemma {:induction false} CountRemoved(sessions: seq<Session>, id: string, card: Session)
    requires card in sessions && IdOf(card) == Some(id)
    decreases |sessions|
    ensures |RemoveId(sessions, id)| < |sessions|
  {
    var init, last := sessions[..|sessions| - 1], sessions[|sessions| - 1];
    assert sessions == init + [last];
    if last != card {
      assert card in init;
      CountRemoved(init, id, card);
    }
  }
}
