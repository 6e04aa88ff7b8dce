/**
 * The page of one session (src/features/dashboard/SessionDetails.jsx): the
 * session is looked up by the id in the route, its duration is written by an
 * inline copy of the card's formatter, and each distraction shows its
 * duration badge once it has one.
 */
module SessionDetails {
  import opened Wrappers
  import opened Text
  import opened JsNumber
  import opened DurationText
  import opened SessionData
  import opened SessionCard
  import opened Dashboard

  /** `sessions.find(s => (s._id || s.id) === id)`: the first session carrying the id, if any. */
  function FindById(sessions: seq<Session>, id: string): (r: Option<Session>)
    ensures r.None? <==> forall k :: 0 <= k < |sessions| ==> IdOf(sessions[k]) != Some(id)
    ensures r.Some? ==> exists k :: 0 <= k < |sessions| && sessions[k] == r.value && IdOf(sessions[k]) == Some(id)
                                    && forall j :: 0 <= j < k ==> IdOf(sessions[j]) != Some(id)
  {
    if sessions == [] then None
    else if IdOf(sessions[0]) == Some(id) then
      assert sessions[0] == sessions[0];
      Some(sessions[0])
    else
      var r := FindById(sessions[1..], id);
      assert forall k :: 1 <= k < |sessions| ==> sessions[k] == sessions[1..][k - 1];
      if r.Some? then
        var k :| 0 <= k < |sessions[1..]| && sessions[1..][k] == r.value && IdOf(sessions[1..][k]) == Some(id)
                  && forall j :: 0 <= j < k ==> IdOf(sessions[1..][j]) != Some(id);
        assert sessions[k + 1] == r.value;
        r
      else
        r
  }

  /** The card's link leads to its own session whenever no earlier session shares its id. */
  lemma LinkFindsCard(sessions: seq<Session>, k: nat)
    requires k < |sessions| && IdOf(sessions[k]).Some?
    requires forall j :: 0 <= j < k ==> IdOf(sessions[j]) != IdOf(sessions[k])
    ensures FindById(sessions, IdOf(sessions[k]).value) == Some(sessions[k])
  {
    var r := FindById(sessions, IdOf(sessions[k]).value);
    var k' :| 0 <= k' < |sessions| && sessions[k'] == r.value && IdOf(sessions[k']) == IdOf(sessions[k])
              && forall j :: 0 <= j < k' ==> IdOf(sessions[j]) != IdOf(sessions[k]);
    assert k' == k;
  }

  /** The inline duration text, `session.duration ? <split into h, m, s> : "0s"`: the page and the card write every duration, missing and zero ones included, the same way. */
  function InlineDuration(duration: Option<nat>): (r: string)
    ensures r == FormatDuration(duration)
  {
    if duration.Some? && duration.value != 0 then
      var totalSeconds := duration.value;
      var hours := totalSeconds / 3600;
      var mins := totalSeconds % 3600 / 60;
      var secs := totalSeconds % 60;
      if hours > 0 then
        NatToString(hours) + "h " + NatToString(mins) + "m " + NatToString(secs) + "s"
      else if mins > 0 then
        NatToString(mins) + "m " + NatToString(secs) + "s"
      else
        NatToString(secs) + "s"
    else
      "0s"
  }

  /** `session.warnings || 0`. */
  function WarningsShown(s: Session): (n: nat)
    ensures s.warnings.Some? ==> n == s.warnings.value
    ensures s.warnings.None? ==> n == 0
  {
    s.warnings.GetOr(0)
  }

  /** `distraction.duration && <badge>`: a badge only for a non-empty duration text. */
  function DurationBadge(d: Distraction): (badge: Option<string>)
    ensures badge.Some? <==> d.duration.Some? && d.duration.value != []
    ensures badge.Some? ==> badge.value == d.duration.value
  {
    if d.duration.Some? && d.duration.value != [] then d.duration else None
  }

  /** An entry the dashboard opened and never closed shows no badge; a closed one shows its rounded duration. */
  lemma BadgeOfEntries(siteName: string, timeText: string, now: int, durationMs: nat)
    ensures DurationBadge(OpenEntry(siteName, timeText, now)).None?
    ensures var c := Closed(OpenEntry(siteName, timeText, now), durationMs);
      DurationBadge(c) == Some(RoundedMinSec(durationMs))
      && ParseMinSec(DurationBadge(c).value) == Some(RoundDiv(durationMs, 1000))
  {
  }

  /** What the page shows: nothing but "not found" when no session has the id. */
  datatype Page = NotFound | Found(title: string, duration: string, warnings: nat, badges: seq<Option<string>>)

  function View(sessions: seq<Session>, id: string): (p: Page)
    ensures p.NotFound? <==> FindById(sessions, id).None?
    ensures p.Found? ==>
      var s := FindById(sessions, id).value;
      IdOf(s) == Some(id) && p.duration == FormatDuration(s.duration) && p.warnings == WarningsShown(s)
      && |p.badges| == |DistractionsOf(s)|
      && forall k :: 0 <= k < |p.badges| ==> p.badges[k] == DurationBadge(DistractionsOf(s)[k])
  {
    match FindById(sessions, id)
    case None => NotFound
    case Some(s) =>
      Found(s.title, InlineDuration(s.duration), WarningsShown(s),
            seq(|DistractionsOf(s)|, k requires 0 <= k < |DistractionsOf(s)| => DurationBadge(DistractionsOf(s)[k])))
  }
}
