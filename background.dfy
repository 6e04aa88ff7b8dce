/**
 * The browser extension's background script (public/chrome-extension/background.js):
 * its own table of distracting sites, the site name shown in a warning, and
 * the warning throttle over `lastWarningTime`, `totalWarnings` and the
 * per-tab activation times. Chrome's notifications, tab queries and message
 * passing are left out; the alert a call would send is its result.
 */
module Background {
  import opened Wrappers
  import opened Text
  import opened JsNumber
  import opened DurationText
  import SiteDetection

  /** A tab's URL: its text and the hostname `new URL(text)` yields, or `None` when that constructor throws. */
  datatype Url = Url(text: string, hostname: Option<string>)

  datatype Tab = Tab(url: Option<Url>)

  /** The message sent to the application tabs (and the notification's contents). */
  datatype Alert = Alert(siteName: string, warningCount: nat, duration: string, durationMs: nat)

  /** What the runtime message listener does with a request. */
  datatype ResetOutcome = Responded(status: string) | Threw(error: string) | Ignored

  const WarningCooldown: nat := 3000

  const UnproductiveSites: SiteDetection.Table := [
    ("instagram", ["instagram.com", "www.instagram.com"]),
    ("facebook", ["facebook.com", "www.facebook.com"]),
    ("twitter", ["twitter.com", "www.twitter.com", "x.com", "www.x.com"]),
    ("tiktok", ["tiktok.com", "www.tiktok.com"]),
    ("snapchat", ["snapchat.com", "www.snapchat.com"]),
    ("reddit", ["reddit.com", "www.reddit.com"]),
    ("youtube", ["youtube.com", "www.youtube.com"]),
    ("twitch", ["twitch.tv", "www.twitch.tv"]),
    ("netflix", ["netflix.com", "www.netflix.com"]),
    ("spotify", ["spotify.com", "www.spotify.com"]),
    ("soundcloud", ["soundcloud.com", "www.soundcloud.com"]),
    ("steam", ["steampowered.com", "www.steampowered.com"]),
    ("epicgames", ["epicgames.com", "www.epicgames.com"]),
    ("discord", ["discord.com", "www.discord.com"]),
    ("9gag", ["9gag.com", "www.9gag.com"]),
    ("imgur", ["imgur.com", "www.imgur.com"])
  ]

  /** A URL that is present, not empty, and parses (`!url` is false and `new URL` does not throw). */
  predicate Parsed(url: Option<Url>) {
    url.Some? && url.value.text != [] && url.value.hostname.Some?
  }

  /** `isUnproductiveSite(url)`: false for a missing, empty or unparseable URL, else whether a listed domain occurs in the hostname. */
  function IsUnproductiveSite(url: Option<Url>): (b: bool)
    ensures b <==> Parsed(url) && SiteDetection.Listed(UnproductiveSites, url.value.hostname.value)
  {
    Parsed(url) && SiteDetection.FirstMatch(UnproductiveSites, url.value.hostname.value).Some?
  }

  /** `getSiteName(url)`: the capitalised name of the first matching entry, else the hostname's first label. */
  function GetSiteName(url: Option<Url>): (r: string)
    ensures !Parsed(url) ==> r == "Unknown Site"
    ensures Parsed(url) ==>
      var h := url.value.hostname.value;
      match SiteDetection.FirstMatch(UnproductiveSites, h)
      case Some(i) =>
        (forall j :: 0 <= j < i ==> !SiteDetection.EntryMatches(UnproductiveSites, j, h))
        && SiteDetection.EntryMatches(UnproductiveSites, i, h)
        && r == Capitalize(UnproductiveSites[i].0)
      case None => !SiteDetection.Listed(UnproductiveSites, h) && r == FirstLabel(h)
  {
    if !Parsed(url) then "Unknown Site"
    else
      var h := url.value.hostname.value;
      match SiteDetection.FirstMatch(UnproductiveSites, h)
      case Some(i) => Capitalize(UnproductiveSites[i].0)
      case None => FirstLabel(h)
  }

  lemma EntryAvoids(i: nat, h: string, c: char)
    requires i < |UnproductiveSites| && c !in h
    requires forall j :: 0 <= j < |UnproductiveSites[i].1| ==> c in UnproductiveSites[i].1[j]
    ensures !SiteDetection.EntryMatches(UnproductiveSites, i, h)
  {
    forall j | 0 <= j < |UnproductiveSites[i].1|
      ensures !OccursIn(UnproductiveSites[i].1[j], h)
    {
      OccursChars(UnproductiveSites[i].1[j], h, c);
    }
  }

  /** "netflix.com" holds "x.com", and twitter precedes netflix in the table, so a Netflix tab is named "Twitter"
      unless an instagram or facebook domain also occurs in its hostname. */
  lemma NetflixNamedTwitter(text: string, pre: string, post: string)
    requires text != []
    requires !SiteDetection.EntryMatches(UnproductiveSites, 0, pre + "netflix.com" + post)
    requires !SiteDetection.EntryMatches(UnproductiveSites, 1, pre + "netflix.com" + post)
    ensures GetSiteName(Some(Url(text, Some(pre + "netflix.com" + post)))) == "Twitter"
  {
    var h := pre + "netflix.com" + post;
    assert SiteDetection.EntryMatches(UnproductiveSites, 2, h) by {
      assert h == (pre + "netfli") + "x.com" + post;
      SiteDetection.SubstringMatch(pre + "netfli", "x.com", post, UnproductiveSites, 2, 2);
    }
    SiteDetection.FirstMatchAt(UnproductiveSites, h, 2);
    TwitterName();
  }

  /** The display name of the twitter entry. */
  lemma TwitterName()
    ensures Capitalize(UnproductiveSites[2].0) == "Twitter"
  {
    var name := UnproductiveSites[2].0;
    assert name == "twitter";
    assert UpperChar('t') == 'T';
    assert Capitalize(name) == ['T'] + "witter";
  }

  /** Every hostname ending in "netflix.com" without a 'g' or a 'b' before it, "www.netflix.com" among them, is named "Twitter". */
  lemma NetflixHostsNamedTwitter(text: string, pre: string)
    requires text != [] && 'g' !in pre && 'b' !in pre
    ensures GetSiteName(Some(Url(text, Some(pre + "netflix.com")))) == "Twitter"
  {
    var h := pre + "netflix.com" + "";
    assert h == pre + "netflix.com";
    assert 'g' !in h && 'b' !in h;
    EntryAvoids(0, h, 'g');
    EntryAvoids(1, h, 'b');
    NetflixNamedTwitter(text, pre, "");
  }

  /** A warning may fire at `now` only when strictly more than the cooldown has passed since the last one. */
  predicate CooldownOver(last: int, now: int) {
    now - last > WarningCooldown
  }

  /** The instants, among successive eligible calls at `times`, at which a warning fires, starting from `last`. */
  function Fired(last: int, times: seq<int>): seq<int>
    decreases |times|
  {
    if times == [] then []
    else if CooldownOver(last, times[0]) then [times[0]] + Fired(times[0], times[1..])
    else Fired(last, times[1..])
  }

  /** Fired warnings come from the calls, in order, each more than the cooldown after the previous one (and after `last`). */
  lemma {:induction false} FiredSpaced(last: int, times: seq<int>)
    decreases |times|
    ensures var f := Fired(last, times);
      (forall k :: 0 <= k < |f| ==> f[k] in times)
      && (|f| > 0 ==> f[0] - last > WarningCooldown)
      && (forall k :: 0 <= k < |f| - 1 ==> f[k + 1] - f[k] > WarningCooldown)
  {
    if times != [] {
      assert forall x :: x in times[1..] ==> x in times;
      if CooldownOver(last, times[0]) {
        FiredSpaced(times[0], times[1..]);
        assert Fired(last, times) == [times[0]] + Fired(times[0], times[1..]);
      } else {
        FiredSpaced(last, times[1..]);
        assert Fired(last, times) == Fired(last, times[1..]);
      }
    }
  }

  /** Warnings over a span of calls are at most one per 3001 ms: the first and last fired instants are that far apart. */
  lemma {:induction false} FiredCount(last: int, times: seq<int>)
    decreases |times|
    ensures var f := Fired(last, times);
      |f| > 0 ==> f[|f| - 1] - f[0] >= (WarningCooldown + 1) * (|f| - 1)
  {
    if times != [] {
      var f := Fired(last, times);
      if CooldownOver(last, times[0]) {
        var rest := Fired(times[0], times[1..]);
        FiredCount(times[0], times[1..]);
        FiredSpaced(times[0], times[1..]);
        if |rest| > 0 {
          assert f[|f| - 1] == rest[|rest| - 1];
          assert rest[0] - times[0] >= WarningCooldown + 1;
        }
      } else {
        FiredCount(last, times[1..]);
      }
    }
  }

  /** The time since the tab's recorded activation, or 0 when there is none (a missing or 0 entry is falsy). */
  function ActiveFor(times: map<int, int>, tabId: int, now: int): (d: nat)
    requires tabId in times ==> times[tabId] <= now
    ensures tabId in times && times[tabId] != 0 ==> times[tabId] + d == now
    ensures !(tabId in times && times[tabId] != 0) ==> d == 0
  {
    if tabId in times && times[tabId] != 0 then now - times[tabId] else 0
  }

  /** The activation map after a tab is activated or finishes loading: set only when the tab has no (truthy) entry. */
  function Activate(times: map<int, int>, tabId: int, now: int): (r: map<int, int>)
    ensures tabId in r && r.Keys == times.Keys + {tabId}
    ensures tabId in times && times[tabId] != 0 ==> r == times
    ensures !(tabId in times && times[tabId] != 0) ==> r[tabId] == now
    ensures forall t :: t in times && t != tabId ==> r[t] == times[t]
  {
    if tabId in times && times[tabId] != 0 then times else times[tabId := now]
  }

  /** The reported duration is the time since the tab's first activation: a later activation keeps the earlier time. */
  lemma ActiveSinceActivation(times: map<int, int>, tabId: int, first: int, later: int, now: int)
    requires !(tabId in times && times[tabId] != 0)
    requires 0 < first <= later <= now
    ensures ActiveFor(Activate(times, tabId, first), tabId, now) == now - first
    ensures ActiveFor(Activate(Activate(times, tabId, first), tabId, later), tabId, now) == now - first
  {
  }

  /** The background script's module state. `clock` is the latest instant an event was handled at. */
  class Extension {
    var totalWarnings: nat
    var lastWarningTime: int
    var tabActivationTimes: map<int, int>
    ghost var clock: int

    ghost predicate Valid()
      reads this
    {
      forall t :: t in tabActivationTimes ==> tabActivationTimes[t] <= clock
    }

    constructor(start: int)
      ensures Valid() && clock == start
      ensures totalWarnings == 0 && lastWarningTime == 0 && tabActivationTimes == map[]
    {
      totalWarnings := 0;
      lastWarningTime := 0;
      tabActivationTimes := map[];
      clock := start;
    }

    /** `handleDistractionDetected(tabId, tab)` at instant `now`; the result is the alert sent, if any. */
    method HandleDistractionDetected(tabId: int, tab: Option<Tab>, now: int) returns (alert: Option<Alert>)
      requires Valid() && now >= clock
      modifies this
      ensures Valid() && clock == now
      ensures tabActivationTimes == old(tabActivationTimes)
      ensures var url := if tab.Some? then tab.value.url else None;
        alert.Some? <==> IsUnproductiveSite(url) && CooldownOver(old(lastWarningTime), now)
      ensures alert.None? ==> lastWarningTime == old(lastWarningTime) && totalWarnings == old(totalWarnings)
      ensures alert.Some? ==>
        var d := ActiveFor(tabActivationTimes, tabId, now);
        lastWarningTime == now && totalWarnings == old(totalWarnings) + 1
        && alert.value == Alert(GetSiteName(tab.value.url), totalWarnings, RoundedMinSec(d), d)
    {
      clock := now;
      if tab.None? || tab.value.url.None? || tab.value.url.value.text == [] {
        return None;
      }
      var url := tab.value.url;
      if !IsUnproductiveSite(url) {
        return None;
      }
      var siteName := GetSiteName(url);
      if now - lastWarningTime > WarningCooldown {
        lastWarningTime := now;
        var duration: nat := 0;
        if tabId in tabActivationTimes && tabActivationTimes[tabId] != 0 {
          duration := now - tabActivationTimes[tabId];
        }
        totalWarnings := totalWarnings + 1;
        var durationStr := RoundedMinSec(duration);
        return Some(Alert(siteName, totalWarnings, durationStr, duration));
      }
      return None;
    }

    /** The `tabs.onActivated` listener: record the activation time if the tab has none, then check the tab. */
    method OnActivated(tabId: int, tab: Option<Tab>, now: int) returns (alert: Option<Alert>)
      requires Valid() && now >= clock
      modifies this
      ensures Valid() && clock == now
      ensures tabActivationTimes == Activate(old(tabActivationTimes), tabId, now)
      ensures var url := if tab.Some? then tab.value.url else None;
        alert.Some? <==> IsUnproductiveSite(url) && CooldownOver(old(lastWarningTime), now)
      ensures alert.None? ==> lastWarningTime == old(lastWarningTime) && totalWarnings == old(totalWarnings)
      ensures alert.Some? ==>
        var d := ActiveFor(tabActivationTimes, tabId, now);
        lastWarningTime == now && totalWarnings == old(totalWarnings) + 1
        && alert.value == Alert(GetSiteName(tab.value.url), totalWarnings, RoundedMinSec(d), d)
    {
      if !(tabId in tabActivationTimes && tabActivationTimes[tabId] != 0) {
        tabActivationTimes := tabActivationTimes[tabId := now];
      }
      clock := now;
      alert := HandleDistractionDetected(tabId, tab, now);
    }

    /** The `tabs.onUpdated` listener: the same as an activation once the tab's status is "complete", else nothing. */
    method OnUpdated(tabId: int, status: string, tab: Option<Tab>, now: int) returns (alert: Option<Alert>)
      requires Valid() && now >= clock
      modifies this
      ensures Valid() && clock == now
      ensures status != "complete" ==>
        alert.None? && tabActivationTimes == old(tabActivationTimes)
        && lastWarningTime == old(lastWarningTime) && totalWarnings == old(totalWarnings)
      ensures status == "complete" ==> tabActivationTimes == Activate(old(tabActivationTimes), tabId, now)
      ensures var url := if tab.Some? then tab.value.url else None;
        alert.Some? <==> status == "complete" && IsUnproductiveSite(url) && CooldownOver(old(lastWarningTime), now)
      ensures alert.None? ==> lastWarningTime == old(lastWarningTime) && totalWarnings == old(totalWarnings)
      ensures alert.Some? ==>
        var d := ActiveFor(tabActivationTimes, tabId, now);
        lastWarningTime == now && totalWarnings == old(totalWarnings) + 1
        && alert.value == Alert(GetSiteName(tab.value.url), totalWarnings, RoundedMinSec(d), d)
    {
      clock := now;
      if status == "complete" {
        alert := OnActivated(tabId, tab, now);
      } else {
        alert := None;
      }
    }

    /** The `tabs.onRemoved` listener: forget the tab's activation time. */
    method OnRemoved(tabId: int)
      requires Valid()
      modifies this
      ensures Valid() && clock == old(clock)
      ensures tabActivationTimes == old(tabActivationTimes) - {tabId}
      ensures lastWarningTime == old(lastWarningTime) && totalWarnings == old(totalWarnings)
    {
      tabActivationTimes := tabActivationTimes - {tabId};
    }

    /** The runtime message listener as written: `totalWarnings` is zeroed, then the assignment to the constant map throws, so the map keeps its entries and no response is sent. */
    method OnMessageAsWritten(requestType: string) returns (outcome: ResetOutcome)
      requires Valid()
      modifies this
      ensures Valid() && clock == old(clock)
      ensures tabActivationTimes == old(tabActivationTimes) && lastWarningTime == old(lastWarningTime)
      ensures requestType == "RESET_WARNINGS" ==> totalWarnings == 0 && outcome == Threw("TypeError: Assignment to constant variable.")
      ensures requestType != "RESET_WARNINGS" ==> totalWarnings == old(totalWarnings) && outcome == Ignored
    {
      if requestType == "RESET_WARNINGS" {
        totalWarnings := 0;
        return Threw("TypeError: Assignment to constant variable.");
      }
      return Ignored;
    }

    /** The runtime message listener as intended: zero the count, clear the activation times and reply. */
    method OnMessage(requestType: string) returns (outcome: ResetOutcome)
      requires Valid()
      modifies this
      ensures Valid() && clock == old(clock) && lastWarningTime == old(lastWarningTime)
      ensures requestType == "RESET_WARNINGS" ==>
        totalWarnings == 0 && tabActivationTimes == map[] && outcome == Responded("warnings_reset")
      ensures requestType != "RESET_WARNINGS" ==>
        totalWarnings == old(totalWarnings) && tabActivationTimes == old(tabActivationTimes) && outcome == Ignored
    {
      if requestType == "RESET_WARNINGS" {
        totalWarnings := 0;
        tabActivationTimes := map[];
        return Responded("warnings_reset");
      }
      return Ignored;
    }
  }

  /** As written, a tab activated at `t0` before a reset keeps that activation time: its next warning reports `t1 - t0`. */
  method StaleDurationAfterReset(tab: Tab, t0: int, t1: int) returns (durationMs: nat)
    requires IsUnproductiveSite(tab.url) && 0 < t0 && t1 - t0 > WarningCooldown
    ensures durationMs == t1 - t0
  {
    var e := new Extension(0);
    var a := e.OnActivated(7, Some(tab), t0);
    var o := e.OnMessageAsWritten("RESET_WARNINGS");
    a := e.OnActivated(7, Some(tab), t1);
    durationMs := a.value.durationMs;
  }

  /** With the intended reset the activation time is cleared, so the same sequence reports 0 ms. */
  method FreshDurationAfterReset(tab: Tab, t0: int, t1: int) returns (durationMs: nat)
    requires IsUnproductiveSite(tab.url) && 0 < t0 && t1 - t0 > WarningCooldown
    ensures durationMs == 0
  {
    var e := new Extension(0);
    var a := e.OnActivated(7, Some(tab), t0);
    var o := e.OnMessage("RESET_WARNINGS");
    a := e.OnActivated(7, Some(tab), t1);
    durationMs := a.value.durationMs;
  }

  /** One detection on an unproductive tab, with only the throttle's effect in view. */
  method Detect(e: Extension, tabId: int, tab: Tab, now: int) returns (alert: Option<Alert>)
    requires e.Valid() && now >= e.clock && IsUnproductiveSite(tab.url)
    modifies e
    ensures e.Valid() && e.clock == now
    ensures alert.Some? <==> CooldownOver(old(e.lastWarningTime), now)
    ensures alert.Some? ==> e.lastWarningTime == now && e.totalWarnings == old(e.totalWarnings) + 1
                            && alert.value.warningCount == e.totalWarnings
    ensures alert.None? ==> e.lastWarningTime == old(e.lastWarningTime) && e.totalWarnings == old(e.totalWarnings)
  {
    alert := e.HandleDistractionDetected(tabId, Some(tab), now);
  }

  /** Detections of one unproductive tab at the non-decreasing instants `times`, replayed on a freshly loaded
      script: the instants at which a warning fires are exactly `Fired(0, times)`, so they are spaced by more
      than the cooldown, and the k-th warning carries the count k + 1. */
  method ReplayDetections(tabId: int, tab: Tab, times: seq<int>) returns (fired: seq<int>, counts: seq<nat>)
    requires IsUnproductiveSite(tab.url)
    requires forall k :: 0 <= k < |times| ==> 0 <= times[k]
    requires forall k :: 0 <= k < |times| - 1 ==> times[k] <= times[k + 1]
    ensures fired == Fired(0, times)
    ensures |counts| == |fired| && forall k :: 0 <= k < |counts| ==> counts[k] == k + 1
    ensures forall k :: 0 <= k < |fired| - 1 ==> fired[k + 1] - fired[k] > WarningCooldown
    ensures |fired| > 0 ==> fired[|fired| - 1] - fired[0] >= (WarningCooldown + 1) * (|fired| - 1)
  {
    var e := new Extension(0);
    fired, counts := [], [];
    var rest := times;
    while rest != []
      decreases |rest|
      invariant e.Valid() && (rest != [] ==> e.clock <= rest[0])
      invariant forall k :: 0 <= k < |rest| - 1 ==> rest[k] <= rest[k + 1]
      invariant e.totalWarnings == |fired| == |counts|
      invariant forall k :: 0 <= k < |counts| ==> counts[k] == k + 1
      invariant fired + Fired(e.lastWarningTime, rest) == Fired(0, times)
    {
      var alert := Detect(e, tabId, tab, rest[0]);
      if alert.Some? {
        assert fired + ([rest[0]] + Fired(rest[0], rest[1..])) == (fired + [rest[0]]) + Fired(rest[0], rest[1..]);
        fired := fired + [rest[0]];
        counts := counts + [alert.value.warningCount];
      }
      rest := rest[1..];
    }
    assert fired == Fired(0, times) by {
      assert fired + [] == fired;
    }
    FiredSpaced(0, times);
    FiredCount(0, times);
  }
}
