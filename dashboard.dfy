/**
 * The dashboard's focus-session recorder (src/features/dashboard/Dashboard.jsx):
 * a one-second tick counter while a session runs, a list of distraction
 * entries that the extension's warnings open and the warning modal's dismiss
 * closes, and the session object saved through the session cache on stop.
 * `now` is `Date.now()` at the event; `timeText` is `toLocaleTimeString()`.
 */
module Dashboard {
  import opened Wrappers
  import opened Text
  import opened JsNumber
  import opened DurationText
  import opened SessionData
  import opened SessionContext

  /** A `postMessage` payload as the dashboard reads it; the extension's duration fields are carried but unused. */
  datatype Message = Message(msgType: string, source: string, siteName: string,
                             duration: string, durationMs: nat, warningCount: nat)

  /** The entry `recordDistraction` appends: no duration until it is dismissed. */
  function OpenEntry(siteName: string, timeText: string, now: int): (d: Distraction)
    ensures d.durationMs.None? && d.duration.None? && ReasonOf(d) == (if siteName == [] then "Unknown" else siteName)
  {
    Distraction(timeText, Some(siteName), None, None, now)
  }

  /** The last entry as `handleWarningDismiss` leaves it. */
  function Closed(d: Distraction, durationMs: nat): (c: Distraction)
    ensures DistractionMs(c) == durationMs && c.duration == Some(RoundedMinSec(durationMs))
    ensures c.time == d.time && c.reason == d.reason && c.startTime == d.startTime
  {
    d.(duration := Some(RoundedMinSec(durationMs)), durationMs := Some(durationMs))
  }

  /** A closed entry's text reads back as its duration rounded to whole seconds. */
  lemma ClosedText(d: Distraction, durationMs: nat)
    ensures ParseMinSec(Closed(d, durationMs).duration.value) == Some(RoundDiv(durationMs, 1000))
  {
  }

  /** The default title, "Focus Session " followed by one more than the number of saved sessions. */
  function DefaultTitle(count: nat): (r: string)
    ensures r != []
    ensures match After("Focus Session ", r)
      case Some(rest) => ParseNat(rest) == Some((count + 1, []))
      case None => false
  {
    var n := NatToString(count + 1);
    AfterPrefix("Focus Session ", n);
    ParseNatToString(count + 1, []);
    assert n + [] == n;
    "Focus Session " + n
  }

  /** The object `stop` hands to `addSession`: timed backwards from `endTime` by the tick count. */
  function SavedSession(title: string, count: nat, seconds: nat, distractions: seq<Distraction>,
                        warnings: nat, endTime: int): (s: Session)
    ensures s.title != [] && (title != [] ==> s.title == title) && (title == [] ==> s.title == DefaultTitle(count))
    ensures s.startTime.Some? && s.endTime == Some(endTime) && s.startTime.value + 1000 * seconds == endTime
    ensures DurationOf(s) == seconds && DistractionsOf(s) == distractions && s.warnings == Some(warnings)
    ensures IdOf(s) == None && StampOf(s) == s.startTime && s.date == Some(endTime)
  {
    Session(None, None, if title != [] then title else DefaultTitle(count),
            Some(endTime - seconds * 1000), Some(endTime), Some(seconds),
            Some(distractions), Some(warnings), Some(endTime))
  }

  /** The running clock, "HH:MM:SS" with each field zero-padded to two digits. */
  function ClockDisplay(seconds: nat): (r: string)
    ensures ParseClock(r) == Some(seconds)
    ensures seconds < 360000 ==> |r| == 8
    ensures exists h: nat, m: nat, s: nat :: m < 60 && s < 60 && 3600 * h + 60 * m + s == seconds
                                          && r == Pad2(h) + ":" + Pad2(m) + ":" + Pad2(s)
  {
    var h := seconds / 3600;
    var m := seconds % 3600 / 60;
    var s := seconds % 60;
    assert 3600 * h + 60 * m + s == seconds && m < 60 && s < 60 by {
      SplitHms(seconds);
    }
    ClockRoundTrip(h, m, s, seconds);
    Pad2(h) + ":" + Pad2(m) + ":" + Pad2(s)
  }

  class Dashboard {
    var showModal: bool
    var title: string
    var running: bool
    var seconds: nat
    var showWarningModal: bool
    var currentDistraction: string
    var warningCount: nat
    var distractions: seq<Distraction>
    var warnings: nat
    var sessionStartTime: Option<int>
    var distractionStartTime: Option<int>
    ghost var clock: int

    /** One warning per entry; the modal's count never falls below it; the open slot is in the past. */
    ghost predicate Valid()
      reads this
    {
      warnings == |distractions| && warnings <= warningCount
      && (distractionStartTime.Some? ==> distractionStartTime.value <= clock)
    }

    constructor(start: int)
      ensures Valid() && clock == start
      ensures !showModal && title == [] && !running && seconds == 0 && !showWarningModal
      ensures currentDistraction == [] && warningCount == 0 && distractions == [] && warnings == 0
      ensures sessionStartTime == None && distractionStartTime == None
    {
      showModal := false;
      title := [];
      running := false;
      seconds := 0;
      showWarningModal := false;
      currentDistraction := [];
      warningCount := 0;
      distractions := [];
      warnings := 0;
      sessionStartTime := None;
      distractionStartTime := None;
      clock := start;
    }

    /** `if (distractionStartTime.current)`: a start time of 0 is falsy. */
    predicate SlotOpen()
      reads this
    {
      distractionStartTime.Some? && distractionStartTime.value != 0
    }

    /** One firing of the one-second interval, which exists only while a session runs. */
    method Tick()
      modifies this
      ensures running ==> seconds == old(seconds) + 1
      ensures !running ==> seconds == old(seconds)
      ensures running == old(running) && distractions == old(distractions) && warnings == old(warnings)
      ensures warningCount == old(warningCount) && distractionStartTime == old(distractionStartTime)
      ensures clock == old(clock)
    {
      if running {
        seconds := seconds + 1;
      }
    }

    /** `openModal`: clear the title field and show the dialog. */
    method OpenModal()
      modifies this
      ensures title == [] && showModal
      ensures running == old(running) && seconds == old(seconds) && distractions == old(distractions)
      ensures warnings == old(warnings) && warningCount == old(warningCount)
      ensures distractionStartTime == old(distractionStartTime) && clock == old(clock)
    {
      title := [];
      showModal := true;
    }

    method SetTitle(text: string)
      modifies this
      ensures title == text
      ensures showModal == old(showModal) && running == old(running) && seconds == old(seconds)
      ensures distractions == old(distractions) && warnings == old(warnings) && warningCount == old(warningCount)
      ensures distractionStartTime == old(distractionStartTime) && clock == old(clock)
    {
      title := text;
    }

    /** The dialog's Start button as written: it only hides the dialog and starts the counter. */
    method ConfirmStart()
      modifies this
      ensures !showModal && running
      ensures title == old(title) && seconds == old(seconds) && distractions == old(distractions)
      ensures warnings == old(warnings) && warningCount == old(warningCount)
      ensures sessionStartTime == old(sessionStartTime)
      ensures distractionStartTime == old(distractionStartTime) && clock == old(clock)
    {
      showModal := false;
      running := true;
    }

    /** `start`: also records the start instant and clears the distraction state of the previous session. */
    method Start(now: int)
      modifies this
      ensures !showModal && running && sessionStartTime == Some(now)
      ensures distractions == [] && warnings == 0 && warningCount == 0
      ensures title == old(title) && seconds == old(seconds)
      ensures distractionStartTime == old(distractionStartTime) && clock == old(clock)
    {
      showModal := false;
      running := true;
      sessionStartTime := Some(now);
      distractions := [];
      warnings := 0;
      warningCount := 0;
    }

    /** `recordDistraction`: open a new entry at the end and start timing it in the single slot. */
    method RecordDistraction(siteName: string, timeText: string, now: int)
      requires Valid() && now >= clock
      modifies this
      ensures Valid() && clock == now
      ensures distractions == old(distractions) + [OpenEntry(siteName, timeText, now)]
      ensures warnings == old(warnings) + 1 && warningCount == old(warningCount) + 1
      ensures distractionStartTime == Some(now) && showWarningModal && currentDistraction == siteName
      ensures running == old(running) && seconds == old(seconds) && title == old(title)
    {
      clock := now;
      distractionStartTime := Some(now);
      currentDistraction := siteName;
      warnings := warnings + 1;
      warningCount := warningCount + 1;
      showWarningModal := true;
      distractions := distractions + [OpenEntry(siteName, timeText, now)];
    }

    /** `handleWarningDismiss`: close the last entry with the time since the slot was set, then clear the slot. */
    method HandleWarningDismiss(now: int)
      requires Valid() && now >= clock
      modifies this
      ensures Valid() && clock == now && !showWarningModal
      ensures old(SlotOpen()) && old(distractions) != [] ==>
        var n := |old(distractions)|;
        distractions == old(distractions)[..n - 1]
                        + [Closed(old(distractions)[n - 1], now - old(distractionStartTime).value)]
      ensures !(old(SlotOpen()) && old(distractions) != []) ==> distractions == old(distractions)
      ensures old(SlotOpen()) ==> distractionStartTime == None
      ensures !old(SlotOpen()) ==> distractionStartTime == old(distractionStartTime)
      ensures warnings == old(warnings) && warningCount == old(warningCount)
      ensures running == old(running) && seconds == old(seconds) && title == old(title)
    {
      clock := now;
      if SlotOpen() {
        var durationMs: nat := now - distractionStartTime.value;
        if |distractions| > 0 {
          var n := |distractions|;
          distractions := distractions[..n - 1] + [Closed(distractions[n - 1], durationMs)];
        }
        distractionStartTime := None;
      }
      showWarningModal := false;
    }

    /** The window `message` listener, registered only while running: extension warnings from this window are recorded; the result says whether one was. */
    method DeliverMessage(fromWindow: bool, msg: Message, timeText: string, now: int) returns (recorded: bool)
      requires Valid() && now >= clock
      modifies this
      ensures Valid()
      ensures recorded <==> old(running) && fromWindow && msg.msgType == "DISTRACTION_WARNING" && msg.source == "chrome-extension"
      ensures recorded ==>
        clock == now && distractions == old(distractions) + [OpenEntry(msg.siteName, timeText, now)]
        && warnings == old(warnings) + 1 && warningCount == old(warningCount) + 1 && distractionStartTime == Some(now)
      ensures !recorded ==>
        distractions == old(distractions) && warnings == old(warnings) && warningCount == old(warningCount)
        && distractionStartTime == old(distractionStartTime) && clock == old(clock)
      ensures running == old(running) && seconds == old(seconds)
    {
      recorded := running && fromWindow && msg.msgType == "DISTRACTION_WARNING" && msg.source == "chrome-extension";
      if recorded {
        RecordDistraction(msg.siteName, timeText, now);
      }
    }

    /** `stop`: save the session through the cache, then reset the counter and the lists unless `addSession` threw. Returns the object sent and the cache's answer; nothing when no session runs. */
    method Stop(store: SessionStore, endTime: int, reply: ServerReply<Session>)
      returns (sent: Option<Session>, outcome: Option<Result<bool, string>>)
      requires Valid()
      modifies this, store
      ensures Valid() && clock == old(clock)
      ensures !old(running) ==>
        sent.None? && outcome.None? && seconds == old(seconds) && distractions == old(distractions)
        && warnings == old(warnings) && store.sessions == old(store.sessions)
      ensures old(running) ==> !running && sent.Some? && outcome.Some?
      ensures old(running) ==>
        sent.value == SavedSession(old(title), |old(store.sessions)|, old(seconds), old(distractions), old(warnings), endTime)
      ensures old(running) && !old(store.HasToken()) ==>
        outcome.value == Err("Not authenticated") && store.sessions == old(store.sessions)
        && seconds == old(seconds) && distractions == old(distractions) && warnings == old(warnings)
      ensures old(running) && old(store.HasToken()) ==>
        outcome.value == Ok(reply.Accepted?) && seconds == 0 && distractions == [] && warnings == 0
        && store.sessions == (if reply.Accepted? then [reply.record] + old(store.sessions) else old(store.sessions))
      ensures warningCount == old(warningCount) && title == old(title)
      ensures store.token == old(store.token) && store.user == old(store.user)
    {
      if !running {
        return None, None;
      }
      running := false;
      var obj := SavedSession(title, |store.sessions|, seconds, distractions, warnings, endTime);
      sent := Some(obj);
      var r := store.AddSession(obj, reply);
      outcome := Some(r);
      if r.Ok? {
        seconds := 0;
        distractions := [];
        warnings := 0;
      }
    }
  }

  /** A second warning before the first is dismissed takes over the slot: the dismiss closes only the second entry, and the first stays open for good. */
  method SecondWarningKeepsFirstOpen(site1: string, site2: string, timeText: string, t1: int, t2: int, t3: int)
    returns (first: Distraction, last: Distraction)
    requires 0 <= t1 <= t2 <= t3 && t2 != 0
    ensures first.durationMs.None? && first.duration.None?
    ensures last.durationMs == Some(t3 - t2) && last.reason == Some(site2)
  {
    var d := new Dashboard(0);
    d.RecordDistraction(site1, timeText, t1);
    d.RecordDistraction(site2, timeText, t2);
    d.HandleWarningDismiss(t3);
    first := d.distractions[0];
    last := d.distractions[1];
  }

  /** Two sessions started from the dialog, with one warning each: the second warning is shown as number 2. */
  method WarningCountAcrossSessions(record: Session) returns (count: nat)
    ensures count == 2
  {
    var d := new Dashboard(0);
    var store := new SessionStore(Some("token"));
    d.ConfirmStart();
    d.RecordDistraction("Twitter", "10:00:01", 1000);
    var sent, outcome := d.Stop(store, 2000, Accepted(record));
    d.ConfirmStart();
    d.RecordDistraction("Twitter", "10:00:03", 3000);
    count := d.warningCount;
  }

  /** The same two sessions started through `start`: the count restarts, so the second warning is number 1. */
  method WarningCountRestarts(record: Session) returns (count: nat)
    ensures count == 1
  {
    var d := new Dashboard(0);
    var store := new SessionStore(Some("token"));
    d.Start(0);
    d.RecordDistraction("Twitter", "10:00:01", 1000);
    var sent, outcome := d.Stop(store, 2000, Accepted(record));
    d.Start(2000);
    d.RecordDistraction("Twitter", "10:00:03", 3000);
    count := d.warningCount;
  }
}
