# Focus tracker: the distraction-tracking pipeline in Dafny

This project models the logic of the Focus tracker that decides, records and reports distractions.

- **Site classification.** The web application classifies a hostname as productive, unproductive, neutral or unknown. It does this by substring search over two constant tables (`SiteDetection`).
- **The browser extension's background script.** The extension has its own table of distracting sites and names the site in a warning. A warning throttle works over `lastWarningTime`, `totalWarnings` and the per-tab activation times (`Background`, with the class `Extension`).
- **The dashboard's session recorder.** A one-second tick counter runs while a session is active. Extension warnings open distraction entries, and dismissing the warning closes the last one. `stop` saves the session through the session cache (`Dashboard`, with the class `Dashboard`).
- **The profile analytics.** These are:
  - the week, month and all-time windows;
  - `calculateStats`;
  - the most distracting site (grouped by reason, with the first strictly largest total winning);
  - the best session (the first session with the greatest focus score);
  - the "Hh Mm Ss" formatter (`Analytics`).
- **The two seven-day bar charts.** Their buckets, weekly totals, daily averages and bar scales are modelled (`DayBuckets`, `FocusChart`, `DistractionsChart`).
- **The duration texts.** Every duration text is paired with a reader that parses it back (`DurationText`). The modelled texts are:
  - "Xm Ys";
  - "Hh Mm Ss" / "Mm Ss" / "Ss";
  - "Hh Mm" / "Mm";
  - the "HH:MM:SS" clock.
- **The session card and the session page** (`SessionCard`, `SessionDetails`).
- **The client-side session cache.** It prepends on a successful add, filters on delete, and clears on logout (`SessionContext`, with the class `SessionStore`).

## How things are represented

- **Instants.** These are whole milliseconds of local time.
- **Calendar days.** Days are numbered from 1970-01-01, so a day is `ms / 86400000` and the weekday is `(day + 4) % 7` (0 is Sunday).
- **Inputs.** The current instant, the day of the month and every HTTP reply are parameters.
- **Missing fields.** Fields that the stored JSON may lack are `Option`s. The views' `x || default` fallbacks are the functions of `SessionData`.
- **Parsed URLs.** A URL comes with the hostname the URL constructor gives, or `None` when the constructor throws.
- **Rounding.** `Math.round(x / d)` on the non-negative values used here is `JsNumber.RoundDiv`, which is proved to lie within half a unit of `x / d`.
- **The focus score.** The fractional score is multiplied by 2000 so that it is a whole number. The scaled score is proved equal to 2000 times the exact real-valued score.
- **A quirk reproduced on purpose.** `"netflix.com"` contains `"x.com"`, and the twitter entry comes before netflix in the extension's table. So the extension names a Netflix tab "Twitter" whenever no instagram or facebook domain also occurs in its hostname, as for "www.netflix.com" and "about.netflix.com" (`Background.NetflixNamedTwitter`).

## Model

| member | source | states |
|---|---|---|
| `JsNumber.RoundDiv` | src/features/profile/Analytics.jsx:95 | `Math.round(x/d)` for x ≥ 0: the result r satisfies (2r−1)·d ≤ 2x < (2r+1)·d, i.e. it is the nearest integer with halves rounded up |
| `JsNumber.RoundDivAtMost` | src/features/profile/Analytics.jsx:94-95 | if x ≤ d·b then the rounded quotient is at most b (the average never exceeds the maximum) |
| `Text.Pad2` | src/features/dashboard/Dashboard.jsx:235 | `padStart(2,'0')`: all digits, at least two of them, exactly two below 100, no leading zero from 10 on, and the digits read back as the number |
| `Text.Includes` | src/utils/siteDetection.js:61 | `hostname.includes(domain)` is true exactly when the domain occurs at some position of the hostname |
| `Text.Capitalize` | public/chrome-extension/background.js:46 | same length, first character upper-cased, the rest unchanged |
| `Text.FirstLabel` | public/chrome-extension/background.js:49 | `split('.')[0]`: the longest prefix without a dot, followed by a dot or the end of the hostname |
| `DurationText.MinutesSeconds` | public/chrome-extension/background.js:67-76 | for a whole number of seconds: reads back as that number; contains "m" exactly when it is at least 60; is "⌊t/60⌋m (t mod 60)s" from 60 on and "ts" below |
| `DurationText.RoundedMinSec` | src/features/dashboard/Dashboard.jsx:167-176 | `formatDurationString` (and the extension's `calculateDuration` and the most-distracting card's time): the milliseconds rounded to the nearest second read back from the text, with the "Xm Ys" / "Ys" shape of that rounded number |
| `DurationText.SplitHms` | src/features/dashboard/SessionCard.jsx:22-25 | 3600·⌊t/3600⌋ + 60·⌊(t mod 3600)/60⌋ + t mod 60 = t, with minutes and seconds below 60 |
| `DurationText.HmsRoundTrip` | src/features/profile/Analytics.jsx:166-171 | "Hh Mm Ss" reads back as 3600h + 60m + s |
| `DurationText.MsRoundTrip` | src/features/dashboard/SessionCard.jsx:29-30 | "Mm Ss" reads back as 60m + s |
| `DurationText.SRoundTrip` | src/features/dashboard/SessionCard.jsx:31-32 | "Ss" reads back as s |
| `DurationText.MinSecRoundTrip` | public/chrome-extension/background.js:72-73 | "Xm Ys" reads back as 60X + Y as an "Xm Ys" text |
| `DurationText.SecRoundTrip` | public/chrome-extension/background.js:75 | "Ys" reads back as Y as an "Xm Ys" text |
| `DurationText.HourMinRoundTrip` | src/features/dashboard/FocusChart.jsx:53-54 | "Hh Mm" reads back as 60h + m minutes |
| `DurationText.MinRoundTrip` | src/features/dashboard/FocusChart.jsx:56 | "Mm" reads back as m minutes |
| `DurationText.ClockRoundTrip` | src/features/dashboard/Dashboard.jsx:235 | "HH:MM:SS" of zero-padded fields reads back as 3600h + 60m + s seconds |
| `SiteDetection.SomeIncluded` | src/utils/siteDetection.js:61 | `domains.some(d => hostname.includes(d))` is true exactly when some listed domain occurs in the hostname |
| `SiteDetection.FirstMatch` | src/utils/siteDetection.js:60-71 | none exactly when no entry of the table matches; otherwise the position of a matching entry with no earlier entry matching |
| `SiteDetection.GetSiteCategory` | src/utils/siteDetection.js:56-74 | four if-and-only-ifs: unknown exactly for a missing or empty hostname; productive exactly when a productive domain occurs; unproductive exactly when none does but an unproductive one does; neutral exactly when neither does |
| `SiteDetection.IsUnproductiveSite` | src/utils/siteDetection.js:76-78 | true exactly when the hostname is present, matches no productive domain and matches an unproductive one |
| `SiteDetection.IsProductiveSite` | src/utils/siteDetection.js:80-82 | true exactly when the hostname is present and matches a productive domain, and then never unproductive too |
| `SiteDetection.SubstringMatch` | src/utils/siteDetection.js:68 | any text before and after a listed domain still matches that entry and the table |
| `SiteDetection.UnproductiveUnlessProductive` | src/utils/siteDetection.js:60-71 | every hostname holding "instagram.com" (e.g. "m.instagram.com", "notinstagram.com") is unproductive unless a productive domain also occurs in it, which takes precedence |
| `Background.IsUnproductiveSite` | public/chrome-extension/background.js:25-38 | false for a missing, empty or unparseable URL; otherwise true exactly when a domain of the extension's table occurs in the hostname |
| `Background.GetSiteName` | public/chrome-extension/background.js:40-53 | "Unknown Site" for a missing, empty or unparseable URL; otherwise the capitalised name of the first matching entry in table order (no earlier entry matching), or the hostname's first label when no entry matches |
| `Background.NetflixNamedTwitter` | public/chrome-extension/background.js:5-11 | any hostname holding "netflix.com" and no instagram or facebook domain is named "Twitter", because "x.com" occurs in it and twitter precedes netflix |
| `Background.NetflixHostsNamedTwitter` | public/chrome-extension/background.js:5-11 | in particular every hostname ending in "netflix.com" with no "g" or "b" before it, such as "www.netflix.com", is named "Twitter" |
| `Background.FiredSpaced` | public/chrome-extension/background.js:85-86 | the cooldown rule `Fired` applied to any sequence of eligible calls picks instants from those calls in order, the first more than 3000 ms after the last warning and each more than 3000 ms after the previous one |
| `Background.FiredCount` | public/chrome-extension/background.js:55-56 | n instants picked by the cooldown rule span at least 3001·(n−1) ms: at most one warning per cooldown |
| `Background.ReplayDetections` | public/chrome-extension/background.js:78-128 | successive `handleDistractionDetected` calls on one unproductive tab, at non-decreasing instants, on a freshly loaded script: the warnings fire at exactly the instants the cooldown rule picks, consecutive ones more than 3000 ms apart and n of them spanning at least 3001·(n−1) ms, and the k-th carries the count k + 1 |
| `Background.ActiveFor` | public/chrome-extension/background.js:89-92 | the reported duration is now minus the tab's activation time when one is recorded (and not 0), else 0 |
| `Background.ActiveSinceActivation` | public/chrome-extension/background.js:89-92 | a tab with no recorded time activated at `first` reports now − first, even after a later activation, which keeps the first time |
| `Background.Activate` | public/chrome-extension/background.js:133-135 | the activation time is set to now only when the tab has none (a recorded time is never overwritten); other tabs keep theirs |
| `Background.Extension.constructor` | public/chrome-extension/background.js:22-23 | no warnings, last warning at 0, no activation times |
| `Background.Extension.HandleDistractionDetected` | public/chrome-extension/background.js:78-128 | an alert exactly when the tab's URL is unproductive and now − lastWarningTime > 3000; then lastWarningTime becomes now, totalWarnings grows by exactly 1, and the alert carries the site name, the new count, the duration and its text; otherwise neither changes; the activation map never changes |
| `Background.Extension.OnActivated` | public/chrome-extension/background.js:130-138 | records the activation time if the tab has none, then behaves as the detection handler with that map |
| `Background.Extension.OnUpdated` | public/chrome-extension/background.js:140-148 | nothing at all unless the status is "complete"; then as an activation |
| `Background.Extension.OnRemoved` | public/chrome-extension/background.js:151-153 | exactly the removed tab's activation time is forgotten |
| `Background.Extension.OnMessageAsWritten` | public/chrome-extension/background.js:59-65 | a RESET_WARNINGS request zeroes totalWarnings and then throws, so the activation map is kept and no response is sent; other requests change nothing |
| `Background.Extension.OnMessage` | public/chrome-extension/background.js:59-65 | the intended reset: zero the count, empty the activation map, respond "warnings_reset" |
| `Background.StaleDurationAfterReset` | public/chrome-extension/background.js:62 | as written, a tab activated at t0 before a reset reports t1 − t0 at its next warning at t1 |
| `Background.FreshDurationAfterReset` | public/chrome-extension/background.js:62 | with the intended reset the same sequence reports 0 ms |
| `Calendar.DayOf` | src/features/profile/Analytics.jsx:22 | the day holding an instant: its midnight is at or before it and the next midnight after it |
| `Calendar.Weekday` | src/features/profile/Analytics.jsx:19 | `getDay()`: a number below 7 |
| `Calendar.WeekStartDay` | src/features/profile/Analytics.jsx:18-22 | the week starts on a Monday, at most six days back: Sunday goes back 6 days, any other day back weekday − 1 |
| `Calendar.WeekStartStable` | src/features/profile/Analytics.jsx:18-22 | every day from that Monday up to today has the same week start |
| `Calendar.MonthStartDay` | src/features/profile/Analytics.jsx:25-26 | the first of the month is dayOfMonth − 1 days back |
| `Calendar.StartOfDay` | src/features/profile/Analytics.jsx:22 | `setHours(0,0,0,0)`: its midnight, the first instant of that day (a multiple of the day length, at or before every instant of the day) |
| `Analytics.MaxDuration` | src/features/profile/Analytics.jsx:94 | at least every duration, attained by one of them, and 0 for an empty list |
| `Analytics.MaxAtMostTotal` | src/features/profile/Analytics.jsx:93-94 | the maximum duration never exceeds the total |
| `Analytics.TotalAtMostCountTimesMax` | src/features/profile/Analytics.jsx:93-95 | the total never exceeds count × maximum |
| `Analytics.CalculateStats` | src/features/profile/Analytics.jsx:91-102 | count is the length, total the sum of durations (missing as 0), max the largest (0 when empty), distractions the sum of list lengths; avg is total/count rounded, and avg ≤ max ≤ total; an empty list gives all zeros |
| `Analytics.StatsAppend` | src/features/profile/Analytics.jsx:91-102 | the totals of two lists together are the sums of their totals, and the maximum is the larger maximum |
| `Analytics.Window` | src/features/profile/Analytics.jsx:28-40 | exactly the sessions with a `startTime` or `date` at or after the window start, none invented |
| `Analytics.WindowAppend` | src/features/profile/Analytics.jsx:38-39 | the window of a concatenation is the concatenation of the windows, so the order is kept |
| `Analytics.WindowNested` | src/features/profile/Analytics.jsx:38-39 | a window starting later is drawn from one starting earlier |
| `Analytics.SplitWindows` | src/features/profile/Analytics.jsx:32-40 | the loop's week and month lists are exactly the two windows |
| `Analytics.GroupCorrect` | src/features/profile/Analytics.jsx:105-120 | the grouping holds every reason once, in first-seen order, with the total milliseconds and the number of its entries; reasons absent from it have none |
| `Analytics.Select` | src/features/profile/Analytics.jsx:124-132 | either no reason has a positive total and the result is {"", 0, 0}, or the result is the first reason whose total is strictly larger than every earlier one and not beaten by a later one |
| `Analytics.GroupEntries` | src/features/profile/Analytics.jsx:105-120 | the nested loops build exactly the grouping of every session's entries |
| `Analytics.GetMostDistractionSite` | src/features/profile/Analytics.jsx:104-133 | null exactly when there are no entries at all; otherwise the selection over the correct grouping |
| `Analytics.FocusScore` | src/features/profile/Analytics.jsx:153-164 | equals 2000 × `max(duration − 60·count − 0.5·totalMs/1000, 0)` computed on real numbers, hence never negative |
| `Analytics.FirstBestUnique` | src/features/profile/Analytics.jsx:142-148 | at most one session is the first one with the greatest score |
| `Analytics.GetBestSession` | src/features/profile/Analytics.jsx:135-151 | null exactly for an empty list; otherwise a session with the greatest score and no earlier session scoring as much |
| `Analytics.FormatTime` | src/features/profile/Analytics.jsx:166-171 | reads back as the number of seconds, in the shape "Hh Mm Ss" with minutes and seconds below 60 |
| `Analytics.Analyze` | src/features/profile/Analytics.jsx:4-55 | no or empty sessions give three empty stats and two nulls; otherwise the stats of the week window (from Monday 00:00), the month window (from the first at 00:00) and the whole list, a best session, and a most-distracting site exactly when there are entries |
| `SessionContext.RemoveId` | src/context/SessionContext.jsx:102 | keeps exactly the sessions whose `_id \|\| id` differs from the id |
| `SessionContext.RemoveIdAppend` | src/context/SessionContext.jsx:102 | filtering distributes over concatenation, so the kept sessions keep their order |
| `SessionContext.RemoveIdIdempotent` | src/context/SessionContext.jsx:102 | deleting an id twice is the same as deleting it once |
| `SessionContext.AddThenRemove` | src/context/SessionContext.jsx:88-102 | deleting the id of a record just prepended restores what deleting it from the old list gives |
| `SessionContext.SessionStore.constructor` | src/context/SessionContext.jsx:8-15 | no sessions, no user, not loading, the stored token |
| `SessionContext.SessionStore.Logout` | src/context/SessionContext.jsx:55-59 | token removed, user null, sessions empty |
| `SessionContext.SessionStore.FetchSessions` | src/context/SessionContext.jsx:61-75 | nothing without a token; otherwise the list is replaced on success and the user is logged out on failure, and loading ends false |
| `SessionContext.SessionStore.SignIn` | src/context/SessionContext.jsx:25-53 | returns ok exactly for a successful reply; only then stores the token, sets the user and refetches; a failed reply changes nothing |
| `SessionContext.SessionStore.AddSession` | src/context/SessionContext.jsx:77-93 | throws "Not authenticated" without a token; on success the returned record is put first and the rest kept; on failure the list is unchanged |
| `SessionContext.SessionStore.DeleteSession` | src/context/SessionContext.jsx:95-107 | throws without a token; on success drops exactly the sessions with that id; on failure the list is unchanged |
| `Dashboard.OpenEntry` | src/features/dashboard/Dashboard.jsx:135-141 | a new entry has no duration text and no milliseconds, and its reason is the site name |
| `Dashboard.Closed` | src/features/dashboard/Dashboard.jsx:155-156 | a closed entry has the milliseconds and the rounded "Xm Ys" text of them, and keeps its time, reason and start |
| `Dashboard.DefaultTitle` | src/features/dashboard/Dashboard.jsx:184 | "Focus Session " followed by a numeral reading back as the number of saved sessions plus one |
| `Dashboard.SavedSession` | src/features/dashboard/Dashboard.jsx:183-191 | title never empty: the typed one when given, the default "Focus Session n+1" otherwise; startTime + 1000·duration = endTime; duration is the tick count; the entries and warnings are the recorder's; the date is the end instant, so the charts bucket the session on the day it ended |
| `Dashboard.ClockDisplay` | src/features/dashboard/Dashboard.jsx:235 | the clock text is the zero-padded hours, minutes (below 60) and seconds (below 60) of the tick count, joined by ":"; it reads back as the tick count and is 8 characters below 100 hours |
| `Dashboard.Dashboard.constructor` | src/features/dashboard/Dashboard.jsx:12-23 | every piece of state at its initial value |
| `Dashboard.Dashboard.Tick` | src/features/dashboard/Dashboard.jsx:25-29 | adds exactly 1 to the counter while running and nothing otherwise |
| `Dashboard.Dashboard.OpenModal` | src/features/dashboard/Dashboard.jsx:96 | clears the title and shows the dialog |
| `Dashboard.Dashboard.SetTitle` | src/features/dashboard/Dashboard.jsx:261 | only the title changes |
| `Dashboard.Dashboard.ConfirmStart` | src/features/dashboard/Dashboard.jsx:273 | hides the dialog and starts the counter; warnings, entries and the warning count are left as they were |
| `Dashboard.Dashboard.Start` | src/features/dashboard/Dashboard.jsx:97-126 | also records the start instant and clears entries, warnings and the warning count |
| `Dashboard.Dashboard.RecordDistraction` | src/features/dashboard/Dashboard.jsx:128-142 | appends exactly one open entry at the end, earlier entries unchanged; warnings and warning count grow by 1; the slot holds now; the modal shows |
| `Dashboard.Dashboard.HandleWarningDismiss` | src/features/dashboard/Dashboard.jsx:144-165 | with an open slot and a non-empty list only the last entry changes, closed with now − slot; the slot is cleared; without an open slot nothing changes but the modal, which is hidden in every case |
| `Dashboard.Dashboard.DeliverMessage` | src/features/dashboard/Dashboard.jsx:77-87 | records a distraction exactly for a DISTRACTION_WARNING from the extension in this window while running; the extension's own duration fields are ignored |
| `Dashboard.Dashboard.Stop` | src/features/dashboard/Dashboard.jsx:178-197 | a no-op when not running; otherwise stops, sends the saved session and resets counter, entries and warnings unless the add threw |
| `Dashboard.SecondWarningKeepsFirstOpen` | src/features/dashboard/Dashboard.jsx:130-156 | a second warning before a dismiss takes the single slot: the dismiss closes only the second entry and the first stays open |
| `Dashboard.WarningCountAcrossSessions` | src/features/dashboard/Dashboard.jsx:273 | two sessions started from the dialog with one warning each: the second warning is shown as number 2 |
| `Dashboard.WarningCountRestarts` | src/features/dashboard/Dashboard.jsx:101-103 | the same sessions started through `start`: the second warning is number 1 |
| `DayBuckets.Contribution` | src/features/dashboard/FocusChart.jsx:31-41 | the focus chart counts a session exactly when its duration is truthy and it has a date, adding round(duration/60) minutes; the distractions chart counts it exactly when it has a date, adding its entry count |
| `DayBuckets.Row` | src/features/dashboard/FocusChart.jsx:15-27 | n buckets, bucket k holding the total of day first + k |
| `DayBuckets.FindIndex` | src/features/dashboard/FocusChart.jsx:33-36 | none exactly when the day is not among the bucket days; otherwise its first position |
| `DayBuckets.BuildBuckets` | src/features/dashboard/FocusChart.jsx:13-47 | seven bucket days from today − 6 to today, today last, and each bucket the total of the sessions of its day |
| `DayBuckets.RowTotal` | src/features/dashboard/FocusChart.jsx:141 | the buckets add up to what every session of the span contributes: nothing counted twice, nothing outside the span counted |
| `DayBuckets.WeeklyTotal` | src/features/dashboard/DistractionsChart.jsx:130 | the weekly total is the contribution of the sessions of the last seven days |
| `DayBuckets.MaxValue` | src/features/dashboard/FocusChart.jsx:72 | `Math.max(...values, 1)`: at least 1, at least every bucket, and 1 or one of the buckets |
| `DayBuckets.DailyAverage` | src/features/dashboard/FocusChart.jsx:149-151 | the weekly total divided by 7, rounded to the nearest integer |
| `FocusChart.FormatMinutes` | src/features/dashboard/FocusChart.jsx:50-57 | reads back as the minutes; contains "h" exactly from 60 on; "Hh Mm" with M < 60 from 60 on, "Mm" below |
| `FocusChart.Chart` | src/features/dashboard/FocusChart.jsx:126-153 | the buckets are the seven day totals; the bar scale is `Math.max(...values, 1)` (at least 1 and every bucket); the three texts are `formatMinutes` of today's minutes, the seven days' minutes and the rounded average, so they read back as those numbers |
| `DistractionsChart.Chart` | src/features/dashboard/DistractionsChart.jsx:115-140 | the buckets are the seven day counts; the bar scale is `Math.max(...values, 1)` (at least 1 and every bucket); today's figure is today's count, the weekly figure the count over the seven days, the average that total over 7 rounded |
| `SessionCard.FormatSeconds` | src/features/dashboard/SessionCard.jsx:22-33 | reads back as the seconds; "Hh Mm Ss" when there are hours, else "Mm Ss" when there are minutes, else "Ss", with minutes and seconds below 60 |
| `SessionCard.FormatDuration` | src/features/dashboard/SessionCard.jsx:20-34 | a missing or zero duration is "0s", the same text the split gives for 0 |
| `SessionCard.DeleteFromCard` | src/features/dashboard/SessionCard.jsx:11-14 | deleting by the card's `_id \|\| id` removes the card's session and shortens the list |
| `SessionDetails.FindById` | src/features/dashboard/SessionDetails.jsx:11 | none exactly when no session carries the id; otherwise the first session that does |
| `SessionDetails.LinkFindsCard` | src/features/dashboard/SessionCard.jsx:38 | the card's link finds the card's own session when no earlier session shares its id |
| `SessionDetails.InlineDuration` | src/features/dashboard/SessionDetails.jsx:35-48 | the page's inline formatter gives the card's text for every duration, including "0s" for a missing or zero one |
| `SessionDetails.WarningsShown` | src/features/dashboard/SessionDetails.jsx:61 | the stored warning count, or 0 when missing |
| `SessionDetails.DurationBadge` | src/features/dashboard/SessionDetails.jsx:68 | a badge exactly for a non-empty duration text, showing that text |
| `SessionDetails.BadgeOfEntries` | src/features/dashboard/SessionDetails.jsx:68 | an entry opened and never closed shows no badge; a closed one shows its rounded duration |
| `SessionDetails.View` | src/features/dashboard/SessionDetails.jsx:11-80 | "not found" exactly when no session has the id; otherwise the found session's card duration, its warnings (0 when missing) and one badge per entry |

## Left out

- URL parsing is left out. `new URL(text).hostname` is an input: the `hostname` of `Background.Url`, with `None` when the constructor would throw.
- Time zones, daylight saving time and the `Date` methods are left out. Instants are whole local milliseconds, and days are `ms / 86400000`. Locale strings are inputs: `toLocaleTimeString` is an input, and `toLocaleDateString` is replaced by the instant.
- Calendar.MonthStartDay: the day of the month (`getDate()`) is an input, not derived from the instant.
- Dashboard.Dashboard.Stop: the saved `date` is the end instant rather than its locale date string. The session cache's `addSession` is awaited as one step.
- Dashboard.Dashboard.Start: the RESET_WARNINGS message to the extension is not sent. Chrome messaging is outside the model, and from a web page the call is caught anyway.
- Dashboard.Dashboard.HandleWarningDismiss: this updates the last entry as a value. The source mutates the entry object in place, and that object is shared with the previous state array; the aliasing is not modelled.
- Background.Extension.HandleDistractionDetected: the two `Date.now()` readings of one event (activation and detection) are taken as the same instant. The clock is assumed never to go backwards.
- Background.FiredSpaced: this is stated over the calls that reach the cooldown test (a parsed, unproductive URL), not over all events.
- Background.ReplayDetections: this replays one tab on a freshly loaded script (last warning at 0) with no activations, resets or removals in between; interleavings with those events are covered only by the per-call contracts.
- Dashboard.Dashboard: every method takes the instant of its event, and these instants are assumed never to go backwards (the open distraction slot is never in the future).
- SessionCard.DeleteFromCard: a card with neither `_id` nor `id` is not covered. The source would then call `deleteSession(undefined)`; cached sessions come from the server, which gives every session an `_id`.
- Chrome's notifications, tab queries, `tabs.sendMessage` and listener registration are left out. The content script's `postMessage` relay is also left out. The alert a call would send is that call's result.
- React's `setInterval`, effects and event listeners are left out. The tick and the message delivery are explicit method calls. The message listener's registration only while running is the `running` test in `DeliverMessage`.
- The window blur and visibility handlers are left out: they only store the dashboard's own hostname, which nothing reads.
- SessionContext.SessionStore.SignIn: the refetch uses the token just stored. In the source, the closure still holds the token read at the last render, and the `[token]` effect fetches again. Both are left out.
- SessionContext.SessionStore.DeleteSession: the error body of a failed delete is the reply's message. JSON parsing is not modelled.
- The network client (src/api.js) and the time-zone helpers (src/utils/timeUtils.js) are left out, along with the purely presentational components.
- Analytics.Group: reasons are kept in first-seen order. JavaScript enumerates integer-like keys (a reason such as "42") first, in ascending order. A reason naming an `Object.prototype` member (such as "constructor") would read the inherited value. Neither effect is modelled.
- Analytics.Analyze: the two highlights are stated as present or absent only. Their values are stated by `GetMostDistractionSite` and `GetBestSession`.
- Floating point is left out. Durations are whole seconds, so `Math.round(session.duration)` is the identity. `Number(...)` on non-numeric strings is not modelled. The focus score is exact (scaled by 2000). The bar-colour percentage thresholds are left out.
- SiteDetection.UnproductiveUnlessProductive: this states the substring rule for every hostname holding "instagram.com". The concrete fact that no productive domain occurs in "m.instagram.com" or "notinstagram.com" is not proved.

## Findings

| source | as written | input that shows it | evidently intended | confidence | as-written member | corrected member |
|---|---|---|---|---|---|---|
| public/chrome-extension/background.js:62 | `tabActivationTimes = {}` assigns to a `const` (line 23), so the RESET_WARNINGS handler throws after zeroing `totalWarnings`: the activation times survive and no response is sent | a tab activated at 1000 ms on an unproductive site, then RESET_WARNINGS, then activated again at 6000 ms: the warning reports 5000 ms | clear the activation times and reply `{status: "warnings_reset"}`, so the same warning reports 0 ms | not executed | `Background.StaleDurationAfterReset` | `Background.FreshDurationAfterReset` |
| src/features/dashboard/Dashboard.jsx:273 | the dialog's Start button only hides the dialog and sets `running`; `start` (lines 97-126), which clears the entries, the warnings and `warningCount`, is never called | one warning, stop (saved), start again from the dialog, one more warning: the warning modal shows count 2 | a new session restarts the count, so the modal shows 1 | not executed; intent read from the unused `start` | `Dashboard.WarningCountAcrossSessions` | `Dashboard.WarningCountRestarts` |
