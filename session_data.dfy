/**
 * The records the dashboard saves and the views read back: a focus session
 * and the distraction entries it holds. Fields the stored JSON may lack are
 * `Option`s, and the `x || default` fallbacks the views apply are the
 * functions below. Instants are whole milliseconds of local time.
 */
module SessionData {
  import opened Wrappers

  /** One distraction entry; `duration` and `durationMs` stay `None` until the warning is dismissed. */
  datatype Distraction = Distraction(
    time: string,
    reason: Option<string>,
    duration: Option<string>,
    durationMs: Option<nat>,
    startTime: int)

  /** A focus session; `mongoId` is the server's `_id`, `id` the client-side one. */
  datatype Session = Session(
    mongoId: Option<string>,
    id: Option<string>,
    title: string,
    startTime: Option<int>,
    endTime: Option<int>,
    duration: Option<nat>,
    distractions: Option<seq<Distraction>>,
    warnings: Option<nat>,
    date: Option<int>)

  /** `session._id || session.id`: the server id unless it is missing or empty. */
  function IdOf(s: Session): Option<string> {
    if s.mongoId.Some? && s.mongoId.value != [] then s.mongoId else s.id
  }

  /** `session.duration || 0`, in seconds. */
  function DurationOf(s: Session): nat {
    s.duration.GetOr(0)
  }

  /** `session.distractions || []`. */
  function DistractionsOf(s: Session): seq<Distraction> {
    s.distractions.GetOr([])
  }

  /** `session.distractions?.length || 0`. */
  function DistractionCount(s: Session): nat {
    |DistractionsOf(s)|
  }

  /** `distraction.durationMs || 0`. */
  function DistractionMs(d: Distraction): nat {
    d.durationMs.GetOr(0)
  }

  /** `distraction.reason || "Unknown"`. */
  function ReasonOf(d: Distraction): string {
    if d.reason.Some? && d.reason.value != [] then d.reason.value else "Unknown"
  }

  /** `session.startTime || session.date`: the instant the analytics windows compare. */
  function StampOf(s: Session): Option<int> {
    if s.startTime.Some? then s.startTime else s.date
  }

  /** The sum of `durationMs` over a list of entries, missing values counted as 0. */
  function TotalMs(ds: seq<Distraction>): nat {
    if ds == [] then 0 else TotalMs(ds[..|ds| - 1]) + DistractionMs(ds[|ds| - 1])
  }
}
