/** Shared vocabulary of the calendar notifier model: optional values, the
    exceptions the engine tells apart, instants and dates, and the event record
    that travels from the calendar source to the notification engine. */
module Common {

  datatype Option<+T> = None | Some(value: T)
  {
    /** Python's `d.get(key, default)` once the lookup is an Option. */
    function GetOr(default: T): T {
      match this
      case Some(v) => v
      case None => default
    }
  }

  /** A value, or the exception that the source raises instead of returning it. */
  datatype Result<+T> = Success(value: T) | Failure(error: Error)

  /** The exceptions of the source that the model distinguishes. */
  datatype Error =
    | RuntimeError(message: string)
    | ValueError(message: string)
    | TypeError(message: string)
    | AttributeError(name: string)
    | FileNotFoundError(path: string)
    | IndexError
    | ApiError            // a failure raised by the calendar API call itself
    | DeliveryError       // the messaging platform refused an operation

  /** How a handler or a scheduled job ends: normally, or with an exception. */
  datatype Outcome = Completed | Raised(error: Error)

  /** The message of the RuntimeError that signals expired calendar credentials. */
  const NEED_REAUTH: string := "NEED_REAUTH"

  /** The title used for an event without a summary. */
  const UNTITLED: string := "(без названия)"

  /** An instant, in whole seconds since the epoch. */
  type Time = int

  const MINUTE: int := 60
  const HOUR: int := 60 * MINUTE
  const DAY: int := 24 * HOUR
  const WEEK: int := 7 * DAY

  /** The calendar day (days since 1970-01-01) that instant `t` falls on in a
      zone `tzOffset` seconds ahead of UTC: Python's `t.astimezone(tz).date()`. */
  function LocalDay(t: Time, tzOffset: int): int {
    (t + tzOffset) / DAY
  }

  /** The instant at which `day` begins in that zone. */
  function DayStart(day: int, tzOffset: int): Time {
    day * DAY - tzOffset
  }

  /** A calendar event as the calendar client hands it over (a dict in the
      source); every key that the engine reads with `.get` is optional. */
  datatype Event = Event(
    evHash: Option<string>,
    summary: Option<string>,
    start: Option<Time>,
    end: Option<Time>,
    calendarName: Option<string>)
}
