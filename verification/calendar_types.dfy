/**
 * Types and constants shared by the calendar alert engine (src/common.h).
 *
 * Platform services (timers, the outbox, vibration, the backlight, the display
 * sink and the status icon) are not called: every such call is recorded as an
 * `Effect` value, in the order the C code makes it.
 */
module CalendarTypes {

  const MAX_EVENTS: nat := 15
  const MAX_ALLOWABLE_ALERTS: nat := 10

  // Dictionary keys and timer cookies.
  const REQUEST_CALENDAR_KEY: int := 1
  const CLOCK_STYLE_24H: int := 2
  const ALERT_EVENT: int := 10
  /** Base of the per-minute tick cookies (a bare literal 100 in calendar.c). */
  const TICK_EVENT: int := 100

  // Values handed to set_event_status.
  const STATUS_REQUEST: int := 1
  const STATUS_REPLY: int := 2
  const STATUS_ALERT_SET: int := 3

  // Delays handed to app_timer_register, in milliseconds.
  const REQUEST_CALENDAR_INTERVAL_MS: int := 600003
  const REQUEST_RETRY_MS: int := 1000
  const ALERT_HOLD_MS: int := 30000
  const MINUTE_MS: int := 60000

  /** A C `uint8_t`. */
  type Byte = x: int | 0 <= x < 256

  datatype Option<T> = None | Some(value: T)

  /**
   * One calendar entry as the companion device sends it. Strings are the
   * contents of the C character arrays up to their terminating NUL. The
   * location and alarm fields are carried on the wire but never read by the
   * engine, so they are not part of the model.
   */
  datatype Event = Event(index: Byte, title: string, allDay: bool, startDate: string)

  /**
   * The CALENDAR_RESPONSE_KEY tuple of one message. The byte framing is not
   * modelled: the payload is given as its first byte and as the records it
   * holds when read from offset 1 (after a count byte) and from offset 0.
   */
  datatype Chunk = Chunk(firstByte: Byte, recordsAfterFirst: seq<Event>, recordsFromStart: seq<Event>)

  /** A zero-initialised `Event` (a C global before anything is received). */
  const EMPTY_EVENT := Event(0, "", false, "")

  /** A timer handle; `Timer(c)` is the timer that was registered with cookie `c`. */
  datatype Handle = NoTimer | Timer(cookie: int)

  /** One entry of `timer_rec[]`. */
  datatype TimerRecord = TimerRecord(handle: Handle, eventDesc: string, active: bool, relativeDesc: string)

  const EMPTY_RECORD := TimerRecord(NoTimer, "", false, "")

  /** The wall clock as `localtime` reports it, plus today's "MM/DD" as strftime prints it. */
  datatype Clock = Clock(hour: int, min: int, sec: int, today: string)

  /** The output of strftime "%m/%d": two digits, a slash, two digits. */
  predicate IsMonthDay(s: string) {
    |s| == 5 && s[2] == '/' && forall i :: 0 <= i < 5 && i != 2 ==> '0' <= s[i] <= '9'
  }

  /** What `localtime` can report (tm_sec may be 60 on a leap second). */
  predicate ValidClock(c: Clock) {
    0 <= c.hour < 24 && 0 <= c.min < 60 && 0 <= c.sec <= 60 && IsMonthDay(c.today)
  }

  /** A call into the platform, recorded instead of performed. */
  datatype Effect =
    | Register(delayMs: int, cookie: int)               // app_timer_register(delay, handle_calendar_timer, cookie)
    | Cancel(handle: Handle)                           // app_timer_cancel
    | Display(text: string, relative: string)          // display_event_text
    | SendRequest(requestCalendar: int, clockStyle: int) // dict_write_* of the request, then app_message_outbox_send
    | SetStatus(status: int)                           // set_event_status
    | ShortPulse                                       // vibes_short_pulse
    | DoublePulse                                      // vibes_double_pulse
    | Backlight                                        // light_enable_interaction

  /**
   * How a call ended. `OutOfRange(i)` marks the point where the C code would
   * index one of the 15-slot tables with `i >= MAX_EVENTS`; C leaves what
   * happens next undefined, and the model stops there.
   */
  datatype Outcome = Completed | OutOfRange(index: int)

  /** The meaning of a timer cookie, as handle_calendar_timer decodes it. */
  datatype Cookie = Request | Dismiss(num: int) | Tick(num: int) | Unrecognised

  /**
   * The range tests of handle_calendar_timer, in the order it makes them.
   * Both ranges include `+ MAX_EVENTS`, so `num` can be 15.
   */
  function DecodeCookie(c: int): (k: Cookie)
    ensures k.Dismiss? || k.Tick? ==> 0 <= k.num <= MAX_EVENTS
    ensures k != Unrecognised ==> EncodeCookie(k) == c
  {
    if ALERT_EVENT <= c <= ALERT_EVENT + MAX_EVENTS then Dismiss(c - ALERT_EVENT)
    else if TICK_EVENT <= c <= TICK_EVENT + MAX_EVENTS then Tick(c - TICK_EVENT)
    else if c == REQUEST_CALENDAR_KEY then Request
    else Unrecognised
  }

  /** The cookie the engine registers for each kind of callback. */
  function EncodeCookie(k: Cookie): int {
    match k
    case Request => REQUEST_CALENDAR_KEY
    case Dismiss(n) => ALERT_EVENT + n
    case Tick(n) => TICK_EVENT + n
    case Unrecognised => 0
  }

  /** Decoding undoes encoding for every cookie whose slot number is in the decoded ranges. */
  lemma CookieRoundTrip(k: Cookie)
    requires k != Unrecognised
    requires k.Dismiss? || k.Tick? ==> 0 <= k.num <= MAX_EVENTS
    ensures DecodeCookie(EncodeCookie(k)) == k
  {
  }

  /** A dismiss or tick cookie for one of the 15 real slots. */
  predicate IsAlertCookie(c: int) {
    var k := DecodeCookie(c);
    (k.Dismiss? || k.Tick?) && k.num < MAX_EVENTS
  }

  /** The slot an alert cookie belongs to. */
  function OwnerIndex(c: int): (i: nat)
    requires IsAlertCookie(c)
    ensures i < MAX_EVENTS
  {
    DecodeCookie(c).num
  }
}
