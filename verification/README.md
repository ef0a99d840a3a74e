# Revolution watch face with calendar alerts — a Dafny model

This project models the core of a Pebble watch face. It has two parts.

The **calendar alert engine** (`src/calendar.c`):
- The phone sends the day's calendar as a batch of up to 15 event records. A batch may arrive split over several messages.
- The watch stores each record in `events[]`, in the slot its index names.
- When the batch is complete, the watch runs over it. Every timed event of today that has not started yet is armed in `timer_rec[]`, up to 10 of them.
- Only the first armed event is displayed. If it has not started, it gets a tick timer that fires at the next whole minute (60000 − seconds·1000 ms) and refreshes its countdown text ("In 5 mins", "In 1 hour", "Now"). When a tick finds the event starting, it shows "Now" and registers a 30-second dismiss timer instead, with a double buzz and the backlight. If the event starts at the very moment of planning, the 30-second dismiss is registered at once, without the buzz or the backlight.
- When the dismiss timer fires, the slot is disarmed and the tick path runs once for the lowest armed slot after it. That event is displayed and gets its timer only if it has not started yet. If it has, nothing is displayed, no timer is registered, and the armed slots after it wait for the next planning pass.
- A periodic request timer asks the phone for a fresh batch.

The **watch face** (`src/Revolution.c`):
- Four time digits and four date digits sit in image slots. A changed time digit slides out and the new one slides in.
- The battery icon depends on the charge level and on whether the charger is plugged in.
- When the Bluetooth link is lost, the watch buzzes twice if the link is still down five seconds later, and only once per loss of the link.

## How the model is built

- **Globals as fields.** The engine's C globals are the fields of the class `CalendarEngine.Calendar`. `events[]` and `timer_rec[]` are two 15-slot arrays. Each C function that reads or writes those globals is a method of that class. Three stay outside it: `a_to_i` is the module-level method `CalendarText.AToI`, `is_date_today` is the predicate `CalendarText.IsDateToday`, and the start-time arithmetic of the tick path is the module-level method `CalendarEngine.AlertInterval`.
- **Specification functions.** `calendar_plan.dfy` holds a pure function for each C function that walks the tables: `queue_alert` (`Queued`, `QueueEffects`), `determine_if_alarm_needed` (`PlanStep`, `PlanUpto`), `clear_timers` (`ClearAll`, `CancelsBefore`), `process_events` (`Process`), `received_message` (`Receive`, `CopyRows`) and the dismiss and tick paths of `handle_calendar_timer` (`DismissFired`, `TickFired`). Each method is proved to leave the state that function describes, and the lemmas about the engine are proved against these functions. `calendar_request` and the request branch of `handle_calendar_timer` are short enough that their methods state the result directly. `a_to_i`, `is_date_today` and `set_relative_desc` are functions of `calendar_text.dfy`.
- **Platform calls as effects.** Timer registration and cancellation, the display, messages to the phone, the status icon, vibration and the backlight are not performed. Each method returns them, in order, as a list of `Effect` values.
- **Clock as a parameter.** The clock is a `Clock` value (hour, minute, second and today's "MM/DD") passed to each callback.
- **No free outbox.** `app_message_outbox_begin` not returning a dictionary is the boolean `outboxAvailable`.
- **Undefined behaviour made explicit.** Where the C code would index `events[]` or `timer_rec[]` at 15 or more, the model stops and returns `OutOfRange(i)`:
  - a record index of 15 or more;
  - `max_entries` above 15;
  - the cookies 25 and 115.
- **Ghost timer bookkeeping.** The ghost set `pending` holds the alert timers (dismiss and tick) that are registered and have neither fired nor been cancelled. `PendingAfter` replays a list of platform calls over that set: registering a dismiss or tick cookie adds it, cancelling a handle removes its cookie. Every method that touches the set leaves it exactly as the replay of the calls it returns says. `SingleOwner` is the engine's guarantee that at most one such timer exists and that an active slot holds its handle; the methods are proved to keep it.
- **The watch face.** The slots are the classes `WatchDigits.Slot` and `WatchDigits.TimeSlot`, and the face is `WatchDigits.WatchFace`. The battery and Bluetooth globals are the class `WatchStatus.Status`.
- **Clients.** `scenarios.dfy` drives a newly built `Calendar` through a one-event morning (batch, two ticks, dismiss) and a newly built `WatchFace` through its first minute tick, using only the methods' contracts.

## Model

| member | source | states |
|---|---|---|
| CalendarTypes.DecodeCookie | src/calendar.c:245-307 | the cookie ranges handle_calendar_timer tests, in its order (10..25 dismiss, 100..115 tick, 1 request); slot numbers reach 15, and every recognised cookie re-encodes to itself |
| CalendarTypes.CookieRoundTrip | src/calendar.c:102-104 | the dismiss, tick and request cookies that queue_alert and the tick path register decode back to the slot and kind they were made for |
| CalendarTypes.OwnerIndex | src/calendar.c:245-263 | an alert cookie names the timer_rec slot it belongs to, below 15 |
| CalendarText.DigitRunFrom | src/calendar.c:41-50 | a_to_i reads the longest run of decimal digits within `len` characters, stopping at the first non-digit |
| CalendarText.AToI | src/calendar.c:41-50 | the accumulating loop of a_to_i returns the number spelled by that digit run |
| CalendarText.DigitsValueBound | src/calendar.c:41-50 | a run of k digits is worth less than 10^k |
| CalendarText.TwoDigitValue | src/calendar.c:134-138 | a two-character read is at most 99; it is 0 when the first character is not a digit and that digit alone when the second is not |
| CalendarText.DigitsValueShift | src/calendar.c:41-50 | the value of a run of k digits depends only on those k characters |
| CalendarText.LeadingValueShift | src/calendar.c:41-50 | a_to_i reads only its digit run and the non-digit that stops it: two strings that agree on those characters give the same run and the same value |
| CalendarText.LeadingValueSuffix | src/calendar.c:41-50 | a_to_i(&s[pos], n) returns what a_to_i does on the string that starts at s[pos] |
| CalendarText.DecimalText | src/calendar.c:75-80 | the "%ld" text of a non-negative number is a non-empty string of digits |
| CalendarText.DecimalTextRoundTrip | src/calendar.c:41-50 | reading printed digits back with a_to_i returns the number printed |
| CalendarText.DigitsValueOfDecimal | src/calendar.c:75-80 | the digits "%ld" prints spell the number |
| CalendarText.DecimalTextLength | src/calendar.c:75-80 | a number below 10^k prints in at most k characters |
| CalendarText.DateTodayIff | src/calendar.c:55-65 | is_date_today holds exactly when the first five characters of the start date equal today's "MM/DD" |
| CalendarText.StartMs | src/calendar.c:130-140 | the start time of day in milliseconds is bounded by 99 h 99 min |
| CalendarText.ParseStartMs | src/calendar.c:130-140 | the position heuristic and the two a_to_i calls compute StartMs |
| CalendarText.StartTimeFormats | src/calendar.c:130-138 | "MM/DD/YY HH:MM", "MM/DD HH:MM" and "MM/DD H:MM" all give the hour and minute written |
| CalendarText.TwoDigitsAt | src/calendar.c:41-50 | two digit characters read as tens and ones |
| CalendarText.CountdownOf | src/calendar.c:67-82 | set_relative_desc says "Now" exactly at 0; "In 1 min" below two minutes; "In n mins" from 2 up to 59 minutes to go, n being the whole minutes still to go; "In 1 hour" below two hours; otherwise "In n hours" with n whole hours |
| CalendarText.RelativeTextFits | src/calendar.c:67-82 | every countdown text of a same-day event fits the 21-byte relative_desc buffer with its NUL |
| CalendarPlan.PendingAfterConcat | src/calendar.c:100-104 | bookkeeping lemma about the replay of the alert registrations here and the cancels of clear_timers (src/calendar.c:175): replaying two runs of platform calls one after the other is replaying their concatenation |
| CalendarPlan.PendingAfterQuiet | src/calendar.c:100-104 | bookkeeping lemma about the same replay: calls that neither register an alert timer nor cancel a handle leave the outstanding timers unchanged |
| CalendarPlan.AlertDelta | src/calendar.c:140-149 | alert_event is the uint32 difference reinterpreted as int32; for a real clock it is the start time minus now |
| CalendarPlan.NextTimer | src/calendar.c:101-105 | the first alert registers a 30 s dismiss timer when due now, otherwise a tick timer for its own slot that fires on the next whole minute |
| CalendarPlan.Queued | src/calendar.c:87-99 | queue_alert marks the slot active under the event title and touches nothing else unless it is the first alert |
| CalendarPlan.QueuePending | src/calendar.c:93-106 | queue_alert adds an outstanding alert timer only for the first alert of a pass that is not over, and that timer is the NextTimer cookie of its slot |
| CalendarPlan.PlanStepShift | src/calendar.c:189-192 | one determine_if_alarm_needed step depends only on the table and alerts_issued, not on the effects or alarms counted before it |
| CalendarPlan.FirstQualifying | src/calendar.c:112-165 | the first entry that passes the all-day, today and not-started filters |
| CalendarPlan.PlanCounts | src/calendar.c:152-162 | after a pass alerts_issued counts every qualifying entry, and the alarms set are that count capped at MAX_ALLOWABLE_ALERTS |
| CalendarPlan.PlanShape | src/calendar.c:112-165 | starting from a cleared table, a pass arms slot j exactly when entry j qualifies and fewer than 10 earlier entries did, under entry j's title; it leaves later slots untouched |
| CalendarPlan.PlanEffects | src/calendar.c:87-107 | only the first qualifying entry displays its text and registers a timer; with none, the pass makes no call |
| CalendarPlan.PlanActiveCount | src/calendar.c:152-162 | the number of armed slots below m is the number of qualifying entries below m, capped at 10 |
| CalendarPlan.ClearAllSpec | src/calendar.c:170-179 | clear_timers leaves no slot active, empties the texts of every slot that was active, and cancels one handle per active slot |
| CalendarPlan.ProcessArms | src/calendar.c:184-196 | after process_events slot j is active exactly when no request is outstanding, j is below max_entries, entry j qualifies and fewer than 10 earlier entries did |
| CalendarPlan.ProcessCapsAlerts | src/calendar.c:184-196 | process_events never leaves more than MAX_ALLOWABLE_ALERTS slots active |
| CalendarPlan.StoreAll | src/calendar.c:218-224 | copying records by index keeps the 15-slot table size |
| CalendarPlan.LastWith | src/calendar.c:218-224 | the last record addressed to a slot |
| CalendarPlan.StoreAllLastWriter | src/calendar.c:218-224 | after the copy each slot holds the last record addressed to it, or what it held before |
| CalendarPlan.StoreAllSplit | src/calendar.c:209-224 | copying a batch in two parts leaves the same table as copying it at once |
| CalendarPlan.GoodPrefix | src/calendar.c:218-220 | the records copied before one whose index falls outside events[] |
| CalendarPlan.CopyRows | src/calendar.c:218-226 | the copy loop fills rows from `start` up to `count` at most; it completes the batch exactly when received_rows reaches count; an out-of-table index stops it |
| CalendarPlan.Receive | src/calendar.c:201-228 | a tuple starts a new batch (count from its first byte) once all rows are in, otherwise it continues the batch; received_rows never passes count |
| CalendarPlan.ReceiveHeader | src/calendar.c:209-226 | a header tuple whose records fit starts a batch of first-byte rows, stores its records, and counts them as received |
| CalendarPlan.ReceiveContinuation | src/calendar.c:209-226 | a non-empty continuation tuple that fits stores its records and advances received_rows by their number |
| CalendarPlan.ContinuationsFill | src/calendar.c:209-234 | any number of non-empty continuation tuples store their records in order and advance received_rows by their total; the batch completes exactly when that reaches count |
| CalendarPlan.ChunkingIsTransparent | src/calendar.c:209-234 | a header tuple followed by any number of non-empty continuation tuples leaves the same table, count and received_rows as one tuple with all the records, and completes the batch |
| CalendarPlan.OnlyLastTupleCompletes | src/calendar.c:228-234 | in such a split batch every tuple before the last leaves the batch incomplete, so max_entries is set and process_events runs only after the last |
| CalendarPlan.NextActive | src/calendar.c:250-257 | the dismiss path hands over to the lowest active slot above the dismissed one and below max_entries |
| CalendarPlan.TickPending | src/calendar.c:265-301 | the tick path adds an outstanding alert timer exactly when its slot is active and the event is not over: a dismiss cookie at the start time, otherwise the next tick |
| CalendarPlan.ClearedCallbacksAreNoOps | src/calendar.c:245-265 | after clear_timers, a stale tick or dismiss callback changes nothing and makes no call |
| CalendarPlan.DismissHandOff | src/calendar.c:245-301 | the dismiss completes; something is displayed exactly when the lowest active slot after it, below max_entries, has not started; if that event has started, the calls are only the short buzz and the backlight and the table is only slot num disarmed; no slot other than num and that one changes |
| CalendarPlan.NineOClockCountdown | src/calendar.c:262-301 | an event at 09:00 ticks "In 2 mins" at 08:58, "In 1 min" at 08:59, then "Now" with the 30 s dismiss, a double buzz and the backlight |
| CalendarEngine.AlertInterval | src/calendar.c:130-149 | the alert interval computed from the start date and the clock is AlertDelta |
| CalendarEngine.Calendar.constructor | src/calendar.c:3-16 | the zero-initialised globals: `events[]` and `timer_rec[]` are newly allocated and empty, no counters, no request outstanding, and no alert timer is pending |
| CalendarEngine.Calendar.CalendarRequest | src/calendar.c:21-29 | the request with key -1 and the 24h clock style is sent, the status shows a request, and the batch counters restart |
| CalendarEngine.Calendar.SetRelativeDesc | src/calendar.c:67-82 | only slot num's relative text changes, to the countdown text |
| CalendarEngine.Calendar.QueueAlert | src/calendar.c:87-107 | the slot is armed as Queued says, with QueueEffects' calls; the pending set is the replay of those calls, so the first alert's timer becomes the one pending alert timer, owned by its slot |
| CalendarEngine.Calendar.DetermineIfAlarmNeeded | src/calendar.c:112-165 | the step PlanStep describes; alerts_issued never decreases; the pending set is the replay of its calls; the single-owner rule extends to one more slot |
| CalendarEngine.Calendar.ClearTimers | src/calendar.c:170-179 | the table becomes ClearAll of the old one, one cancel per active slot in index order; the pending set loses exactly the cancelled cookies, so none is left |
| CalendarEngine.Calendar.ProcessEvents | src/calendar.c:184-196 | the new table, counter, `event` copy and calls are those of Process; the pending set is the replay of those calls; the single-owner rule is kept |
| CalendarEngine.Calendar.DetermineAll | src/calendar.c:189-194 | the loop of process_events is PlanUpto over min(max_entries, 15) entries; it reaches events[15] when max_entries exceeds 15; the pending set follows the replay of the calls |
| CalendarEngine.Calendar.DetermineNext | src/calendar.c:189-192 | one turn of the process_events loop extends the pass from PlanUpto over `num` entries to `num`+1, and the pending set stays the replay of all calls so far |
| CalendarEngine.Calendar.ReceivedMessage | src/calendar.c:201-235 | without a calendar tuple nothing changes; with one, the reply status, the table and counters of Receive, and on a complete batch max_entries, the cleared request flag and the Process result; the pending set is the replay of the calls; the single-owner rule is kept |
| CalendarEngine.Calendar.StoreChunk | src/calendar.c:205-226 | the table and counters after one tuple are those of Receive |
| CalendarEngine.Calendar.CopyRecords | src/calendar.c:218-226 | the copy loop leaves the table, row count and outcome of CopyRows |
| CalendarEngine.Calendar.TickAlert | src/calendar.c:262-304 | an inactive slot is left alone; an active one gets the TickRecord update and TickEffects' calls; the pending set gains exactly the timer those calls register |
| CalendarEngine.Calendar.DismissAlert | src/calendar.c:245-260 | the table and calls of DismissFired: deactivate, then tick the next active slot with a short buzz and the backlight; the pending set is the replay of those calls |
| CalendarEngine.Calendar.HandleCalendarTimer | src/calendar.c:242-326 | by cookie kind: dismiss and tick as DismissFired and TickFired; request sends and re-arms the 600003 ms timer, or retries after 1000 ms without an outbox; others do nothing; the pending set is the old one without the fired cookie, followed by the replay of the calls made; the single-owner rule is kept |
| CalendarEngine.Calendar.RetireTimer | src/calendar.c:242-244 | the timer whose callback runs leaves the pending set; if it was the one outstanding alert timer, none is left |
| CalendarEngine.Calendar.RequestTimerFired | src/calendar.c:307-325 | with an outbox, calendar_request plus the periodic re-registration; without, a 1000 ms retry and no change; no call touches the pending alert timers |
| WatchDigits.CRem | src/Revolution.c:263-275 | C's `%` on int: the remainder is smaller than the divisor and equals Dafny's for non-negative values |
| WatchDigits.CDivRem | src/Revolution.c:263-275 | (a/b)*b + a%b == a with C's truncating division; a negative a gives a non-positive remainder |
| WatchDigits.Slot.constructor | src/Revolution.c:682-688 | a new slot is numbered and empty |
| WatchDigits.Slot.Load | src/Revolution.c:218-234 | loading succeeds exactly for a digit 0..9 into an empty slot, and only then changes the slot |
| WatchDigits.Slot.Unload | src/Revolution.c:236-246 | the slot is empty afterwards |
| WatchDigits.ReloadSucceeds | src/Revolution.c:218-246 | unloading then loading a valid digit always shows that digit; loading into a full slot keeps it |
| WatchDigits.UpdateCycle | src/Revolution.c:277-401 | from rest, an update shows the digit at once when the slot is empty or already shows it; otherwise it shows after the slide-out and slide-in stop, back at rest; updates during the animation are dropped |
| WatchDigits.TimeSlot.constructor | src/Revolution.c:682-688 | a new time slot is empty and at rest |
| WatchDigits.TimeSlot.Update | src/Revolution.c:277-295 | the slot's view becomes AfterUpdate of the old view: unchanged when it already shows the digit or is animating; an empty slot loads the digit at once; otherwise the digit waits in new_state and the slide-out starts |
| WatchDigits.TimeSlot.SlideOutStopped | src/Revolution.c:386-401 | the view becomes AfterSlideOut of the old view: with nothing waiting the animation ends; otherwise the slot is unloaded, the waiting digit loaded and new_state cleared for the slide-in |
| WatchDigits.TimeSlot.SlideInStopped | src/Revolution.c:341-347 | the view becomes AfterSlideIn of the old view: the animation has ended and nothing else changes |
| WatchDigits.DisplayHour | src/Revolution.c:249-261 | the 24-hour style keeps the hour; the 12-hour style gives 1..12, congruent to the hour modulo 12 |
| WatchDigits.TwoDigitSplit | src/Revolution.c:263-275 | the two slots of a row show the last two decimal digits of the value |
| WatchDigits.HourDigits | src/Revolution.c:249-275 | every hour 0..23 splits into valid digits; in 12-hour style 0 shows as 12 and 13..23 as 1..11 |
| WatchDigits.TimeFramesTile | src/Revolution.c:297-302 | the four time frames lie inside the time layer and never overlap |
| WatchDigits.DateSlotShows | src/Revolution.c:456-468 | a date slot ends showing a valid digit; an invalid digit leaves it empty unless already equal |
| WatchDigits.UpdateDateSlot | src/Revolution.c:456-468 | the slot's state becomes DateSlotAfter of the old state: kept when it already equals the digit, otherwise unloaded and the digit loaded |
| WatchDigits.NewTimeSlots | src/Revolution.c:682-688 | four fresh, distinct time slots, numbered by position, empty and at rest |
| WatchDigits.NewDateSlots | src/Revolution.c:713-717 | four fresh, distinct date slots, numbered by position and empty |
| WatchDigits.WatchFace.constructor | src/Revolution.c:674-717 | the face holds four time slots and four date slots, all newly allocated with their arrays, distinct, numbered by position, empty |
| WatchDigits.WatchFace.DisplayTimeValue | src/Revolution.c:263-275 | the right-hand slot of the row gets the ones digit and the left-hand slot the tens digit |
| WatchDigits.WatchFace.DisplayTime | src/Revolution.c:249-261 | the top row shows the display hour, the bottom row the minute |
| WatchDigits.WatchFace.DisplayDateValue | src/Revolution.c:442-454 | as DisplayTimeValue, over the date slots |
| WatchDigits.WatchFace.DisplayDate | src/Revolution.c:429-440 | day then month (1-based); for a valid date the four slots spell DD MM |
| WatchDigits.WatchFace.HandleMinuteTick | src/Revolution.c:842-860 | every minute each time slot's view becomes AfterUpdate of the display hour's or the minute's digit; when the day changed, each date slot becomes DateSlotAfter of its digit of mday and mon+1, spelling DD MM for a valid date; otherwise the date slots are unchanged |
| Scenarios.StandupBatch | src/calendar.c:184-234 | a fresh engine given one 09:00 record at 08:58:30 completes the batch and arms slot 0; the calls are the display of "In 1 min", the tick at 30000 ms and the alert-set status |
| Scenarios.ReplyRegistersTick | src/calendar.c:100-104 | after that reply the tick is the one alert timer outstanding |
| WatchStatus.BatteryIconAfter | src/Revolution.c:512-528 | plugged in with the status hidden gives the charging or full icon; otherwise levels 10, 20, ..., 100 get their icon and any other level keeps the old one |
| WatchStatus.BatteryHidden | src/Revolution.c:529-533 | the battery layer is hidden exactly when unplugged, above 10 % and the status is not showing |
| WatchStatus.AtMostOneVibration | src/Revolution.c:633-648 | without a reconnection, however often the link drops or the check fires, the watch buzzes at most once, and never once it has buzzed |
| WatchStatus.ReconnectRearms | src/Revolution.c:642-648 | a reconnection clears the guard, so the next loss of the link buzzes again |
| WatchStatus.Status.constructor | src/Revolution.c:168-190 | the initial globals |
| WatchStatus.Status.DrawBatteryIcon | src/Revolution.c:512-534 | the icon of BatteryIconAfter and the hide rule |
| WatchStatus.Status.BatteryStateHandler | src/Revolution.c:621-626 | the charge state is recorded and the icon redrawn under the hide rule |
| WatchStatus.Status.ShowStatus | src/Revolution.c:590-600 | while the status shows, the battery layer is never hidden |
| WatchStatus.Status.HideStatus | src/Revolution.c:576-579 | after the status hides, the battery stays visible only when plugged in or at 10 % or less |
| WatchStatus.Status.BtVibrate | src/Revolution.c:633-639 | two short pulses, at 0 and 350 ms, only when the link is down and the guard is clear, which it then sets |
| WatchStatus.Status.BtConnectionHandler | src/Revolution.c:642-648 | the pending check is cancelled; a loss schedules the 5000 ms check; a reconnection clears the guard |

## Left out

- Graphics: the layers, bitmaps, animations and their timing, fonts, `strftime` text, the week number, the small time, the seconds and day-of-week items, and `draw_bt_icon` are left out. Only the state the handlers keep is modelled.
- Byte framing of a calendar tuple: `memcpy` of `sizeof(Event)` bytes from the tuple's data is not modelled. A `Chunk` carries its first byte plus the records as decoded from offset 1 (a new batch) and from offset 0 (a continuation). The loop bound `j < tuple->length` becomes "records remain". In C a record is copied whenever its first byte lies inside the tuple, so the 72-byte `memcpy` can read past the tuple's end, and `j` is a `uint8_t` that would wrap after four records. The model assumes every record is whole and that a tuple holds only whole records.
- Strings past their NUL: `CharAt` reads past a string's end as NUL. The arrays of an `Event` are copied from the phone's bytes, so what follows the first NUL is whatever the phone sent. The model assumes NUL bytes there. This matters only to `is_date_today` and the start-time reads on a start date shorter than they look.
- `calendar_init`, `init`, `deinit`, `main`, the message and tap subscriptions, and `set_event_status`/`display_event_text` as drawing are left out. The latter two become `SetStatus` and `Display` effects.
- Time: the C code calls `localtime` several times within one callback. The model reads one `Clock` per callback. `ValidClock` (hour < 24, minute < 60, second <= 60 for a leap second) is what the platform guarantees, and `AlertDelta` states its exact value only under it.
- Memory: buffer overruns by `strncpy`/`memset` are not modelled. Titles and texts are unbounded strings. `RelativeTextFits` shows the countdown text fits its buffer.
- CalendarEngine.Calendar.QueueAlert: its `title` argument is accepted but not read. The C code copies the global `event.title`, and so does the model.
- CalendarEngine.Calendar.ClearTimers: only active slots are reset and cancelled. A slot already deactivated by a dismiss keeps its texts and handle, as in the C code. The C code's "clear existing timers" reads as if every slot were cleared.
- Timer handles: a registered timer's handle is modelled by its cookie (`Timer(cookie)`). Two registrations with the same cookie therefore share a handle value, and cancelling a stale handle is an effect with no modelled outcome.
- The ghost `pending` set and `SingleOwner` are an abstraction of the platform's timer list. `HandleCalendarTimer` keeps the rule only when the fired cookie was pending. Every method states its new `pending` set as the replay of the calls it returns. A stale callback for a timer that was cancelled but had already fired is outside what it states.
- Undefined behaviour: an event index of 15 or more, `max_entries` above 15, and the cookies 25 and 115 index past the tables in C. The model reports `OutOfRange` and stops there, without guessing what the C code would do.
- WatchDigits.WatchFace.DisplayDate: only the day-then-month order is modelled, because `USE_AMERICAN_DATE_FORMAT` is off in this build.
- The event fields `has_location` and `location` are not modelled, as the engine never reads them.
- WatchStatus.AtMostOneVibration: the vibrate check is allowed to fire at any point of an input sequence, even when no check is scheduled. This over-approximates the platform timers, and the bound holds regardless.
- `show_status`/`hide_status` are modelled only for their effect on the battery layer. Their other layers are graphics, and the 5 s hide timer is not an effect in the model.
