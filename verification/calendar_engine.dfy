/**
 * The calendar alert engine of src/calendar.c as a class: the C globals are
 * its fields, `events[]` and `timer_rec[]` its two 15-slot arrays, and each C
 * function a method. Every method is proved to leave the state the matching
 * function of calendar_plan.dfy describes, and to return the platform calls
 * it makes, in order.
 *
 * The ghost set `pending` holds the cookies of the alert timers (dismiss and
 * tick) that are registered and have neither fired nor been cancelled.
 * `PendingAfter` replays the Register and Cancel calls a method returns, and
 * every method leaves `pending` as that replay says. `SingleOwner` is the
 * guarantee that at most one such timer exists and that the slot it belongs
 * to is active and holds its handle.
 */
module CalendarEngine {
  import opened CalendarTypes
  import opened CalendarText
  import opened CalendarPlan

  /**
   * `alert_event` as determine_if_alarm_needed and the tick path compute it:
   * the start time parsed with a_to_i, minus the time of day, in 32 bits.
   */
  method AlertInterval(startDate: string, now: Clock) returns (alertEvent: int)
    ensures alertEvent == AlertDelta(startDate, now)
  {
    var eventInMs := ParseStartMs(startDate);
    var difference := (eventInMs - NowMs(now)) % TWO_32;
    alertEvent := if difference < TWO_31 then difference else difference - TWO_32;
  }

  /** A set with at most one element that holds `c` is `{c}`. */
  lemma SingletonOf(s: set<int>, c: int)
    requires |s| <= 1 && c in s
    ensures s == {c}
  {
    assert |s - {c}| == |s| - 1 == 0;
    assert s - {c} == {};
  }

  class Calendar {
    const events: array<Event>
    const timerRec: array<TimerRecord>
    /** The global `event`: the last entry determine_if_alarm_needed copied. */
    var event: Event
    var count: Byte
    var receivedRows: Byte
    var maxEntries: nat
    var alertsIssued: int
    var requestOutstanding: bool
    ghost var pending: set<int>

    predicate Valid()
      reads this
    {
      events.Length == MAX_EVENTS && timerRec.Length == MAX_EVENTS
    }

    /** Slot `OwnerIndex(c)` is active and holds the handle of the timer with cookie `c`. */
    ghost predicate Owns(c: int)
      reads timerRec
    {
      IsAlertCookie(c) && timerRec.Length == MAX_EVENTS
      && timerRec[OwnerIndex(c)].active && timerRec[OwnerIndex(c)].handle == Timer(c)
    }

    /** At most one alert timer is outstanding, and an active slot owns it. */
    ghost predicate SingleOwner()
      reads this`pending, timerRec
    {
      |pending| <= 1 && forall c :: c in pending ==> Owns(c)
    }

    /**
     * The ownership rule part-way through a pass of process_events: the
     * owner, if any, is among the first `n` slots, and there is none before
     * the first alert is issued.
     */
    ghost predicate OwnedBelow(n: int)
      reads this`pending, this`alertsIssued, timerRec
    {
      && |pending| <= 1 && (alertsIssued == 0 ==> pending == {})
      && forall c :: c in pending ==> Owns(c) && OwnerIndex(c) < n
    }

    /** The outstanding alert timers are those the calls `fx` leave, starting from `before`. */
    ghost predicate Replays(before: set<int>, fx: seq<Effect>)
      reads this`pending
    {
      pending == PendingAfter(before, fx)
    }

    /** The zero-initialised globals. */
    constructor ()
      ensures Valid() && SingleOwner()
      ensures fresh(events) && fresh(timerRec) && pending == {}
      ensures events[..] == seq(MAX_EVENTS, _ => EMPTY_EVENT)
      ensures timerRec[..] == seq(MAX_EVENTS, _ => EMPTY_RECORD)
      ensures event == EMPTY_EVENT && count == 0 && receivedRows == 0 && maxEntries == 0
      ensures alertsIssued == 0 && !requestOutstanding
    {
      events := new Event[MAX_EVENTS](_ => EMPTY_EVENT);
      timerRec := new TimerRecord[MAX_EVENTS](_ => EMPTY_RECORD);
      event := EMPTY_EVENT;
      count, receivedRows, maxEntries, alertsIssued := 0, 0, 0, 0;
      requestOutstanding := false;
      pending := {};
    }

    /** calendar_request: write the request, reset the batch counters, mark it outstanding. */
    method CalendarRequest() returns (fx: seq<Effect>)
      modifies this`count, this`receivedRows, this`requestOutstanding
      ensures fx == [SendRequest(-1, CLOCK_STYLE_24H), SetStatus(STATUS_REQUEST)]
      ensures count == 0 && receivedRows == 0 && requestOutstanding
    {
      count := 0;
      receivedRows := 0;
      requestOutstanding := true;
      fx := [SendRequest(-1, CLOCK_STYLE_24H), SetStatus(STATUS_REQUEST)];
    }

    /** set_relative_desc: store the countdown text for `alertEvent` in slot `num`. */
    method SetRelativeDesc(num: nat, alertEvent: int)
      requires Valid() && num < MAX_EVENTS
      modifies timerRec
      ensures timerRec[..] == old(timerRec[..])[num := old(timerRec[num]).(relativeDesc := RelativeText(alertEvent))]
    {
      timerRec[num] := timerRec[num].(relativeDesc := RelativeText(alertEvent));
    }

    /**
     * queue_alert: arm slot `num` under the title of the global `event` (the
     * `title` argument is not read); the first alert of a pass also shows its
     * text and registers the one alert timer.
     */
    method QueueAlert(num: nat, title: string, alertEvent: int, now: Clock) returns (fx: seq<Effect>)
      requires Valid() && num < MAX_EVENTS
      modifies timerRec, this`pending
      ensures timerRec[..] == old(timerRec[..])[num := Queued(old(timerRec[num]), event.title, alertEvent, alertsIssued == 1, num, now)]
      ensures fx == QueueEffects(event.title, alertEvent, alertsIssued == 1, num, now)
      ensures pending == old(pending) + if alertsIssued == 1 && alertEvent >= 0 then {NextTimer(alertEvent, num, now).cookie} else {}
      ensures pending == PendingAfter(old(pending), fx)
      ensures alertsIssued == 1 && alertEvent >= 0 ==> Owns(NextTimer(alertEvent, num, now).cookie)
      ensures old(OwnedBelow(num)) && alertsIssued >= 1 && (alertsIssued == 1 ==> old(pending) == {}) ==> OwnedBelow(num + 1)
    {
      timerRec[num] := timerRec[num].(eventDesc := event.title, active := true);
      fx := [];
      if alertsIssued == 1 {
        SetRelativeDesc(num, alertEvent);
        fx := [Display(timerRec[num].eventDesc, timerRec[num].relativeDesc)];
        if alertEvent == 0 {
          timerRec[num] := timerRec[num].(handle := Timer(ALERT_EVENT + num));
          fx := fx + [Register(ALERT_HOLD_MS, ALERT_EVENT + num)];
          pending := pending + {ALERT_EVENT + num};
        } else if alertEvent > 0 {
          timerRec[num] := timerRec[num].(handle := Timer(TICK_EVENT + num));
          fx := fx + [Register(MINUTE_MS - now.sec * 1000, TICK_EVENT + num)];
          pending := pending + {TICK_EVENT + num};
        }
      }
      QueuePending(old(pending), event.title, alertEvent, alertsIssued == 1, num, now);
    }

    /**
     * determine_if_alarm_needed: copy entry `num` into `event` and, when it
     * qualifies and fewer than MAX_ALLOWABLE_ALERTS were issued, queue it.
     */
    method DetermineIfAlarmNeeded(num: nat, now: Clock) returns (alarmsSet: int, fx: seq<Effect>)
      requires Valid() && num < MAX_EVENTS
      modifies this`event, this`alertsIssued, this`pending, timerRec
      ensures event == events[num]
      ensures var q := PlanStep(Plan(old(timerRec[..]), old(alertsIssued), 0, []), events[..], num, now);
        timerRec[..] == q.recs && alertsIssued == q.issued && alarmsSet == q.alerts && fx == q.effects
      ensures old(alertsIssued) >= 0 ==> alertsIssued >= old(alertsIssued)
      ensures pending == PendingAfter(old(pending), fx)
      ensures old(OwnedBelow(num)) && old(alertsIssued) >= 0 ==> OwnedBelow(num + 1)
    {
      event := events[num];
      alarmsSet := 0;
      fx := [];
      if !event.allDay && IsDateToday(event.startDate, now.today) {
        var alertEvent := AlertInterval(event.startDate, now);
        if alertEvent >= 0 {
          alertsIssued := alertsIssued + 1;
          if alertsIssued <= MAX_ALLOWABLE_ALERTS {
            fx := QueueAlert(num, event.title, alertEvent, now);
            alarmsSet := alarmsSet + 1;
          }
        }
      }
    }

    /** clear_timers: deactivate every active slot, zero its texts and cancel its handle. */
    method ClearTimers() returns (fx: seq<Effect>)
      requires Valid()
      modifies timerRec, this`pending
      ensures timerRec[..] == ClearAll(old(timerRec[..]))
      ensures fx == CancelsBefore(old(timerRec[..]), MAX_EVENTS)
      ensures pending == PendingAfter(old(pending), fx) && pending <= old(pending)
      ensures old(SingleOwner()) ==> pending == {}
    {
      ghost var was := timerRec[..];
      fx := [];
      var i := 0;
      while i < MAX_EVENTS
        invariant 0 <= i <= MAX_EVENTS
        invariant forall k :: 0 <= k < i ==> timerRec[k] == Cleared(was[k])
        invariant forall k :: i <= k < MAX_EVENTS ==> timerRec[k] == was[k]
        invariant fx == CancelsBefore(was, i)
        invariant pending == PendingAfter(old(pending), fx) && pending <= old(pending)
        invariant forall c :: c in pending && IsAlertCookie(c) && OwnerIndex(c) < i ==>
                    !(was[OwnerIndex(c)].active && was[OwnerIndex(c)].handle == Timer(c))
      {
        if timerRec[i].active {
          timerRec[i] := timerRec[i].(active := false, eventDesc := "");
          PendingAfterSnoc(old(pending), fx, Cancel(timerRec[i].handle));
          fx := fx + [Cancel(timerRec[i].handle)];
          if timerRec[i].handle.Timer? {
            pending := pending - {timerRec[i].handle.cookie};
          }
          timerRec[i] := timerRec[i].(relativeDesc := "");
        }
        i := i + 1;
      }
      assert timerRec[..] == ClearAll(was);
      if old(SingleOwner()) {
        forall c | c in old(pending)
          ensures c !in pending
        {
          assert old(Owns(c));
        }
        assert pending == {};
      }
    }

    /**
     * process_events: clear the timers, then, when a complete batch is held,
     * run determine_if_alarm_needed over its entries in index order and
     * report that alerts are set.
     */
    method ProcessEvents(now: Clock) returns (outcome: Outcome, fx: seq<Effect>)
      requires Valid()
      modifies this`event, this`alertsIssued, this`pending, timerRec
      ensures var r := Process(old(timerRec[..]), events[..], maxEntries, requestOutstanding, old(alertsIssued), old(event), now);
        timerRec[..] == r.recs && alertsIssued == r.issued && event == r.scratch && fx == r.effects && outcome == r.outcome
      ensures pending == PendingAfter(old(pending), fx)
      ensures old(SingleOwner()) ==> SingleOwner()
    {
      fx := ClearTimers();
      outcome := Completed;
      if requestOutstanding || maxEntries == 0 {
        return;
      }
      alertsIssued := 0;
      var alerts;
      outcome, alerts, fx := DetermineAll(fx, old(pending), now);
      if outcome == Completed && alerts > 0 {
        PendingAfterSnoc(old(pending), fx, SetStatus(STATUS_ALERT_SET));
        fx := fx + [SetStatus(STATUS_ALERT_SET)];
      }
    }

    /**
     * The loop of process_events: determine_if_alarm_needed for entries
     * 0 .. max_entries-1, after the platform calls `fx0` already made. Entry
     * 15 lies outside `events[]`.
     */
    method DetermineAll(fx0: seq<Effect>, ghost before: set<int>, now: Clock) returns (outcome: Outcome, alerts: int, fx: seq<Effect>)
      requires Valid() && alertsIssued == 0 && maxEntries > 0
      requires Replays(before, fx0)
      modifies this`event, this`alertsIssued, this`pending, timerRec
      ensures var p := PlanUpto(Plan(old(timerRec[..]), 0, 0, fx0), events[..], Min(maxEntries, MAX_EVENTS), now);
        timerRec[..] == p.recs && alertsIssued == p.issued && alerts == p.alerts && fx == p.effects
      ensures event == events[Min(maxEntries, MAX_EVENTS) - 1]
      ensures outcome == if maxEntries > MAX_EVENTS then OutOfRange(MAX_EVENTS) else Completed
      ensures Replays(before, fx)
      ensures old(pending) == {} ==> SingleOwner()
    {
      ghost var p0 := Plan(timerRec[..], 0, 0, fx0);

      ghost var es := events[..];
      ghost var owned := pending == {};
      alerts := 0;
      fx := fx0;
      var entryNo := 0;
      while entryNo < maxEntries
        invariant 0 <= entryNo <= Min(maxEntries, MAX_EVENTS)
        invariant var p := PlanUpto(p0, es, entryNo, now);
          timerRec[..] == p.recs && alertsIssued == p.issued && alerts == p.alerts && fx == p.effects
        invariant entryNo > 0 ==> event == es[entryNo - 1]
        invariant alertsIssued >= 0
        invariant owned ==> OwnedBelow(entryNo)
        invariant Replays(before, fx)
      {
        if entryNo >= MAX_EVENTS {
          return OutOfRange(entryNo), alerts, fx;
        }
        alerts, fx := DetermineNext(entryNo, alerts, fx, p0, before, now);
        entryNo := entryNo + 1;
      }
      outcome := Completed;
    }

    /** One turn of the loop of process_events: entry `num` after the pass so far. */
    method DetermineNext(num: nat, alerts0: int, fx0: seq<Effect>, ghost p0: Plan, ghost before: set<int>, now: Clock)
      returns (alerts: int, fx: seq<Effect>)
      requires Valid() && num < MAX_EVENTS && |p0.recs| == MAX_EVENTS
      requires var p := PlanUpto(p0, events[..], num, now);
        timerRec[..] == p.recs && alertsIssued == p.issued && alerts0 == p.alerts && fx0 == p.effects
      requires alertsIssued >= 0 && Replays(before, fx0)
      modifies this`event, this`alertsIssued, this`pending, timerRec
      ensures var p := PlanUpto(p0, events[..], num + 1, now);
        timerRec[..] == p.recs && alertsIssued == p.issued && alerts == p.alerts && fx == p.effects
      ensures event == events[num] && alertsIssued >= 0 && Replays(before, fx)
      ensures old(OwnedBelow(num)) ==> OwnedBelow(num + 1)
    {
      PlanStepShift(PlanUpto(p0, events[..], num, now), events[..], num, now);
      var set1, calls := DetermineIfAlarmNeeded(num, now);
      alerts := alerts0 + set1;
      PendingAfterConcat(before, fx0, calls);
      fx := fx0 + calls;
    }

    /**
     * received_message: with a calendar tuple, report the reply, copy its
     * records into `events[]`, and once the whole batch is in, make it the
     * current one and process it.
     */
    method ReceivedMessage(msg: Option<Chunk>, now: Clock) returns (outcome: Outcome, fx: seq<Effect>)
      requires Valid()
      modifies this`count, this`receivedRows, this`maxEntries, this`requestOutstanding
      modifies this`event, this`alertsIssued, this`pending, events, timerRec
      ensures msg.None? ==>
        && outcome == Completed && fx == []
        && events[..] == old(events[..]) && timerRec[..] == old(timerRec[..])
        && count == old(count) && receivedRows == old(receivedRows) && maxEntries == old(maxEntries)
        && requestOutstanding == old(requestOutstanding) && alertsIssued == old(alertsIssued) && event == old(event)
      ensures msg.Some? ==>
        var r := Receive(old(events[..]), old(count), old(receivedRows), msg.value);
        && events[..] == r.events && count == r.count && receivedRows == r.receivedRows
        && if r.complete then
             var p := Process(old(timerRec[..]), r.events, r.count, false, old(alertsIssued), old(event), now);
             && maxEntries == r.count && !requestOutstanding
             && timerRec[..] == p.recs && alertsIssued == p.issued && event == p.scratch
             && fx == [SetStatus(STATUS_REPLY)] + p.effects && outcome == p.outcome
           else
             && maxEntries == old(maxEntries) && requestOutstanding == old(requestOutstanding)
             && timerRec[..] == old(timerRec[..]) && alertsIssued == old(alertsIssued) && event == old(event)
             && fx == [SetStatus(STATUS_REPLY)] && outcome == r.outcome
      ensures pending == PendingAfter(old(pending), fx)
      ensures old(SingleOwner()) ==> SingleOwner()
    {
      outcome := Completed;
      fx := [];
      if msg.None? {
        return;
      }
      fx := [SetStatus(STATUS_REPLY)];
      PendingAfterQuiet(pending, fx);
      outcome := StoreChunk(msg.value);
      if outcome.OutOfRange? {
        return;
      }
      if count == receivedRows {
        maxEntries := count;
        requestOutstanding := false;
        var calls;
        outcome, calls := ProcessEvents(now);
        PendingAfterConcat(old(pending), fx, calls);
        fx := fx + calls;
      }
    }

    /**
     * The tuple part of received_message: a new batch takes its count from
     * the first byte and starts at row 0, a continuation resumes at
     * `received_rows`; then the records are copied.
     */
    method StoreChunk(c: Chunk) returns (outcome: Outcome)
      requires Valid()
      modifies this`count, this`receivedRows, events
      ensures var r := Receive(old(events[..]), old(count), old(receivedRows), c);
        events[..] == r.events && count == r.count && receivedRows == r.receivedRows && outcome == r.outcome
    {
      var start: Byte;
      var records: seq<Event>;
      if count > receivedRows {
        start := receivedRows;
        records := c.recordsFromStart;
      } else {
        count := c.firstByte;
        start := 0;
        records := c.recordsAfterFirst;
      }
      var i;
      i, outcome := CopyRecords(records, start, count);
      if outcome == Completed {
        receivedRows := i;
      }
    }

    /**
     * The copy loop of received_message: rows `start` .. `count`-1 come from
     * `records`, each stored in the slot its index names, until the count is
     * reached or the records run out. A record whose index is outside the
     * table stops the copy.
     */
    method CopyRecords(records: seq<Event>, start: Byte, count: Byte) returns (rows: Byte, outcome: Outcome)
      requires Valid() && start <= count
      modifies events
      ensures var r := CopyRows(old(events[..]), count, start, records, start);
        events[..] == r.events && rows == r.receivedRows && outcome == r.outcome
    {
      ghost var table := events[..];
      ghost var take := Min(count - start, |records|);
      outcome := Completed;
      var i := start;
      var j := 0;
      while i < count && j < |records|
        invariant start <= i <= count && j <= take && i - start == j
        invariant forall k :: 0 <= k < j ==> records[k].index < MAX_EVENTS
        invariant events[..] == StoreAll(table, records[..j])
      {
        var tempEvent := records[j];
        if tempEvent.index >= MAX_EVENTS {
          outcome := OutOfRange(tempEvent.index);
          assert records[..take][..j] == records[..j];
          assert GoodPrefix(records[..take]) == j;
          return start, outcome;
        }
        events[tempEvent.index] := tempEvent;
        StoreAllStep(table, records, j);
        i := i + 1;
        j := j + 1;
      }
      assert j == take && records[..take][..j] == records[..j];
      assert GoodPrefix(records[..take]) == take;
      rows := i;
    }

    /** The tick path of handle_calendar_timer for slot `num`: refresh the countdown and re-arm. */
    method TickAlert(num: nat, now: Clock) returns (fx: seq<Effect>)
      requires Valid() && num < MAX_EVENTS
      modifies timerRec, this`pending
      ensures timerRec[..] == old(timerRec[..])[num := TickRecord(old(timerRec[num]), events[num], num, now)]
      ensures fx == TickEffects(old(timerRec[num]), events[num], num, now)
      ensures pending == PendingAfter(old(pending), fx)
      ensures old(pending) == {} ==> SingleOwner()
    {
      TickPending(pending, timerRec[num], events[num], num, now);
      fx := [];
      if !timerRec[num].active {
        return;
      }
      var e := events[num];
      var alertEvent := AlertInterval(e.startDate, now);
      if alertEvent >= 0 {
        SetRelativeDesc(num, alertEvent);
        fx := [Display(timerRec[num].eventDesc, timerRec[num].relativeDesc)];
        if alertEvent == 0 {
          timerRec[num] := timerRec[num].(handle := Timer(ALERT_EVENT + num));
          fx := fx + [Register(ALERT_HOLD_MS, ALERT_EVENT + num), DoublePulse, Backlight];
          pending := pending + {ALERT_EVENT + num};
        } else if alertEvent > 0 {
          timerRec[num] := timerRec[num].(handle := Timer(TICK_EVENT + num));
          fx := fx + [Register(MINUTE_MS - now.sec * 1000, TICK_EVENT + num)];
          pending := pending + {TICK_EVENT + num};
        }
      }
    }

    /**
     * The dismiss path of handle_calendar_timer for slot `num`: deactivate it
     * and hand the display to the next active slot below `max_entries`.
     */
    method DismissAlert(num: nat, now: Clock) returns (outcome: Outcome, fx: seq<Effect>)
      requires Valid()
      modifies timerRec, this`pending
      ensures var f := DismissFired(old(timerRec[..]), events[..], num, maxEntries, now);
        timerRec[..] == f.recs && fx == f.effects && outcome == f.outcome
      ensures pending == PendingAfter(old(pending), fx)
      ensures old(pending) == {} ==> SingleOwner()
    {
      fx := [];
      if num >= MAX_EVENTS {
        return OutOfRange(num), [];
      }
      if !timerRec[num].active {
        return Completed, [];
      }
      timerRec[num] := timerRec[num].(active := false);
      ghost var r1 := timerRec[..];
      var i := num + 1;
      while i < maxEntries
        invariant num + 1 <= i <= MAX_EVENTS
        invariant forall j :: num + 1 <= j < i ==> !timerRec[j].active
        invariant timerRec[..] == r1 && pending == old(pending)
      {
        if i >= MAX_EVENTS {
          return OutOfRange(i), [];
        }
        if timerRec[i].active {
          fx := TickAlert(i, now);
          PendingAfterConcat(old(pending), fx, [ShortPulse, Backlight]);
          PendingAfterQuiet(pending, [ShortPulse, Backlight]);
          fx := fx + [ShortPulse, Backlight];
          return Completed, fx;
        }
        i := i + 1;
      }
      return Completed, [];
    }

    /**
     * handle_calendar_timer: the single timer callback. `outboxAvailable`
     * stands for app_message_outbox_begin handing out a dictionary.
     */
    method HandleCalendarTimer(cookie: int, now: Clock, outboxAvailable: bool) returns (outcome: Outcome, fx: seq<Effect>)
      requires Valid()
      modifies this`count, this`receivedRows, this`requestOutstanding, this`pending, timerRec
      ensures var k := DecodeCookie(cookie);
        && (k.Dismiss? ==>
              var f := DismissFired(old(timerRec[..]), events[..], k.num, maxEntries, now);
              && timerRec[..] == f.recs && fx == f.effects && outcome == f.outcome
              && count == old(count) && receivedRows == old(receivedRows) && requestOutstanding == old(requestOutstanding))
        && (k.Tick? ==>
              var f := TickFired(old(timerRec[..]), events[..], k.num, now);
              && timerRec[..] == f.recs && fx == f.effects && outcome == f.outcome
              && count == old(count) && receivedRows == old(receivedRows) && requestOutstanding == old(requestOutstanding))
        && (k == Request && !outboxAvailable ==>
              && timerRec[..] == old(timerRec[..]) && outcome == Completed
              && fx == [Register(REQUEST_RETRY_MS, REQUEST_CALENDAR_KEY)]
              && count == old(count) && receivedRows == old(receivedRows) && requestOutstanding == old(requestOutstanding))
        && (k == Request && outboxAvailable ==>
              && timerRec[..] == old(timerRec[..]) && outcome == Completed
              && fx == [SendRequest(-1, CLOCK_STYLE_24H), SetStatus(STATUS_REQUEST),
                        Register(REQUEST_CALENDAR_INTERVAL_MS, REQUEST_CALENDAR_KEY)]
              && count == 0 && receivedRows == 0 && requestOutstanding)
        && (k == Unrecognised ==>
              && timerRec[..] == old(timerRec[..]) && outcome == Completed && fx == []
              && count == old(count) && receivedRows == old(receivedRows) && requestOutstanding == old(requestOutstanding))
      ensures pending == PendingAfter(old(pending) - {cookie}, fx)
      ensures old(SingleOwner()) && (IsAlertCookie(cookie) ==> cookie in old(pending)) ==> SingleOwner()
    {
      RetireTimer(cookie);
      outcome, fx := Completed, [];
      match DecodeCookie(cookie)
      case Dismiss(num) =>
        outcome, fx := DismissAlert(num, now);
      case Tick(num) =>
        if num >= MAX_EVENTS {
          outcome := OutOfRange(num);
        } else {
          fx := TickAlert(num, now);
        }
      case Request =>
        fx := RequestTimerFired(outboxAvailable);
      case Unrecognised =>
    }

    /** The timer that fired is no longer outstanding. */
    method RetireTimer(cookie: int)
      modifies this`pending
      ensures pending == old(pending) - {cookie}
      ensures old(SingleOwner()) ==> SingleOwner()
      ensures old(SingleOwner()) && cookie in old(pending) ==> pending == {}
    {
      if SingleOwner() && cookie in pending {
        SingletonOf(pending, cookie);
      }
      pending := pending - {cookie};
    }

    /**
     * The request path of handle_calendar_timer: send a request and re-arm
     * the periodic timer, or retry shortly when no outbox is available.
     */
    method RequestTimerFired(outboxAvailable: bool) returns (fx: seq<Effect>)
      modifies this`count, this`receivedRows, this`requestOutstanding
      ensures !outboxAvailable ==>
        && fx == [Register(REQUEST_RETRY_MS, REQUEST_CALENDAR_KEY)]
        && count == old(count) && receivedRows == old(receivedRows) && requestOutstanding == old(requestOutstanding)
      ensures outboxAvailable ==>
        && fx == [SendRequest(-1, CLOCK_STYLE_24H), SetStatus(STATUS_REQUEST), Register(REQUEST_CALENDAR_INTERVAL_MS, REQUEST_CALENDAR_KEY)]
        && count == 0 && receivedRows == 0 && requestOutstanding
      ensures PendingAfter(pending, fx) == pending
    {
      if !outboxAvailable {
        fx := [Register(REQUEST_RETRY_MS, REQUEST_CALENDAR_KEY)];
        PendingAfterQuiet(pending, fx);
        return;
      }
      fx := CalendarRequest();
      fx := fx + [Register(REQUEST_CALENDAR_INTERVAL_MS, REQUEST_CALENDAR_KEY)];
      PendingAfterQuiet(pending, fx);
    }
  }
}
