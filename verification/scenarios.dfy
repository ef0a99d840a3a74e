/**
 * Two clients that drive freshly built objects through the contracts of
 * their methods alone: a morning with one calendar event, and the first
 * minute tick of the watch face.
 */
module Scenarios {
  import opened CalendarTypes
  import opened CalendarText
  import opened CalendarPlan
  import opened CalendarEngine
  import opened WatchDigits

  /** The 08:58:30 batch of the morning below: one qualifying record and its first tick. */
  lemma StandupBatch(standup: Event, early: Clock)
    requires standup == Event(0, "Standup", false, "10/11 09:00") && early == Clock(8, 58, 30, "10/11")
    ensures var r := Receive(seq(MAX_EVENTS, _ => EMPTY_EVENT), 0, 0, Chunk(1, [standup], []));
      && r.complete && r.count == 1 && r.outcome == Completed
      && var q := Process(seq(MAX_EVENTS, _ => EMPTY_RECORD), r.events, 1, false, 0, EMPTY_EVENT, early);
         q.effects == [Display("Standup", "In 1 min"), Register(30000, TICK_EVENT), SetStatus(STATUS_ALERT_SET)]
         && q.outcome == Completed && q.recs[0].active && q.recs[0].eventDesc == "Standup" && r.events[0] == standup
  {
    TwoDigitsAt(standup.startDate, 6);
    TwoDigitsAt(standup.startDate, 9);
    var r := Receive(seq(MAX_EVENTS, _ => EMPTY_EVENT), 0, 0, Chunk(1, [standup], []));
    assert r.complete && r.count == 1 && r.events[0] == standup;
    assert StartMs(standup.startDate) == 32400000;
    assert AlertDelta(standup.startDate, early) == 90000;
    DateTodayIff(standup.startDate, early.today);
    assert CharAt(standup.startDate, 0) == '1' && CharAt(standup.startDate, 1) == '0';
    assert CharAt(standup.startDate, 3) == '1' && CharAt(standup.startDate, 4) == '1';
    assert Qualifies(standup, early);
    assert RelativeText(90000) == "In 1 min";
    assert NextTimer(90000, 0, early) == Register(30000, TICK_EVENT);
    var blank := seq(MAX_EVENTS, _ => EMPTY_RECORD);
    ClearAllSpec(blank, MAX_EVENTS);
    NoneActive(blank, MAX_EVENTS);
    assert CancelsBefore(blank, MAX_EVENTS) == [];
    var p0 := Plan(ClearAll(blank), 0, 0, []);
    assert PlanUpto(p0, r.events, 0, early) == p0;
    var p := PlanUpto(p0, r.events, 1, early);
    assert p == PlanStep(p0, r.events, 0, early);
    assert p.effects == [Display("Standup", "In 1 min"), Register(30000, TICK_EVENT)] && p.alerts == 1;
  }

  /** The reply to the batch leaves the first tick as the one alert timer outstanding. */
  lemma ReplyRegistersTick()
    ensures PendingAfter({}, [SetStatus(STATUS_REPLY), Display("Standup", "In 1 min"),
                              Register(30000, TICK_EVENT), SetStatus(STATUS_ALERT_SET)]) == {TICK_EVENT}
  {
    var shown := [SetStatus(STATUS_REPLY), Display("Standup", "In 1 min")];
    var armed := [Register(30000, TICK_EVENT), SetStatus(STATUS_ALERT_SET)];
    PendingAfterQuiet({}, shown);
    PendingAfterConcat({}, shown, armed);
    assert armed[1..] == [SetStatus(STATUS_ALERT_SET)];
    assert IsAlertCookie(TICK_EVENT) && Track({}, armed[0]) == {TICK_EVENT};
    PendingAfterQuiet({TICK_EVENT}, armed[1..]);
    assert PendingAfter({}, armed) == PendingAfter({TICK_EVENT}, armed[1..]) == {TICK_EVENT};
    assert shown + armed == [SetStatus(STATUS_REPLY), Display("Standup", "In 1 min"),
                             Register(30000, TICK_EVENT), SetStatus(STATUS_ALERT_SET)];
  }

  /**
   * A one-record batch arrives at 08:58:30 for a 09:00 "Standup". The tick at
   * 08:59 counts down again, the one at 09:00 turns into the 30 s dismiss with
   * a double buzz and the backlight, and the dismiss at 09:00:30 disarms the
   * slot and leaves no alert timer outstanding.
   */
  method StandupMorning() {
    var cal := new Calendar();
    var standup := Event(0, "Standup", false, "10/11 09:00");
    var early := Clock(8, 58, 30, "10/11");
    StandupBatch(standup, early);
    ReplyRegistersTick();

    var outcome, fx := cal.ReceivedMessage(Some(Chunk(1, [standup], [])), early);
    assert outcome == Completed;
    assert fx == [SetStatus(STATUS_REPLY), Display("Standup", "In 1 min"), Register(30000, TICK_EVENT), SetStatus(STATUS_ALERT_SET)];
    assert cal.pending == {TICK_EVENT};

    StandupTicks(cal, standup);
  }

  /** The 08:59 tick counts down again and re-arms the tick. */
  method StandupTicks(cal: Calendar, standup: Event)
    requires cal.Valid() && cal.SingleOwner() && cal.pending == {TICK_EVENT} && cal.maxEntries == 1
    requires standup == Event(0, "Standup", false, "10/11 09:00") && cal.events[0] == standup
    requires cal.timerRec[0].active && cal.timerRec[0].eventDesc == "Standup"
    modifies cal, cal.timerRec
  {
    NineOClockCountdown(cal.timerRec[0], standup, 0);
    TickPending({}, cal.timerRec[0], standup, 0, Clock(8, 59, 0, "10/11"));
    var outcome, fx := cal.HandleCalendarTimer(TICK_EVENT, Clock(8, 59, 0, "10/11"), true);
    assert fx == [Display("Standup", "In 1 min"), Register(MINUTE_MS, TICK_EVENT)];
    assert cal.pending == {TICK_EVENT};
    StandupStarts(cal, standup);
  }

  /** The 09:00 tick: "Now", the 30 s dismiss, a double buzz and the backlight. */
  method StandupStarts(cal: Calendar, standup: Event)
    requires cal.Valid() && cal.SingleOwner() && cal.pending == {TICK_EVENT} && cal.maxEntries == 1
    requires standup == Event(0, "Standup", false, "10/11 09:00") && cal.events[0] == standup
    requires cal.timerRec[0].active && cal.timerRec[0].eventDesc == "Standup"
    modifies cal, cal.timerRec
  {
    NineOClockCountdown(cal.timerRec[0], standup, 0);
    TickPending({}, cal.timerRec[0], standup, 0, Clock(9, 0, 0, "10/11"));
    var outcome, fx := cal.HandleCalendarTimer(TICK_EVENT, Clock(9, 0, 0, "10/11"), true);
    assert fx == [Display("Standup", "Now"), Register(ALERT_HOLD_MS, ALERT_EVENT), DoublePulse, Backlight];
    assert cal.pending == {ALERT_EVENT};
    StandupDismiss(cal);
  }

  /** The dismiss at 09:00:30: the only armed slot is disarmed, nothing is called, and no alert timer is left. */
  method StandupDismiss(cal: Calendar)
    requires cal.Valid() && cal.SingleOwner() && cal.pending == {ALERT_EVENT} && cal.maxEntries == 1
    modifies cal, cal.timerRec
  {
    var outcome, fx := cal.HandleCalendarTimer(ALERT_EVENT, Clock(9, 0, 30, "10/11"), true);
    assert outcome == Completed && fx == [];
    assert !cal.timerRec[0].active && cal.pending == {};
  }

  /**
   * A fresh face shown at 13:07 on 11 October in the 12-hour style reads
   * 01 07 on top and 11 10 below.
   */
  method FirstMinuteTick() {
    var face := new WatchFace();
    face.HandleMinuteTick(13, 7, 11, 9, false, true);
    assert face.timeSlots[0].View().state == 0 && face.timeSlots[1].View().state == 1;
    assert face.timeSlots[2].View().state == 0 && face.timeSlots[3].View().state == 7;
    assert face.dateSlots[0].state == 1 && face.dateSlots[1].state == 1;
    assert face.dateSlots[2].state == 1 && face.dateSlots[3].state == 0;
  }
}
