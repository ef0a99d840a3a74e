/**
 * The digit slots of the watch face (src/Revolution.c): four big time digits
 * that slide out and in when they change, and four date digits that are
 * swapped in place. Bitmaps, layers, frames and animations are graphics and
 * are not modelled; what is kept is the state each slot holds: the digit it
 * shows (`state`, or EMPTY_SLOT), and for a time slot whether an update is
 * animating (`updating`) and the digit waiting to slide in (`new_state`).
 */
module WatchDigits {

  const EMPTY_SLOT: int := -1
  const NUMBER_OF_TIME_SLOTS: nat := 4
  const NUMBER_OF_DATE_SLOTS: nat := 4

  const SCREEN_WIDTH: int := 144
  const TIME_IMAGE_WIDTH: int := 70
  const TIME_IMAGE_HEIGHT: int := 70
  const MARGIN: int := 1
  const TIME_SLOT_SPACE: int := 2

  // ---------------------------------------------------------------------------
  // C integer division and remainder (they truncate toward zero)
  // ---------------------------------------------------------------------------

  function CDiv(a: int, b: int): int
    requires b > 0
  {
    if a >= 0 then a / b else -((-a) / b)
  }

  function CRem(a: int, b: int): (r: int)
    requires b > 0
    ensures -b < r < b
    ensures a >= 0 ==> r == a % b
  {
    if a >= 0 then a % b else -((-a) % b)
  }

  /** The identity C guarantees: (a/b)*b + a%b == a, with the remainder taking the sign of a. */
  lemma CDivRem(a: int, b: int)
    requires b > 0
    ensures CDiv(a, b) * b + CRem(a, b) == a
    ensures a < 0 ==> CRem(a, b) <= 0
  {
  }

  // ---------------------------------------------------------------------------
  // load_digit_image_into_slot / unload_digit_image_from_slot
  // ---------------------------------------------------------------------------

  /** The state a slot holds after load_digit_image_into_slot(digit). */
  function LoadedState(state: int, digit: int): int {
    if 0 <= digit <= 9 && state == EMPTY_SLOT then digit else state
  }

  /** A `Slot`: a digit image in a fixed position, or nothing. */
  class Slot {
    const number: int
    var state: int

    constructor (number: int)
      ensures this.number == number && state == EMPTY_SLOT
    {
      this.number := number;
      state := EMPTY_SLOT;
    }

    /**
     * load_digit_image_into_slot: refuses a digit outside 0..9 and a slot that
     * already shows one; otherwise the slot shows the digit. `loaded` is
     * whether the C function returns a layer rather than NULL.
     */
    method Load(digit: int) returns (loaded: bool)
      modifies this`state
      ensures loaded <==> 0 <= digit <= 9 && old(state) == EMPTY_SLOT
      ensures state == (if loaded then digit else old(state))
      ensures state == LoadedState(old(state), digit)
    {
      if digit < 0 || digit > 9 {
        return false;
      }
      if state != EMPTY_SLOT {
        return false;
      }
      state := digit;
      loaded := true;
    }

    /** unload_digit_image_from_slot: the slot is empty afterwards, whatever it held. */
    method Unload()
      modifies this`state
      ensures state == EMPTY_SLOT
    {
      if state == EMPTY_SLOT {
        return;
      }
      state := EMPTY_SLOT;
    }
  }

  /** Unloading then loading a valid digit always succeeds, whatever the slot held. */
  lemma ReloadSucceeds(state: int, digit: int)
    requires 0 <= digit <= 9
    ensures LoadedState(EMPTY_SLOT, digit) == digit
    ensures state != EMPTY_SLOT ==> LoadedState(state, digit) == state
  {
  }

  // ---------------------------------------------------------------------------
  // The time-slot state machine
  // ---------------------------------------------------------------------------

  /** The state of one `TimeSlot`: shown digit, digit waiting to slide in, and the animation flag. */
  datatype SlotView = SlotView(state: int, newState: int, updating: bool)

  /** update_time_slot(digit). */
  function AfterUpdate(v: SlotView, digit: int): SlotView {
    if v.state == digit || v.updating then v
    else if v.state == EMPTY_SLOT then v.(state := LoadedState(EMPTY_SLOT, digit))
    else v.(updating := true, newState := digit)
  }

  /** time_slot_slide_out_animation_stopped: swap in the waiting digit and start the slide-in. */
  function AfterSlideOut(v: SlotView): SlotView {
    if v.newState == EMPTY_SLOT then v.(updating := false)
    else v.(state := LoadedState(EMPTY_SLOT, v.newState), newState := EMPTY_SLOT)
  }

  /** time_slot_slide_in_animation_stopped. */
  function AfterSlideIn(v: SlotView): SlotView {
    v.(updating := false)
  }

  /** A slot at rest: no animation, nothing waiting, and an empty slot or a digit on show. */
  predicate Idle(v: SlotView) {
    !v.updating && v.newState == EMPTY_SLOT && (v.state == EMPTY_SLOT || 0 <= v.state <= 9)
  }

  /**
   * One update of an idle slot to a digit ends with the slot idle and
   * showing that digit: at once when the slot was empty or already showed
   * it, otherwise once the slide-out and then the slide-in stop. While the
   * animation runs, every further update is dropped.
   */
  lemma UpdateCycle(v: SlotView, digit: int)
    requires Idle(v) && 0 <= digit <= 9
    ensures var u := AfterUpdate(v, digit);
      && (v.state == EMPTY_SLOT || v.state == digit ==> u == SlotView(digit, EMPTY_SLOT, false))
      && (v.state != EMPTY_SLOT && v.state != digit ==>
            && u == SlotView(v.state, digit, true)
            && AfterSlideOut(u) == SlotView(digit, EMPTY_SLOT, true)
            && AfterSlideIn(AfterSlideOut(u)) == SlotView(digit, EMPTY_SLOT, false)
            && (forall e :: AfterUpdate(u, e) == u && AfterUpdate(AfterSlideOut(u), e) == AfterSlideOut(u)))
  {
  }

  /** A `TimeSlot`: a slot plus the animation state of update_time_slot. */
  class TimeSlot {
    const slot: Slot
    var newState: int
    var updating: bool

    function View(): SlotView
      reads this, slot
    {
      SlotView(slot.state, newState, updating)
    }

    constructor (number: int)
      ensures fresh(slot) && slot.number == number
      ensures View() == SlotView(EMPTY_SLOT, EMPTY_SLOT, false)
    {
      slot := new Slot(number);
      newState := EMPTY_SLOT;
      updating := false;
    }

    /**
     * update_time_slot: nothing when the digit is already shown or an
     * animation is running; an empty slot loads the digit at once; otherwise
     * the digit waits in `newState` while the old one slides out.
     */
    method Update(digit: int)
      modifies this, slot
      ensures View() == AfterUpdate(old(View()), digit)
    {
      if slot.state == digit {
        return;
      }
      if updating {
        return;
      }
      if slot.state == EMPTY_SLOT {
        var loaded := slot.Load(digit);
      } else {
        updating := true;
        newState := digit;
        // slide_out_digit_image_from_time_slot only schedules the animation.
      }
    }

    /** time_slot_slide_out_animation_stopped. */
    method SlideOutStopped()
      modifies this, slot
      ensures View() == AfterSlideOut(old(View()))
    {
      if newState == EMPTY_SLOT {
        updating := false;
      } else {
        slot.Unload();
        // slide_in_digit_image_into_time_slot loads the waiting digit and schedules the slide-in.
        var loaded := slot.Load(newState);
        newState := EMPTY_SLOT;
      }
    }

    /** time_slot_slide_in_animation_stopped. */
    method SlideInStopped()
      modifies this
      ensures View() == AfterSlideIn(old(View()))
    {
      updating := false;
    }
  }

  // ---------------------------------------------------------------------------
  // display_time, display_time_value, frame_for_time_slot
  // ---------------------------------------------------------------------------

  /** The hour display_time shows: unchanged in 24-hour style, otherwise hour % 12 with 0 shown as 12. */
  function DisplayHour(hour: int, is24h: bool): (h: int)
    ensures is24h ==> h == hour
    ensures !is24h && hour >= 0 ==> 1 <= h <= 12 && h % 12 == hour % 12
  {
    if is24h then hour
    else
      var h := CRem(hour, 12);
      if h == 0 then 12 else h
  }

  /** The digit display_time_value gives the right-hand slot of a row. */
  function Ones(value: int): int {
    CRem(CRem(value, 100), 10)
  }

  /** The digit display_time_value gives the left-hand slot of a row. */
  function Tens(value: int): int {
    CRem(CDiv(CRem(value, 100), 10), 10)
  }

  /** For a non-negative value the two slots of a row show its last two decimal digits. */
  lemma TwoDigitSplit(value: int)
    requires value >= 0
    ensures 0 <= Tens(value) <= 9 && 0 <= Ones(value) <= 9
    ensures Tens(value) * 10 + Ones(value) == value % 100
  {
  }

  /** Every hour the face can be asked to show splits into the digits of the hour, in both styles. */
  lemma HourDigits(hour: int, is24h: bool)
    requires 0 <= hour < 24
    ensures var h := DisplayHour(hour, is24h);
      0 <= Tens(h) <= 2 && 0 <= Ones(h) <= 9 && Tens(h) * 10 + Ones(h) == h
    ensures !is24h ==> DisplayHour(hour, is24h) == (if hour == 0 then 12 else if hour > 12 then hour - 12 else hour)
  {
    TwoDigitSplit(DisplayHour(hour, is24h));
  }

  datatype Rect = Rect(x: int, y: int, w: int, h: int)

  /** frame_for_time_slot: slot n sits in column n % 2 and row n / 2 of a 2 x 2 grid. */
  function FrameForTimeSlot(number: int): Rect {
    Rect(MARGIN + CRem(number, 2) * (TIME_IMAGE_WIDTH + TIME_SLOT_SPACE),
         MARGIN + CDiv(number, 2) * (TIME_IMAGE_HEIGHT + TIME_SLOT_SPACE),
         TIME_IMAGE_WIDTH, TIME_IMAGE_HEIGHT)
  }

  predicate Overlap(a: Rect, b: Rect) {
    a.x < b.x + b.w && b.x < a.x + a.w && a.y < b.y + b.h && b.y < a.y + a.h
  }

  /** The four time frames lie inside the square time layer and never overlap. */
  lemma TimeFramesTile(m: int, n: int)
    requires 0 <= m < NUMBER_OF_TIME_SLOTS && 0 <= n < NUMBER_OF_TIME_SLOTS && m != n
    ensures var f := FrameForTimeSlot(n);
      0 <= f.x && f.x + f.w <= SCREEN_WIDTH && 0 <= f.y && f.y + f.h <= SCREEN_WIDTH
    ensures !Overlap(FrameForTimeSlot(m), FrameForTimeSlot(n))
  {
  }

  // ---------------------------------------------------------------------------
  // update_date_slot
  // ---------------------------------------------------------------------------

  /** The state update_date_slot(digit) leaves in a date slot. */
  function DateSlotAfter(state: int, digit: int): int {
    if state == digit then state else LoadedState(EMPTY_SLOT, digit)
  }

  /** A date slot always ends showing a valid digit, and an invalid one leaves it empty or as it was. */
  lemma DateSlotShows(state: int, digit: int)
    ensures 0 <= digit <= 9 ==> DateSlotAfter(state, digit) == digit
    ensures !(0 <= digit <= 9) ==> DateSlotAfter(state, digit) == (if state == digit then state else EMPTY_SLOT)
  {
  }

  /** update_date_slot: swap the digit image when it differs. */
  method UpdateDateSlot(dateSlot: Slot, digit: int)
    modifies dateSlot
    ensures dateSlot.state == DateSlotAfter(old(dateSlot.state), digit)
  {
    if dateSlot.state == digit {
      return;
    }
    dateSlot.Unload();
    var loaded := dateSlot.Load(digit);
  }

  // ---------------------------------------------------------------------------
  // The face: the time_slots and date_slots tables
  // ---------------------------------------------------------------------------

  /** The time-slot loop of init. */
  method NewTimeSlots() returns (a: array<TimeSlot>)
    ensures fresh(a) && a.Length == NUMBER_OF_TIME_SLOTS
    ensures forall i :: 0 <= i < a.Length ==>
      fresh(a[i]) && fresh(a[i].slot) && a[i].slot.number == i && a[i].View() == SlotView(EMPTY_SLOT, EMPTY_SLOT, false)
    ensures forall i, j :: 0 <= i < a.Length && 0 <= j < a.Length && i != j ==> a[i] != a[j] && a[i].slot != a[j].slot
  {
    var made: seq<TimeSlot> := [];
    for i := 0 to NUMBER_OF_TIME_SLOTS
      invariant |made| == i
      invariant forall k :: 0 <= k < i ==>
        fresh(made[k]) && fresh(made[k].slot) && made[k].slot.number == k && made[k].View() == SlotView(EMPTY_SLOT, EMPTY_SLOT, false)
      invariant forall k, l :: 0 <= k < i && 0 <= l < i && k != l ==> made[k] != made[l] && made[k].slot != made[l].slot
    {
      var timeSlot := new TimeSlot(i);
      made := made + [timeSlot];
    }
    a := new TimeSlot[NUMBER_OF_TIME_SLOTS](i requires 0 <= i < |made| => made[i]);
  }

  /** The date-slot loop of init. */
  method NewDateSlots() returns (a: array<Slot>)
    ensures fresh(a) && a.Length == NUMBER_OF_DATE_SLOTS
    ensures forall i :: 0 <= i < a.Length ==> fresh(a[i]) && a[i].number == i && a[i].state == EMPTY_SLOT
    ensures forall i, j :: 0 <= i < a.Length && 0 <= j < a.Length && i != j ==> a[i] != a[j]
  {
    var made: seq<Slot> := [];
    for i := 0 to NUMBER_OF_DATE_SLOTS
      invariant |made| == i
      invariant forall k :: 0 <= k < i ==> fresh(made[k]) && made[k].number == k && made[k].state == EMPTY_SLOT
      invariant forall k, l :: 0 <= k < i && 0 <= l < i && k != l ==> made[k] != made[l]
    {
      var dateSlot := new Slot(i);
      made := made + [dateSlot];
    }
    a := new Slot[NUMBER_OF_DATE_SLOTS](i requires 0 <= i < |made| => made[i]);
  }

  class WatchFace {
    const timeSlots: array<TimeSlot>
    const dateSlots: array<Slot>

    /** Four distinct time slots and four distinct date slots, numbered by position. */
    ghost predicate Valid()
      reads this, timeSlots, dateSlots
    {
      && timeSlots.Length == NUMBER_OF_TIME_SLOTS && dateSlots.Length == NUMBER_OF_DATE_SLOTS
      && (forall i :: 0 <= i < 4 ==> timeSlots[i].slot.number == i && dateSlots[i].number == i)
      && (forall i, j :: 0 <= i < 4 && 0 <= j < 4 && i != j ==>
            timeSlots[i] != timeSlots[j] && timeSlots[i].slot != timeSlots[j].slot && dateSlots[i] != dateSlots[j])
      && (forall i, j :: 0 <= i < 4 && 0 <= j < 4 ==> timeSlots[i].slot != dateSlots[j])
    }

    /** The slot set-up of init: every slot numbered by position, empty and at rest. */
    constructor ()
      ensures Valid()
      ensures fresh(timeSlots) && fresh(dateSlots)
      ensures forall i :: 0 <= i < 4 ==> fresh(timeSlots[i]) && fresh(timeSlots[i].slot) && fresh(dateSlots[i])
      ensures forall i :: 0 <= i < 4 ==> timeSlots[i].View() == SlotView(EMPTY_SLOT, EMPTY_SLOT, false)
      ensures forall i :: 0 <= i < 4 ==> dateSlots[i].state == EMPTY_SLOT
    {
      var t := NewTimeSlots();
      var d := NewDateSlots();
      timeSlots := t;
      dateSlots := d;
    }

    /**
     * display_time_value: the row's right-hand slot (row * 2 + 1) gets the
     * ones digit of value % 100 and its left-hand slot (row * 2) the tens
     * digit, in that order.
     */
    method DisplayTimeValue(value: int, row: int)
      requires Valid() && 0 <= row <= 1
      modifies timeSlots[2 * row], timeSlots[2 * row].slot, timeSlots[2 * row + 1], timeSlots[2 * row + 1].slot
      ensures timeSlots[2 * row + 1].View() == AfterUpdate(old(timeSlots[2 * row + 1].View()), Ones(value))
      ensures timeSlots[2 * row].View() == AfterUpdate(old(timeSlots[2 * row].View()), Tens(value))
    {
      var right, left := timeSlots[2 * row + 1], timeSlots[2 * row];
      var v := CRem(value, 100);
      var column := 1;
      while column >= 0
        invariant -1 <= column <= 1
        invariant column == 1 ==> v == CRem(value, 100)
        invariant column == 0 ==> v == CDiv(CRem(value, 100), 10)
        invariant right.View() == if column < 1 then AfterUpdate(old(right.View()), Ones(value)) else old(right.View())
        invariant left.View() == if column < 0 then AfterUpdate(old(left.View()), Tens(value)) else old(left.View())
      {
        var timeSlotNumber := row * 2 + column;
        timeSlots[timeSlotNumber].Update(CRem(v, 10));
        v := CDiv(v, 10);
        column := column - 1;
      }
    }

    /** display_time: the hour (converted for 12-hour style) in the top row, the minute in the bottom one. */
    method DisplayTime(hour: int, minute: int, is24h: bool)
      requires Valid()
      modifies timeSlots[0], timeSlots[0].slot, timeSlots[1], timeSlots[1].slot
      modifies timeSlots[2], timeSlots[2].slot, timeSlots[3], timeSlots[3].slot
      ensures var h := DisplayHour(hour, is24h);
        && timeSlots[0].View() == AfterUpdate(old(timeSlots[0].View()), Tens(h))
        && timeSlots[1].View() == AfterUpdate(old(timeSlots[1].View()), Ones(h))
        && timeSlots[2].View() == AfterUpdate(old(timeSlots[2].View()), Tens(minute))
        && timeSlots[3].View() == AfterUpdate(old(timeSlots[3].View()), Ones(minute))
    {
      var h := DisplayHour(hour, is24h);
      DisplayTimeValue(h, 0);
      DisplayTimeValue(minute, 1);
    }

    /** display_date_value: as display_time_value, over the date slots. */
    method DisplayDateValue(value: int, partNumber: int)
      requires Valid() && 0 <= partNumber <= 1
      modifies dateSlots[2 * partNumber], dateSlots[2 * partNumber + 1]
      ensures dateSlots[2 * partNumber + 1].state == DateSlotAfter(old(dateSlots[2 * partNumber + 1].state), Ones(value))
      ensures dateSlots[2 * partNumber].state == DateSlotAfter(old(dateSlots[2 * partNumber].state), Tens(value))
    {
      var right, left := dateSlots[2 * partNumber + 1], dateSlots[2 * partNumber];
      var v := CRem(value, 100);
      var column := 1;
      while column >= 0
        invariant -1 <= column <= 1
        invariant column == 1 ==> v == CRem(value, 100)
        invariant column == 0 ==> v == CDiv(CRem(value, 100), 10)
        invariant right.state == if column < 1 then DateSlotAfter(old(right.state), Ones(value)) else old(right.state)
        invariant left.state == if column < 0 then DateSlotAfter(old(left.state), Tens(value)) else old(left.state)
      {
        var dateSlotNumber := partNumber * 2 + column;
        UpdateDateSlot(dateSlots[dateSlotNumber], CRem(v, 10));
        v := CDiv(v, 10);
        column := column - 1;
      }
    }

    /**
     * display_date in the day-first layout the face is built with: the day
     * of the month in the left pair, the month (tm_mon + 1) in the right.
     * For a real date the four slots then spell it out.
     */
    method DisplayDate(mday: int, mon: int)
      requires Valid()
      modifies dateSlots[0], dateSlots[1], dateSlots[2], dateSlots[3]
      ensures dateSlots[0].state == DateSlotAfter(old(dateSlots[0].state), Tens(mday))
      ensures dateSlots[1].state == DateSlotAfter(old(dateSlots[1].state), Ones(mday))
      ensures dateSlots[2].state == DateSlotAfter(old(dateSlots[2].state), Tens(mon + 1))
      ensures dateSlots[3].state == DateSlotAfter(old(dateSlots[3].state), Ones(mon + 1))
      ensures 1 <= mday <= 31 && 0 <= mon <= 11 ==>
        && dateSlots[0].state * 10 + dateSlots[1].state == mday
        && dateSlots[2].state * 10 + dateSlots[3].state == mon + 1
    {
      var day := mday;
      var month := mon + 1;
      DisplayDateValue(day, 0);
      DisplayDateValue(month, 1);
      if 1 <= mday <= 31 && 0 <= mon <= 11 {
        TwoDigitSplit(day);
        TwoDigitSplit(month);
      }
    }

    /** handle_minute_tick: redraw the time every minute and the date when the day changed. */
    method HandleMinuteTick(hour: int, minute: int, mday: int, mon: int, is24h: bool, dayChanged: bool)
      requires Valid()
      modifies timeSlots[0], timeSlots[0].slot, timeSlots[1], timeSlots[1].slot
      modifies timeSlots[2], timeSlots[2].slot, timeSlots[3], timeSlots[3].slot
      modifies dateSlots[0], dateSlots[1], dateSlots[2], dateSlots[3]
      ensures var h := DisplayHour(hour, is24h);
        && timeSlots[0].View() == AfterUpdate(old(timeSlots[0].View()), Tens(h))
        && timeSlots[1].View() == AfterUpdate(old(timeSlots[1].View()), Ones(h))
        && timeSlots[2].View() == AfterUpdate(old(timeSlots[2].View()), Tens(minute))
        && timeSlots[3].View() == AfterUpdate(old(timeSlots[3].View()), Ones(minute))
      ensures !dayChanged ==> forall i :: 0 <= i < 4 ==> dateSlots[i].state == old(dateSlots[i].state)
      ensures dayChanged ==>
        && dateSlots[0].state == DateSlotAfter(old(dateSlots[0].state), Tens(mday))
        && dateSlots[1].state == DateSlotAfter(old(dateSlots[1].state), Ones(mday))
        && dateSlots[2].state == DateSlotAfter(old(dateSlots[2].state), Tens(mon + 1))
        && dateSlots[3].state == DateSlotAfter(old(dateSlots[3].state), Ones(mon + 1))
      ensures dayChanged && 1 <= mday <= 31 && 0 <= mon <= 11 ==>
        && dateSlots[0].state * 10 + dateSlots[1].state == mday
        && dateSlots[2].state * 10 + dateSlots[3].state == mon + 1
    {
      DisplayTime(hour, minute, is24h);
      if dayChanged {
        DisplayDate(mday, mon);
      }
    }
  }
}
