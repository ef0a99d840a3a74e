/**
 * The status rules of the watch face (src/Revolution.c): which battery icon
 * is set and when the battery layer is hidden, and the Bluetooth guard that
 * buzzes once when the connection is lost. The layers themselves are
 * graphics; what is kept is the globals the handlers update.
 */
module WatchStatus {

  /** A C `uint8_t`. */
  type Byte = x: int | 0 <= x < 256

  const LOW_BATTERY_LEVEL: int := 10
  const VIBRATE_CHECK_MS: int := 5000
  const SECOND_PULSE_MS: int := 350

  // ---------------------------------------------------------------------------
  // draw_battery_icon
  // ---------------------------------------------------------------------------

  /** The bitmap on the battery layer: none yet, the charging icon, or the icon for a level. */
  datatype BatteryIcon = NoIcon | ChargingIcon | LevelIcon(percent: int)

  /** The levels that have an icon of their own: 10, 20, ..., 100. */
  predicate HasLevelIcon(level: int) {
    level % 10 == 0 && 10 <= level <= 100
  }

  /**
   * The icon draw_battery_icon sets. Plugged in with the status hidden, it is
   * the charging icon or the full one; otherwise a level with an icon of its
   * own gets it, and any other level keeps the icon already set.
   */
  function BatteryIconAfter(icon: BatteryIcon, plugged: bool, charging: bool, level: int, showing: bool): (r: BatteryIcon)
    ensures plugged && !showing && charging ==> r == ChargingIcon
    ensures plugged && !showing && !charging ==> r == LevelIcon(100)
    ensures !(plugged && !showing) && HasLevelIcon(level) ==> r == LevelIcon(level)
    ensures !(plugged && !showing) && !HasLevelIcon(level) ==> r == icon
  {
    if plugged && !showing then
      if charging then ChargingIcon else LevelIcon(100)
    else if level == 100 then LevelIcon(100)
    else if level == 90 then LevelIcon(90)
    else if level == 80 then LevelIcon(80)
    else if level == 70 then LevelIcon(70)
    else if level == 60 then LevelIcon(60)
    else if level == 50 then LevelIcon(50)
    else if level == 40 then LevelIcon(40)
    else if level == 30 then LevelIcon(30)
    else if level == 20 then LevelIcon(20)
    else if level == 10 then LevelIcon(10)
    else icon
  }

  /** The hide decision of draw_battery_icon: hidden exactly when unplugged, above 10 % and the status is not showing. */
  function BatteryHidden(plugged: bool, level: int, showing: bool): (hidden: bool)
    ensures hidden <==> !plugged && level > LOW_BATTERY_LEVEL && !showing
  {
    if plugged then false
    else if level <= LOW_BATTERY_LEVEL then false
    else if showing then false
    else true
  }

  // ---------------------------------------------------------------------------
  // bt_vibrate and bt_connection_handler
  // ---------------------------------------------------------------------------

  /** The globals of the Bluetooth guard. */
  datatype BtState = BtState(connected: bool, alreadyVibrated: bool)

  /** The calls the Bluetooth handlers make. */
  datatype BtEffect =
    | ShortPulseAfter(delayMs: int)   // app_timer_register(delay, short_pulse, NULL)
    | CancelVibrateCheck              // app_timer_cancel(vibrate_timer)
    | ScheduleVibrateCheck(delayMs: int) // app_timer_register(5000, bt_vibrate, NULL)

  /** Whether bt_vibrate buzzes in state `s`. */
  predicate Buzzes(s: BtState) {
    !s.connected && !s.alreadyVibrated
  }

  /** bt_vibrate. */
  function AfterVibrateCheck(s: BtState): BtState {
    if Buzzes(s) then s.(alreadyVibrated := true) else s
  }

  function VibrateCheckEffects(s: BtState): seq<BtEffect> {
    if Buzzes(s) then [ShortPulseAfter(0), ShortPulseAfter(SECOND_PULSE_MS)] else []
  }

  /** bt_connection_handler(bt). */
  function AfterConnection(s: BtState, bt: bool): BtState {
    if !bt then s.(connected := false)
    else if s.alreadyVibrated then s.(connected := true, alreadyVibrated := false)
    else s.(connected := true)
  }

  function ConnectionEffects(bt: bool): seq<BtEffect> {
    if bt then [CancelVibrateCheck] else [CancelVibrateCheck, ScheduleVibrateCheck(VIBRATE_CHECK_MS)]
  }

  /** What the Bluetooth guard can be told: a connection change, or the 5 s check firing. */
  datatype BtInput = Connection(bt: bool) | VibrateCheck

  /** The state after a sequence of inputs. */
  function BtRun(s: BtState, inputs: seq<BtInput>): BtState
    decreases |inputs|
  {
    if inputs == [] then s
    else
      var next := match inputs[0]
        case Connection(bt) => AfterConnection(s, bt)
        case VibrateCheck => AfterVibrateCheck(s);
      BtRun(next, inputs[1..])
  }

  /** The number of double buzzes a sequence of inputs produces. */
  function Vibrations(s: BtState, inputs: seq<BtInput>): nat
    decreases |inputs|
  {
    if inputs == [] then 0
    else match inputs[0]
      case Connection(bt) => Vibrations(AfterConnection(s, bt), inputs[1..])
      case VibrateCheck => (if Buzzes(s) then 1 else 0) + Vibrations(AfterVibrateCheck(s), inputs[1..])
  }

  /**
   * Between two reconnections the watch buzzes at most once, however often
   * the check fires or the link drops again; and not at all once it has
   * buzzed.
   */
  lemma {:induction false} AtMostOneVibration(s: BtState, inputs: seq<BtInput>)
    requires forall i :: 0 <= i < |inputs| ==> inputs[i] != Connection(true)
    ensures Vibrations(s, inputs) <= 1
    ensures s.alreadyVibrated ==> Vibrations(s, inputs) == 0
    decreases |inputs|
  {
    if inputs != [] {
      var rest := inputs[1..];
      assert forall i :: 0 <= i < |rest| ==> rest[i] == inputs[i + 1];
      match inputs[0]
      case Connection(bt) =>
        AtMostOneVibration(AfterConnection(s, bt), rest);
      case VibrateCheck =>
        AtMostOneVibration(AfterVibrateCheck(s), rest);
    }
  }

  /** Reconnecting re-arms the guard: whatever happened before, a new loss of the link is reported. */
  lemma ReconnectRearms(s: BtState)
    ensures Vibrations(s, [Connection(true), Connection(false), VibrateCheck]) == 1
    ensures !BtRun(s, [Connection(true)]).alreadyVibrated
  {
    var t := [Connection(true), Connection(false), VibrateCheck];
    assert t[1..] == [Connection(false), VibrateCheck];
    assert t[1..][1..] == [VibrateCheck];
    assert [Connection(true)][1..] == [];
  }

  // ---------------------------------------------------------------------------
  // The status globals
  // ---------------------------------------------------------------------------

  class Status {
    var batteryLevel: Byte
    var batteryPlugged: bool
    var batteryCharging: bool
    var batteryHide: bool
    /** The bitmap last set on the battery layer. */
    var batteryIcon: BatteryIcon
    var statusShowing: bool
    var btStatus: bool
    var alreadyVibrated: bool

    /** The initial values of the globals. */
    constructor ()
      ensures batteryLevel == 0 && !batteryPlugged && !batteryCharging && !batteryHide
      ensures batteryIcon == NoIcon && !statusShowing && !btStatus && !alreadyVibrated
    {
      batteryLevel := 0;
      batteryPlugged, batteryCharging, batteryHide := false, false, false;
      batteryIcon := NoIcon;
      statusShowing := false;
      btStatus, alreadyVibrated := false, false;
    }

    function Bt(): BtState
      reads this
    {
      BtState(btStatus, alreadyVibrated)
    }

    /** draw_battery_icon: choose the icon, then decide whether the layer is hidden. */
    method DrawBatteryIcon()
      modifies this`batteryIcon, this`batteryHide
      ensures batteryIcon == BatteryIconAfter(old(batteryIcon), batteryPlugged, batteryCharging, batteryLevel, statusShowing)
      ensures batteryHide <==> !batteryPlugged && batteryLevel > LOW_BATTERY_LEVEL && !statusShowing
    {
      if batteryPlugged && !statusShowing {
        if batteryCharging {
          batteryIcon := ChargingIcon;
        } else {
          batteryIcon := LevelIcon(100);
        }
      } else {
        if batteryLevel == 100 { batteryIcon := LevelIcon(100); }
        else if batteryLevel == 90 { batteryIcon := LevelIcon(90); }
        else if batteryLevel == 80 { batteryIcon := LevelIcon(80); }
        else if batteryLevel == 70 { batteryIcon := LevelIcon(70); }
        else if batteryLevel == 60 { batteryIcon := LevelIcon(60); }
        else if batteryLevel == 50 { batteryIcon := LevelIcon(50); }
        else if batteryLevel == 40 { batteryIcon := LevelIcon(40); }
        else if batteryLevel == 30 { batteryIcon := LevelIcon(30); }
        else if batteryLevel == 20 { batteryIcon := LevelIcon(20); }
        else if batteryLevel == 10 { batteryIcon := LevelIcon(10); }
      }
      batteryHide := BatteryHidden(batteryPlugged, batteryLevel, statusShowing);
    }

    /** battery_state_handler: record the new charge state and redraw. */
    method BatteryStateHandler(chargePercent: Byte, isPlugged: bool, isCharging: bool)
      modifies this`batteryLevel, this`batteryPlugged, this`batteryCharging, this`batteryIcon, this`batteryHide
      ensures batteryLevel == chargePercent && batteryPlugged == isPlugged && batteryCharging == isCharging
      ensures batteryIcon == BatteryIconAfter(old(batteryIcon), isPlugged, isCharging, chargePercent, statusShowing)
      ensures batteryHide <==> !isPlugged && chargePercent > LOW_BATTERY_LEVEL && !statusShowing
    {
      batteryLevel := chargePercent;
      batteryPlugged := isPlugged;
      batteryCharging := isCharging;
      DrawBatteryIcon();
    }

    /** show_status, as far as the battery goes: the status is shown, so the battery layer is never hidden. */
    method ShowStatus()
      modifies this`statusShowing, this`batteryIcon, this`batteryHide
      ensures statusShowing && !batteryHide
      ensures batteryIcon == BatteryIconAfter(old(batteryIcon), batteryPlugged, batteryCharging, batteryLevel, true)
    {
      statusShowing := true;
      DrawBatteryIcon();
    }

    /** hide_status, as far as the battery goes: the battery stays visible only when plugged in or at 10 % or less. */
    method HideStatus()
      modifies this`statusShowing, this`batteryIcon, this`batteryHide
      ensures !statusShowing
      ensures batteryHide <==> !batteryPlugged && batteryLevel > LOW_BATTERY_LEVEL
      ensures batteryIcon == BatteryIconAfter(old(batteryIcon), batteryPlugged, batteryCharging, batteryLevel, false)
    {
      statusShowing := false;
      DrawBatteryIcon();
    }

    /** bt_vibrate: buzz twice, once per loss of the link, if it is still down. */
    method BtVibrate() returns (fx: seq<BtEffect>)
      modifies this`alreadyVibrated
      ensures Bt() == AfterVibrateCheck(old(Bt()))
      ensures fx == VibrateCheckEffects(old(Bt()))
    {
      fx := [];
      if !btStatus && !alreadyVibrated {
        alreadyVibrated := true;
        fx := [ShortPulseAfter(0), ShortPulseAfter(SECOND_PULSE_MS)];
      }
    }

    /** bt_connection_handler: record the link state, cancel the pending check, and re-arm or reset the guard. */
    method BtConnectionHandler(bt: bool) returns (fx: seq<BtEffect>)
      modifies this`btStatus, this`alreadyVibrated
      ensures Bt() == AfterConnection(old(Bt()), bt)
      ensures fx == ConnectionEffects(bt)
    {
      btStatus := bt;
      fx := [CancelVibrateCheck];
      if !btStatus {
        fx := fx + [ScheduleVibrateCheck(VIBRATE_CHECK_MS)];
      } else if btStatus && alreadyVibrated {
        alreadyVibrated := false;
      }
    }
  }
}
