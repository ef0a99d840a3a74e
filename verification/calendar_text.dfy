/**
 * The text handling of src/calendar.c: a_to_i, is_date_today, the position
 * heuristic that finds an event's start time, and the countdown text of
 * set_relative_desc.
 *
 * A C string is modelled by its characters before the terminating NUL.
 * `CharAt` reads past the end as NUL. This is an assumption of the model:
 * the arrays of an `Event` are filled by memcpy from the phone's message, so
 * the bytes after the first NUL are whatever the phone sent, and the model
 * takes them to be NUL.
 */
module CalendarText {
  import opened CalendarTypes

  function CharAt(s: string, i: int): char {
    if 0 <= i < |s| then s[i] else '\0'
  }

  /** The character C reads at `(&s[pos])[j]`. */
  function At(s: string, pos: int, j: int): char {
    CharAt(s, pos + j)
  }

  predicate IsDigitChar(c: char) {
    '0' <= c <= '9'
  }

  function DigitOf(c: char): nat
    requires IsDigitChar(c)
  {
    c as int - '0' as int
  }

  function DigitChar(d: nat): char
    requires d < 10
  {
    ('0' as int + d) as char
  }

  function Pow10(n: nat): nat {
    if n == 0 then 1 else 10 * Pow10(n - 1)
  }

  // ---------------------------------------------------------------------------
  // a_to_i (src/calendar.c:41-50)
  // ---------------------------------------------------------------------------

  /**
   * The position, counted from `pos`, at which a_to_i stops: the first
   * non-digit at or after offset `i`, or `len`.
   */
  function DigitRunFrom(s: string, pos: int, i: nat, len: nat): (k: nat)
    requires i <= len
    ensures i <= k <= len
    ensures forall j :: i <= j < k ==> IsDigitChar(At(s, pos, j))
    ensures k < len ==> !IsDigitChar(At(s, pos, k))
    decreases len - i
  {
    if i == len || !IsDigitChar(At(s, pos, i)) then i else DigitRunFrom(s, pos, i + 1, len)
  }

  /** The decimal number spelled by the `k` digits at `s[pos..]`. */
  function DigitsValue(s: string, pos: int, k: nat): nat
    requires forall j :: 0 <= j < k ==> IsDigitChar(At(s, pos, j))
  {
    if k == 0 then 0 else DigitsValue(s, pos, k - 1) * 10 + DigitOf(At(s, pos, k - 1))
  }

  /** The value a_to_i(&s[pos], len) returns: the number spelled by the digit run it reads. */
  function LeadingValue(s: string, pos: int, len: nat): nat {
    DigitsValue(s, pos, DigitRunFrom(s, pos, 0, len))
  }

  /** a_to_i(&val[pos], len): accumulate digits until a non-digit or `len` characters. */
  method AToI(val: string, pos: int, len: nat) returns (result: int)
    ensures result == LeadingValue(val, pos, len)
  {
    result := 0;
    var i: nat := 0;
    while i < len
      invariant i <= len
      invariant forall j :: 0 <= j < i ==> IsDigitChar(At(val, pos, j))
      invariant DigitRunFrom(val, pos, 0, len) == DigitRunFrom(val, pos, i, len)
      invariant result == DigitsValue(val, pos, i)
    {
      var c := At(val, pos, i);
      if c < '0' || c > '9' {
        break;
      }
      result := result * 10;
      result := result + (c as int - '0' as int);
      i := i + 1;
    }
  }

  lemma {:induction false} DigitsValueBound(s: string, pos: int, k: nat)
    requires forall j :: 0 <= j < k ==> IsDigitChar(At(s, pos, j))
    ensures DigitsValue(s, pos, k) < Pow10(k)
  {
    if k > 0 {
      DigitsValueBound(s, pos, k - 1);
    }
  }

  /**
   * With `len` = 2, as every caller passes it, a_to_i yields 0..99, and 0 when
   * the first character is not a digit.
   */
  lemma TwoDigitValue(s: string, pos: int)
    ensures LeadingValue(s, pos, 2) <= 99
    ensures !IsDigitChar(At(s, pos, 0)) ==> LeadingValue(s, pos, 2) == 0
    ensures IsDigitChar(At(s, pos, 0)) && !IsDigitChar(At(s, pos, 1)) ==>
              LeadingValue(s, pos, 2) == DigitOf(At(s, pos, 0))
  {
    var k := DigitRunFrom(s, pos, 0, 2);
    DigitsValueBound(s, pos, k);
    assert Pow10(k) <= 100 by {
      assert Pow10(0) == 1 && Pow10(1) == 10 && Pow10(2) == 100;
    }
  }

  /** The value of a run of k digits depends only on those k characters. */
  lemma {:induction false} DigitsValueShift(s: string, t: string, pos: int, tpos: int, k: nat)
    requires forall j :: 0 <= j < k ==> At(s, pos, j) == At(t, tpos, j)
    requires forall j :: 0 <= j < k ==> IsDigitChar(At(s, pos, j))
    ensures DigitsValue(s, pos, k) == DigitsValue(t, tpos, k)
  {
    if k > 0 {
      DigitsValueShift(s, t, pos, tpos, k - 1);
    }
  }

  /**
   * a_to_i reads the digit run and the character that stops it, and nothing
   * else: two strings that agree there give the same run and the same value.
   */
  lemma {:induction false} LeadingValueShift(s: string, t: string, pos: int, tpos: int, len: nat)
    requires forall j :: 0 <= j < len && j <= DigitRunFrom(s, pos, 0, len) ==> At(s, pos, j) == At(t, tpos, j)
    ensures DigitRunFrom(t, tpos, 0, len) == DigitRunFrom(s, pos, 0, len)
    ensures LeadingValue(t, tpos, len) == LeadingValue(s, pos, len)
  {
    var k := DigitRunFrom(s, pos, 0, len);
    RunAgrees(s, t, pos, tpos, 0, len);
    DigitsValueShift(s, t, pos, tpos, k);
  }

  lemma {:induction false} RunAgrees(s: string, t: string, pos: int, tpos: int, i: nat, len: nat)
    requires i <= len
    requires forall j :: i <= j < len && j <= DigitRunFrom(s, pos, i, len) ==> At(s, pos, j) == At(t, tpos, j)
    ensures DigitRunFrom(t, tpos, i, len) == DigitRunFrom(s, pos, i, len)
    decreases len - i
  {
    if i < len && IsDigitChar(At(s, pos, i)) {
      RunAgrees(s, t, pos, tpos, i + 1, len);
    }
  }

  /** a_to_i(&s[pos], len) reads the same as a_to_i on the suffix that starts at `pos`. */
  lemma LeadingValueSuffix(s: string, pos: nat, len: nat)
    requires pos <= |s|
    ensures LeadingValue(s, pos, len) == LeadingValue(s[pos..], 0, len)
  {
    LeadingValueShift(s, s[pos..], pos, 0, len);
  }

  // ---------------------------------------------------------------------------
  // Decimal printing, as snprintf "%ld" does it for a non-negative number
  // ---------------------------------------------------------------------------

  function DecimalText(n: nat): (t: string)
    ensures 1 <= |t|
    ensures forall i :: 0 <= i < |t| ==> IsDigitChar(t[i])
  {
    if n < 10 then [DigitChar(n)] else DecimalText(n / 10) + [DigitChar(n % 10)]
  }

  /** Reading back what "%ld" printed with a_to_i gives the number printed. */
  lemma {:induction false} DecimalTextRoundTrip(n: nat)
    ensures LeadingValue(DecimalText(n), 0, |DecimalText(n)|) == n
  {
    var t := DecimalText(n);
    assert DigitRunFrom(t, 0, 0, |t|) == |t| by {
      AllDigitsRun(t, 0);
    }
    DigitsValueOfDecimal(n);
  }

  lemma {:induction false} AllDigitsRun(t: string, i: nat)
    requires i <= |t|
    requires forall j :: 0 <= j < |t| ==> IsDigitChar(t[j])
    ensures DigitRunFrom(t, 0, i, |t|) == |t|
    decreases |t| - i
  {
    if i < |t| {
      AllDigitsRun(t, i + 1);
    }
  }

  lemma {:induction false} DigitsValueOfDecimal(n: nat)
    ensures DigitsValue(DecimalText(n), 0, |DecimalText(n)|) == n
  {
    var t := DecimalText(n);
    if n >= 10 {
      var u := DecimalText(n / 10);
      assert t == u + [DigitChar(n % 10)];
      DigitsValueOfDecimal(n / 10);
      DigitsValueShift(t, u, 0, 0, |u|);
    }
  }

  lemma {:induction false} DecimalTextLength(n: nat, k: nat)
    requires n < Pow10(k)
    ensures |DecimalText(n)| <= if k == 0 then 1 else k
  {
    if n >= 10 {
      assert Pow10(0) == 1 && Pow10(1) == 10;
      DecimalTextLength(n / 10, k - 1);
    }
  }

  // ---------------------------------------------------------------------------
  // is_date_today (src/calendar.c:55-65)
  // ---------------------------------------------------------------------------

  /** strncmp(a + i, b + i, n - i) == 0: equal up to `n`, or up to a NUL both reach together. */
  function StrnEqFrom(a: string, b: string, i: nat, n: nat): bool
    decreases n - i
  {
    i >= n ||
    (CharAt(a, i) == CharAt(b, i) && (CharAt(a, i) == '\0' || StrnEqFrom(a, b, i + 1, n)))
  }

  /** is_date_today: the first five characters of `date` match today's "MM/DD". */
  predicate IsDateToday(date: string, today: string) {
    StrnEqFrom(date, today, 0, 5)
  }

  /** Because "MM/DD" has no NUL, strncmp compares all five characters. */
  lemma DateTodayIff(date: string, today: string)
    requires IsMonthDay(today)
    ensures IsDateToday(date, today) <==> forall i :: 0 <= i < 5 ==> CharAt(date, i) == today[i]
  {
    StrnEqNoNul(date, today, 0);
  }

  lemma {:induction false} StrnEqNoNul(a: string, b: string, i: nat)
    requires i <= 5 && IsMonthDay(b)
    ensures StrnEqFrom(a, b, i, 5) <==> forall j :: i <= j < 5 ==> CharAt(a, j) == b[j]
    decreases 5 - i
  {
    if i < 5 {
      assert CharAt(b, i) == b[i] && b[i] != '\0';
      StrnEqNoNul(a, b, i + 1);
    }
  }

  // ---------------------------------------------------------------------------
  // The start-time heuristic (src/calendar.c:130-140, repeated at 268-278)
  // ---------------------------------------------------------------------------

  /** The hour is read at 9 when the sixth character is '/' ("MM/DD/YY HH:MM"), else at 6 ("MM/DD HH:MM"). */
  function TimePosition(d: string): int {
    if CharAt(d, 5) != '/' then 6 else 9
  }

  /** The minute follows a one-digit hour at +2 when a ':' comes right after it, else at +3. */
  function MinutePosition(d: string): int {
    var t := TimePosition(d);
    if CharAt(d, t + 1) == ':' then t + 2 else t + 3
  }

  function StartHour(d: string): nat {
    LeadingValue(d, TimePosition(d), 2)
  }

  function StartMinute(d: string): nat {
    LeadingValue(d, MinutePosition(d), 2)
  }

  /** `event_in_ms`: the start time of day in milliseconds. */
  function StartMs(d: string): (ms: nat)
    ensures ms <= (99 * 3600 + 99 * 60) * 1000
  {
    TwoDigitValue(d, TimePosition(d));
    TwoDigitValue(d, MinutePosition(d));
    (StartHour(d) * 3600 + StartMinute(d) * 60) * 1000
  }

  /** The two lines of C that compute `event_in_ms` from a start date. */
  method ParseStartMs(d: string) returns (ms: int)
    ensures ms == StartMs(d)
  {
    var timePosition := 9;
    if CharAt(d, 5) != '/' {
      timePosition := 6;
    }
    var hour := AToI(d, timePosition, 2);
    var minutePosition := timePosition + 3;
    if CharAt(d, timePosition + 1) == ':' {
      minutePosition := timePosition + 2;
    }
    var minute := AToI(d, minutePosition, 2);
    ms := (hour * 3600 + minute * 60) * 1000;
  }

  /** Both date widths the heuristic accepts, with two-digit and one-digit hours. */
  lemma StartTimeFormats()
    ensures StartHour("10/11/13 14:30") == 14 && StartMinute("10/11/13 14:30") == 30
    ensures StartHour("10/11 14:30") == 14 && StartMinute("10/11 14:30") == 30
    ensures StartHour("10/11 9:05") == 9 && StartMinute("10/11 9:05") == 5
  {
    var a := "10/11/13 14:30";
    assert TimePosition(a) == 9 && MinutePosition(a) == 12;
    TwoDigitsAt(a, 9);
    TwoDigitsAt(a, 12);
    var b := "10/11 14:30";
    assert TimePosition(b) == 6 && MinutePosition(b) == 9;
    TwoDigitsAt(b, 6);
    TwoDigitsAt(b, 9);
    var c := "10/11 9:05";
    assert TimePosition(c) == 6 && MinutePosition(c) == 8;
    TwoDigitsAt(c, 8);
    assert DigitRunFrom(c, 6, 1, 2) == 1;
    assert DigitRunFrom(c, 6, 0, 2) == 1;
  }

  lemma TwoDigitsAt(s: string, pos: int)
    requires IsDigitChar(At(s, pos, 0)) && IsDigitChar(At(s, pos, 1))
    ensures LeadingValue(s, pos, 2) == DigitOf(At(s, pos, 0)) * 10 + DigitOf(At(s, pos, 1))
  {
    assert DigitRunFrom(s, pos, 2, 2) == 2;
    assert DigitRunFrom(s, pos, 1, 2) == 2;
    assert DigitRunFrom(s, pos, 0, 2) == 2;
    assert DigitsValue(s, pos, 1) == DigitOf(At(s, pos, 0));
  }

  // ---------------------------------------------------------------------------
  // set_relative_desc (src/calendar.c:67-82)
  // ---------------------------------------------------------------------------

  /** The five kinds of countdown text. */
  datatype Countdown = Now | OneMinute | Minutes(n: nat) | OneHour | Hours(n: nat)

  /**
   * Which text describes `alertEvent` milliseconds to go. The count shown is
   * rounded down: "In N mins" means at least N and under N + 1 minutes.
   */
  function CountdownOf(alertEvent: int): (c: Countdown)
    ensures c == Now <==> alertEvent == 0
    ensures c == OneMinute ==> alertEvent < 2 * MINUTE_MS
    ensures c.Minutes? ==> 2 <= c.n <= 59 && c.n * MINUTE_MS <= alertEvent < (c.n + 1) * MINUTE_MS
    ensures c == OneHour ==> 60 * MINUTE_MS <= alertEvent < 120 * MINUTE_MS
    ensures c.Hours? ==> 2 <= c.n && c.n * 3600000 <= alertEvent < (c.n + 1) * 3600000
  {
    if alertEvent == 0 then Now
    else if alertEvent < 120000 then OneMinute
    else if alertEvent < 3600000 then Minutes(alertEvent / 60000)
    else if alertEvent < 7200000 then OneHour
    else Hours(alertEvent / 3600000)
  }

  function Render(c: Countdown): string {
    match c
    case Now => "Now"
    case OneMinute => "In 1 min"
    case Minutes(n) => "In " + DecimalText(n) + " mins"
    case OneHour => "In 1 hour"
    case Hours(n) => "In " + DecimalText(n) + " hours"
  }

  /** The text set_relative_desc stores in `relative_desc`. */
  function RelativeText(alertEvent: int): string {
    Render(CountdownOf(alertEvent))
  }

  /**
   * For every delay an event of the same day can have, the text fits the
   * 21-byte `relative_desc` buffer with its NUL.
   */
  lemma RelativeTextFits(alertEvent: int)
    requires alertEvent <= (99 * 3600 + 99 * 60) * 1000
    ensures |RelativeText(alertEvent)| <= 20
  {
    var c := CountdownOf(alertEvent);
    assert Pow10(2) == 100 && Pow10(3) == 1000 by {
      assert Pow10(0) == 1 && Pow10(1) == 10;
    }
    if c.Minutes? {
      DecimalTextLength(c.n, 2);
    } else if c.Hours? {
      DecimalTextLength(c.n, 3);
    }
  }
}
