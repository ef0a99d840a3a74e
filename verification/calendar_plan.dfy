/**
 * The calendar engine of src/calendar.c stated on values: what each of its
 * operations does to the two 15-slot tables, and which platform calls it
 * makes. The class in calendar_engine.dfy is proved to do exactly this; the
 * lemmas here state what the engine guarantees: which slots a pass arms,
 * the alert cap, that a batch split over several tuples fills the table as
 * one tuple would, and which alert timers are outstanding.
 */
module CalendarPlan {
  import opened CalendarTypes
  import opened CalendarText

  function Min(a: int, b: int): int {
    if a < b then a else b
  }

  const TWO_31: int := 0x8000_0000
  const TWO_32: int := 0x1_0000_0000

  // ---------------------------------------------------------------------------
  // Time arithmetic
  // ---------------------------------------------------------------------------

  /** `now_in_ms`: the time of day in milliseconds. */
  function NowMs(now: Clock): int {
    (now.hour * 3600 + now.min * 60 + now.sec) * 1000
  }

  /**
   * `alert_event`: the uint32 difference `event_in_ms - now_in_ms` stored in
   * an int32_t (the conversion wraps modulo 2^32). For every clock localtime
   * can report, nothing wraps and the result is the plain difference.
   */
  function AlertDelta(startDate: string, now: Clock): (d: int)
    ensures -TWO_31 <= d < TWO_31
    ensures ValidClock(now) ==> d == StartMs(startDate) - NowMs(now)
  {
    var u := (StartMs(startDate) - NowMs(now)) % TWO_32;
    if u < TWO_31 then u else u - TWO_32
  }

  /**
   * The three filters of determine_if_alarm_needed: not all-day, dated today,
   * and not started yet.
   */
  predicate Qualifies(e: Event, now: Clock) {
    !e.allDay && IsDateToday(e.startDate, now.today) && AlertDelta(e.startDate, now) >= 0
  }

  /**
   * The timer registered for slot `num` when the event is `d` ms away: at
   * zero, a dismiss after the 30 s hold; otherwise a tick at the next minute
   * boundary.
   */
  function NextTimer(d: int, num: nat, now: Clock): (r: Effect)
    requires d >= 0 && num < MAX_EVENTS
    ensures r.Register? && IsAlertCookie(r.cookie) && OwnerIndex(r.cookie) == num
    ensures d == 0 ==> DecodeCookie(r.cookie) == Dismiss(num) && r.delayMs == ALERT_HOLD_MS
    ensures d > 0 ==> DecodeCookie(r.cookie) == Tick(num)
    ensures d > 0 && ValidClock(now) ==>
              0 <= r.delayMs <= MINUTE_MS && (NowMs(now) + r.delayMs) % MINUTE_MS == 0
  {
    if d == 0 then Register(ALERT_HOLD_MS, ALERT_EVENT + num)
    else Register(MINUTE_MS - now.sec * 1000, TICK_EVENT + num)
  }

  // ---------------------------------------------------------------------------
  // Outstanding alert timers
  // ---------------------------------------------------------------------------

  /**
   * The alert timers outstanding after one platform call: registering a
   * dismiss or tick cookie adds it, cancelling a handle removes its cookie,
   * and every other call leaves the set alone.
   */
  function Track(p: set<int>, e: Effect): set<int> {
    match e
    case Register(_, c) => if IsAlertCookie(c) then p + {c} else p
    case Cancel(h) => if h.Timer? then p - {h.cookie} else p
    case _ => p
  }

  /** The alert timers outstanding after the calls `fx`, made in order, starting from `p`. */
  function PendingAfter(p: set<int>, fx: seq<Effect>): set<int>
    decreases |fx|
  {
    if fx == [] then p else PendingAfter(Track(p, fx[0]), fx[1..])
  }

  /** Replaying two runs of calls one after the other is replaying their concatenation. */
  lemma {:induction false} PendingAfterConcat(p: set<int>, a: seq<Effect>, b: seq<Effect>)
    ensures PendingAfter(p, a + b) == PendingAfter(PendingAfter(p, a), b)
    decreases |a|
  {
    if a == [] {
      assert a + b == b;
    } else {
      assert (a + b)[0] == a[0] && (a + b)[1..] == a[1..] + b;
      PendingAfterConcat(Track(p, a[0]), a[1..], b);
    }
  }

  lemma PendingAfterSnoc(p: set<int>, fx: seq<Effect>, e: Effect)
    ensures PendingAfter(p, fx + [e]) == Track(PendingAfter(p, fx), e)
  {
    PendingAfterConcat(p, fx, [e]);
    assert [e][1..] == [];
  }

  /** Calls that neither register an alert timer nor cancel a handle leave the outstanding set as it is. */
  lemma {:induction false} PendingAfterQuiet(p: set<int>, fx: seq<Effect>)
    requires forall i :: 0 <= i < |fx| ==> !fx[i].Cancel? && !(fx[i].Register? && IsAlertCookie(fx[i].cookie))
    ensures PendingAfter(p, fx) == p
    decreases |fx|
  {
    if fx != [] {
      assert forall i :: 0 <= i < |fx[1..]| ==> fx[1..][i] == fx[i + 1];
      PendingAfterQuiet(p, fx[1..]);
    }
  }

  // ---------------------------------------------------------------------------
  // queue_alert and determine_if_alarm_needed
  // ---------------------------------------------------------------------------

  /**
   * `timer_rec[num]` after queue_alert(num, _, d), where `title` is the title
   * of the global `event` and `first` is `alerts_issued == 1`.
   */
  function Queued(r: TimerRecord, title: string, d: int, first: bool, num: nat, now: Clock): (q: TimerRecord)
    requires num < MAX_EVENTS
    ensures q.active && q.eventDesc == title
    ensures !first ==> q.handle == r.handle && q.relativeDesc == r.relativeDesc
  {
    var armed := r.(eventDesc := title, active := true);
    if !first then armed
    else if d < 0 then armed.(relativeDesc := RelativeText(d))
    else armed.(relativeDesc := RelativeText(d), handle := Timer(NextTimer(d, num, now).cookie))
  }

  /** The platform calls queue_alert makes. */
  function QueueEffects(title: string, d: int, first: bool, num: nat, now: Clock): seq<Effect>
    requires num < MAX_EVENTS
  {
    if !first then []
    else [Display(title, RelativeText(d))] + (if d >= 0 then [NextTimer(d, num, now)] else [])
  }

  /** queue_alert registers an alert timer only for the first alert of a pass, and only when it is not yet over. */
  lemma QueuePending(p: set<int>, title: string, d: int, first: bool, num: nat, now: Clock)
    requires num < MAX_EVENTS
    ensures PendingAfter(p, QueueEffects(title, d, first, num, now))
         == p + if first && d >= 0 then {NextTimer(d, num, now).cookie} else {}
  {
    var fx := QueueEffects(title, d, first, num, now);
    if first {
      var shown := [Display(title, RelativeText(d))];
      PendingAfterQuiet(p, shown);
      if d >= 0 {
        PendingAfterSnoc(p, shown, NextTimer(d, num, now));
      } else {
        assert fx == shown;
      }
    }
  }

  /**
   * The state of one planning pass of process_events: the timer table, the
   * `alerts_issued` counter, the running sum of alarms set, and the platform
   * calls made so far.
   */
  datatype Plan = Plan(recs: seq<TimerRecord>, issued: int, alerts: int, effects: seq<Effect>)

  /** determine_if_alarm_needed(k), applied to the pass state `p`. */
  function PlanStep(p: Plan, es: seq<Event>, k: nat, now: Clock): Plan
    requires k < |es| == |p.recs| && k < MAX_EVENTS
  {
    var e := es[k];
    if !Qualifies(e, now) then p
    else if p.issued + 1 > MAX_ALLOWABLE_ALERTS then p.(issued := p.issued + 1)
    else
      var first := p.issued + 1 == 1;
      var d := AlertDelta(e.startDate, now);
      Plan(p.recs[k := Queued(p.recs[k], e.title, d, first, k, now)], p.issued + 1, p.alerts + 1,
           p.effects + QueueEffects(e.title, d, first, k, now))
  }

  /**
   * One step depends only on the table and `alerts_issued`: the alarms set
   * and the calls made before it are carried through unchanged.
   */
  lemma PlanStepShift(p: Plan, es: seq<Event>, k: nat, now: Clock)
    requires k < |es| == |p.recs| && k < MAX_EVENTS
    ensures var q := PlanStep(Plan(p.recs, p.issued, 0, []), es, k, now);
      PlanStep(p, es, k, now) == Plan(q.recs, q.issued, p.alerts + q.alerts, p.effects + q.effects)
  {
    assert p.effects + [] == p.effects;
  }

  /** The pass over the entries 0 .. n-1, in index order. */
  function PlanUpto(p0: Plan, es: seq<Event>, n: nat, now: Clock): (p: Plan)
    requires n <= |es| == |p0.recs| <= MAX_EVENTS
    ensures |p.recs| == |es|
  {
    if n == 0 then p0 else PlanStep(PlanUpto(p0, es, n - 1, now), es, n - 1, now)
  }

  /** How many of the entries 0 .. n-1 pass the three filters. */
  function QualCount(es: seq<Event>, n: nat, now: Clock): nat
    requires n <= |es|
  {
    if n == 0 then 0 else QualCount(es, n - 1, now) + (if Qualifies(es[n - 1], now) then 1 else 0)
  }

  /** The lowest entry below `n` that passes the filters, or `n` when none does. */
  function FirstQualifying(es: seq<Event>, n: nat, now: Clock): (f: nat)
    requires n <= |es|
    ensures f <= n
    ensures f < n ==> Qualifies(es[f], now)
    ensures forall j :: 0 <= j < f ==> !Qualifies(es[j], now)
  {
    if n == 0 then 0
    else
      var f := FirstQualifying(es, n - 1, now);
      if f < n - 1 then f else if Qualifies(es[n - 1], now) then n - 1 else n
  }

  /** The number of active entries among rs[0 .. m-1]. */
  function ActiveBefore(rs: seq<TimerRecord>, m: nat): nat
    requires m <= |rs|
  {
    if m == 0 then 0 else ActiveBefore(rs, m - 1) + (if rs[m - 1].active then 1 else 0)
  }

  function ActiveCount(rs: seq<TimerRecord>): nat {
    ActiveBefore(rs, |rs|)
  }

  /** `alerts_issued` counts every qualifying entry; the alarms set stop at MAX_ALLOWABLE_ALERTS. */
  lemma {:induction false} PlanCounts(p0: Plan, es: seq<Event>, n: nat, now: Clock)
    requires n <= |es| == |p0.recs| <= MAX_EVENTS
    requires p0.issued == 0 && p0.alerts == 0
    ensures var p := PlanUpto(p0, es, n, now);
      p.issued == QualCount(es, n, now) && p.alerts == Min(p.issued, MAX_ALLOWABLE_ALERTS)
  {
    if n > 0 {
      PlanCounts(p0, es, n - 1, now);
    }
  }

  /**
   * A pass that starts from a cleared table arms slot j exactly when entry j
   * passes the filters and fewer than MAX_ALLOWABLE_ALERTS earlier entries
   * did, under the title of entry j; slots the pass has not reached are
   * untouched.
   */
  lemma {:induction false} PlanShape(p0: Plan, es: seq<Event>, n: nat, now: Clock)
    requires n <= |es| == |p0.recs| <= MAX_EVENTS
    requires p0.issued == 0 && p0.alerts == 0
    requires forall j :: 0 <= j < |es| ==> !p0.recs[j].active
    ensures var p := PlanUpto(p0, es, n, now);
      && (forall j :: 0 <= j < n ==>
            (p.recs[j].active <==> Qualifies(es[j], now) && QualCount(es, j, now) < MAX_ALLOWABLE_ALERTS))
      && (forall j :: 0 <= j < n && p.recs[j].active ==> p.recs[j].eventDesc == es[j].title)
      && (forall j :: n <= j < |es| ==> p.recs[j] == p0.recs[j])
  {
    if n > 0 {
      var k := n - 1;
      PlanShape(p0, es, k, now);
      PlanCounts(p0, es, k, now);
      var p := PlanUpto(p0, es, k, now);
      var q := PlanStep(p, es, k, now);
      assert q == PlanUpto(p0, es, n, now);
      if Qualifies(es[k], now) && p.issued + 1 <= MAX_ALLOWABLE_ALERTS {
        var d := AlertDelta(es[k].startDate, now);
        assert q.recs == p.recs[k := Queued(p.recs[k], es[k].title, d, p.issued + 1 == 1, k, now)];
      }
    }
  }

  /**
   * Only the first entry that qualifies displays its text and registers a
   * timer; every later armed entry is marked active silently.
   */
  lemma {:induction false} PlanEffects(p0: Plan, es: seq<Event>, n: nat, now: Clock)
    requires n <= |es| == |p0.recs| <= MAX_EVENTS
    requires p0.issued == 0
    ensures var p := PlanUpto(p0, es, n, now);
      var f := FirstQualifying(es, n, now);
      && (f == n ==> p.effects == p0.effects && p.issued == 0)
      && (f < n ==>
            && p.issued >= 1
            && p.effects == p0.effects + QueueEffects(es[f].title, AlertDelta(es[f].startDate, now), true, f, now))
  {
    if n > 0 {
      PlanEffects(p0, es, n - 1, now);
      var f := FirstQualifying(es, n - 1, now);
      if f == n - 1 && Qualifies(es[n - 1], now) {
        assert QueueEffects(es[f].title, AlertDelta(es[f].startDate, now), true, f, now) != [];
      }
    }
  }

  /** The number of slots a pass arms is the number of qualifying entries, capped at MAX_ALLOWABLE_ALERTS. */
  lemma {:induction false} PlanActiveCount(p0: Plan, es: seq<Event>, n: nat, now: Clock, m: nat)
    requires n <= |es| == |p0.recs| <= MAX_EVENTS
    requires p0.issued == 0 && p0.alerts == 0
    requires forall j :: 0 <= j < |es| ==> !p0.recs[j].active
    requires m <= |es|
    ensures ActiveBefore(PlanUpto(p0, es, n, now).recs, m) == Min(QualCount(es, Min(m, n), now), MAX_ALLOWABLE_ALERTS)
  {
    PlanShape(p0, es, n, now);
    PlanCounts(p0, es, n, now);
    if m > 0 {
      PlanActiveCount(p0, es, n, now, m - 1);
    }
  }

  // ---------------------------------------------------------------------------
  // clear_timers and process_events
  // ---------------------------------------------------------------------------

  /** An entry after clear_timers: an active one is deactivated and its texts zeroed; others are left as they are. */
  function Cleared(r: TimerRecord): TimerRecord {
    if r.active then r.(active := false, eventDesc := "", relativeDesc := "") else r
  }

  function ClearAll(rs: seq<TimerRecord>): seq<TimerRecord> {
    seq(|rs|, i requires 0 <= i < |rs| => Cleared(rs[i]))
  }

  /** The app_timer_cancel calls clear_timers makes for rs[0 .. m-1]. */
  function CancelsBefore(rs: seq<TimerRecord>, m: nat): seq<Effect>
    requires m <= |rs|
  {
    if m == 0 then [] else CancelsBefore(rs, m - 1) + (if rs[m - 1].active then [Cancel(rs[m - 1].handle)] else [])
  }

  /** clear_timers leaves no entry active and cancels one handle per entry it found active. */
  lemma {:induction false} ClearAllSpec(rs: seq<TimerRecord>, m: nat)
    requires m <= |rs|
    ensures |ClearAll(rs)| == |rs| && ActiveCount(ClearAll(rs)) == 0
    ensures forall i :: 0 <= i < |rs| && rs[i].active ==> ClearAll(rs)[i].eventDesc == "" && ClearAll(rs)[i].relativeDesc == ""
    ensures |CancelsBefore(rs, m)| == ActiveBefore(rs, m)
  {
    NoneActive(ClearAll(rs), |rs|);
    if m > 0 {
      ClearAllSpec(rs, m - 1);
    }
  }

  lemma {:induction false} NoneActive(rs: seq<TimerRecord>, m: nat)
    requires m <= |rs|
    requires forall i :: 0 <= i < |rs| ==> !rs[i].active
    ensures ActiveBefore(rs, m) == 0
  {
    if m > 0 {
      NoneActive(rs, m - 1);
    }
  }

  /** What process_events leaves behind. */
  datatype Processed = Processed(recs: seq<TimerRecord>, issued: int, scratch: Event, effects: seq<Effect>, outcome: Outcome)

  /**
   * process_events over the table `es`, starting from the timer table
   * `recs`, the counter `issued` and the global `event` copy `scratch`.
   * With more than MAX_EVENTS entries the pass reaches `events[15]`.
   */
  function Process(recs: seq<TimerRecord>, es: seq<Event>, maxEntries: nat, outstanding: bool,
                   issued: int, scratch: Event, now: Clock): Processed
    requires |recs| == MAX_EVENTS && |es| == MAX_EVENTS
  {
    var cleared := ClearAll(recs);
    var cancels := CancelsBefore(recs, MAX_EVENTS);
    if outstanding || maxEntries == 0 then Processed(cleared, issued, scratch, cancels, Completed)
    else
      var n := Min(maxEntries, MAX_EVENTS);
      var p := PlanUpto(Plan(cleared, 0, 0, cancels), es, n, now);
      if maxEntries > MAX_EVENTS then Processed(p.recs, p.issued, es[n - 1], p.effects, OutOfRange(MAX_EVENTS))
      else
        Processed(p.recs, p.issued, es[n - 1],
                  p.effects + (if p.alerts > 0 then [SetStatus(STATUS_ALERT_SET)] else []), Completed)
  }

  /**
   * After process_events, slot j is active exactly when no request is
   * outstanding, j is below `max_entries`, entry j passes the filters and
   * fewer than MAX_ALLOWABLE_ALERTS earlier entries did.
   */
  lemma ProcessArms(recs: seq<TimerRecord>, es: seq<Event>, maxEntries: nat, outstanding: bool,
                    issued: int, scratch: Event, now: Clock, j: nat)
    requires |recs| == MAX_EVENTS && |es| == MAX_EVENTS && j < MAX_EVENTS
    ensures var r := Process(recs, es, maxEntries, outstanding, issued, scratch, now);
      r.recs[j].active <==>
        !outstanding && j < maxEntries && Qualifies(es[j], now) && QualCount(es, j, now) < MAX_ALLOWABLE_ALERTS
  {
    if !(outstanding || maxEntries == 0) {
      var cleared := ClearAll(recs);
      PlanCounts(Plan(cleared, 0, 0, CancelsBefore(recs, MAX_EVENTS)), es, Min(maxEntries, MAX_EVENTS), now);
      PlanShape(Plan(cleared, 0, 0, CancelsBefore(recs, MAX_EVENTS)), es, Min(maxEntries, MAX_EVENTS), now);
    }
  }

  /** No pass of process_events leaves more than MAX_ALLOWABLE_ALERTS slots active. */
  lemma ProcessCapsAlerts(recs: seq<TimerRecord>, es: seq<Event>, maxEntries: nat, outstanding: bool,
                          issued: int, scratch: Event, now: Clock)
    requires |recs| == MAX_EVENTS && |es| == MAX_EVENTS
    ensures ActiveCount(Process(recs, es, maxEntries, outstanding, issued, scratch, now).recs) <= MAX_ALLOWABLE_ALERTS
  {
    var cleared := ClearAll(recs);
    ClearAllSpec(recs, 0);
    if outstanding || maxEntries == 0 {
      NoneActive(cleared, |cleared|);
    } else {
      PlanActiveCount(Plan(cleared, 0, 0, CancelsBefore(recs, MAX_EVENTS)), es, Min(maxEntries, MAX_EVENTS), now, MAX_EVENTS);
    }
  }

  // ---------------------------------------------------------------------------
  // received_message: copying records into the event table
  // ---------------------------------------------------------------------------

  /** `events[]` after copying each record of `rs`, in order, into the slot its index names. */
  function StoreAll(table: seq<Event>, rs: seq<Event>): (t: seq<Event>)
    requires forall i :: 0 <= i < |rs| ==> rs[i].index < |table|
    ensures |t| == |table|
  {
    if rs == [] then table
    else StoreAll(table, rs[..|rs| - 1])[rs[|rs| - 1].index := rs[|rs| - 1]]
  }

  /** Copying one more record extends the copy of the records before it. */
  lemma StoreAllStep(table: seq<Event>, rs: seq<Event>, j: nat)
    requires j < |rs| && forall i :: 0 <= i <= j ==> rs[i].index < |table|
    ensures StoreAll(table, rs[..j + 1]) == StoreAll(table, rs[..j])[rs[j].index := rs[j]]
  {
    assert rs[..j + 1][..j] == rs[..j];
  }

  /** The last record of `rs` addressed to slot `k`, or -1. */
  function LastWith(rs: seq<Event>, k: int): (j: int)
    ensures -1 <= j < |rs|
    ensures j >= 0 ==> rs[j].index == k
    ensures forall i :: j < i < |rs| ==> rs[i].index != k
  {
    if rs == [] then -1
    else if rs[|rs| - 1].index == k then |rs| - 1
    else LastWith(rs[..|rs| - 1], k)
  }

  /** Each slot holds the last record addressed to it, or what it held before. */
  lemma {:induction false} StoreAllLastWriter(table: seq<Event>, rs: seq<Event>, k: nat)
    requires forall i :: 0 <= i < |rs| ==> rs[i].index < |table|
    requires k < |table|
    ensures var j := LastWith(rs, k);
      StoreAll(table, rs)[k] == if j >= 0 then rs[j] else table[k]
  {
    if rs != [] {
      StoreAllLastWriter(table, rs[..|rs| - 1], k);
    }
  }

  /** Copying one batch in two chunks leaves the same table as copying it in one. */
  lemma {:induction false} StoreAllSplit(table: seq<Event>, a: seq<Event>, b: seq<Event>)
    requires forall i :: 0 <= i < |a| ==> a[i].index < |table|
    requires forall i :: 0 <= i < |b| ==> b[i].index < |table|
    ensures StoreAll(StoreAll(table, a), b) == StoreAll(table, a + b)
  {
    if b != [] {
      var b' := b[..|b| - 1];
      StoreAllSplit(table, a, b');
      assert (a + b)[..|a + b| - 1] == a + b';
    } else {
      assert a + b == a;
    }
  }

  /** The number of leading records whose index fits the table. */
  function GoodPrefix(rs: seq<Event>): (g: nat)
    ensures g <= |rs|
    ensures forall i :: 0 <= i < g ==> rs[i].index < MAX_EVENTS
    ensures g < |rs| ==> rs[g].index >= MAX_EVENTS
  {
    if rs == [] || rs[0].index >= MAX_EVENTS then 0 else 1 + GoodPrefix(rs[1..])
  }

  /** What received_message does with one tuple, before process_events. */
  datatype Received = Received(events: seq<Event>, count: Byte, receivedRows: Byte, complete: bool, outcome: Outcome)

  /**
   * The copy loop of received_message: the records of `rs` fill rows
   * `start`, `start`+1, ... into the slots their indices name, until `count`
   * rows are held or `rs` runs out. A record whose index is outside the
   * table stops the model and leaves the row counter at `rowsBefore`.
   */
  function CopyRows(table: seq<Event>, count: Byte, start: Byte, rs: seq<Event>, rowsBefore: Byte): (r: Received)
    requires |table| == MAX_EVENTS && start <= count
    ensures |r.events| == MAX_EVENTS && r.count == count
    ensures r.outcome == Completed ==> start <= r.receivedRows <= count && (r.complete <==> r.receivedRows == count)
    ensures r.outcome.OutOfRange? ==> r.outcome.index >= MAX_EVENTS && !r.complete && r.receivedRows == rowsBefore
  {
    var take := Min(count - start, |rs|);
    var batch := rs[..take];
    var g := GoodPrefix(batch);
    var stored := StoreAll(table, batch[..g]);
    if g < take then Received(stored, count, rowsBefore, false, OutOfRange(batch[g].index))
    else Received(stored, count, start + take, start + take == count, Completed)
  }

  /** A copy whose records all fit the table and are no more than the rows still missing. */
  lemma CopyRowsAll(table: seq<Event>, count: Byte, start: Byte, rs: seq<Event>, rowsBefore: Byte)
    requires |table| == MAX_EVENTS && start + |rs| <= count
    requires forall i :: 0 <= i < |rs| ==> rs[i].index < MAX_EVENTS
    ensures CopyRows(table, count, start, rs, rowsBefore)
         == Received(StoreAll(table, rs), count, start + |rs|, start + |rs| == count, Completed)
  {
    assert rs[..|rs|] == rs;
    assert GoodPrefix(rs) == |rs|;
    assert rs[..|rs|][..|rs|] == rs;
  }

  /**
   * received_message for a tuple `c`: a new batch when every announced row
   * has arrived (the first byte is the new count), otherwise a continuation
   * of the batch.
   */
  function Receive(table: seq<Event>, count: Byte, receivedRows: Byte, c: Chunk): (r: Received)
    requires |table| == MAX_EVENTS
    ensures |r.events| == MAX_EVENTS
    ensures r.outcome == Completed ==> r.receivedRows <= r.count && (r.complete <==> r.receivedRows == r.count)
    ensures r.outcome.OutOfRange? ==> r.outcome.index >= MAX_EVENTS && !r.complete && r.receivedRows == receivedRows
  {
    if count > receivedRows then CopyRows(table, count, receivedRows, c.recordsFromStart, receivedRows)
    else CopyRows(table, c.firstByte, 0, c.recordsAfterFirst, receivedRows)
  }

  /** received_message for each tuple of `cs` in turn; the model stops at an index out of range. */
  function ReceiveAll(table: seq<Event>, count: Byte, receivedRows: Byte, cs: seq<Chunk>): (r: Received)
    requires |table| == MAX_EVENTS && cs != []
    ensures |r.events| == MAX_EVENTS
    decreases |cs|
  {
    var r1 := Receive(table, count, receivedRows, cs[0]);
    if |cs| == 1 || r1.outcome.OutOfRange? then r1
    else ReceiveAll(r1.events, r1.count, r1.receivedRows, cs[1..])
  }

  /** The records of a run of continuation tuples, in the order they arrive. */
  function Continued(ys: seq<Chunk>): seq<Event>
    decreases |ys|
  {
    if ys == [] then [] else ys[0].recordsFromStart + Continued(ys[1..])
  }

  lemma {:induction false} ContinuedSplit(ys: seq<Chunk>, k: nat)
    requires k <= |ys|
    ensures Continued(ys) == Continued(ys[..k]) + Continued(ys[k..])
    decreases k
  {
    if k == 0 {
      assert ys[..0] == [] && ys[0..] == ys;
    } else {
      ContinuedSplit(ys[1..], k - 1);
      assert ys[..k][0] == ys[0] && ys[..k][1..] == ys[1..][..k - 1];
      assert ys[1..][k - 1..] == ys[k..];
    }
  }

  /** Every record of `rs` names a slot of the table. */
  predicate AllFit(rs: seq<Event>) {
    forall i :: 0 <= i < |rs| ==> rs[i].index < MAX_EVENTS
  }

  lemma AllFitSplit(a: seq<Event>, b: seq<Event>)
    requires AllFit(a + b)
    ensures AllFit(a) && AllFit(b)
  {
    assert forall i :: 0 <= i < |a| ==> a[i] == (a + b)[i];
    assert forall i :: 0 <= i < |b| ==> b[i] == (a + b)[|a| + i];
  }

  /** One non-empty continuation tuple that fits stores its records and advances the row counter. */
  lemma ReceiveContinuation(table: seq<Event>, count: Byte, done: Byte, c: Chunk)
    requires |table| == MAX_EVENTS && c.recordsFromStart != []
    requires done + |c.recordsFromStart| <= count && AllFit(c.recordsFromStart)
    ensures var rows := done + |c.recordsFromStart|;
      Receive(table, count, done, c) == Received(StoreAll(table, c.recordsFromStart), count, rows, rows == count, Completed)
  {
    CopyRowsAll(table, count, done, c.recordsFromStart, done);
  }

  /**
   * Continuation tuples, none of them empty, whose records all fit the table
   * and do not overrun the announced count: together they store their
   * records in order and advance the row counter by their number.
   */
  lemma {:induction false} ContinuationsFill(table: seq<Event>, count: Byte, done: Byte, ys: seq<Chunk>)
    requires |table| == MAX_EVENTS && ys != []
    requires forall i :: 0 <= i < |ys| ==> ys[i].recordsFromStart != []
    requires done + |Continued(ys)| <= count && AllFit(Continued(ys))
    ensures var rows := done + |Continued(ys)|;
      ReceiveAll(table, count, done, ys) == Received(StoreAll(table, Continued(ys)), count, rows, rows == count, Completed)
    decreases |ys|
  {
    var b := ys[0].recordsFromStart;
    var rest := Continued(ys[1..]);
    assert Continued(ys) == b + rest;
    AllFitSplit(b, rest);
    ReceiveContinuation(table, count, done, ys[0]);
    if |ys| > 1 {
      var r1 := Receive(table, count, done, ys[0]);
      assert ReceiveAll(table, count, done, ys) == ReceiveAll(r1.events, r1.count, r1.receivedRows, ys[1..]);
      assert forall i :: 0 <= i < |ys| - 1 ==> ys[1..][i] == ys[i + 1];
      ContinuationsFill(StoreAll(table, b), count, done + |b|, ys[1..]);
      StoreAllSplit(table, b, rest);
    } else {
      assert b + rest == b;
    }
  }

  /** A header tuple that fits starts a batch of `firstByte` rows holding its own records. */
  lemma ReceiveHeader(table: seq<Event>, count: Byte, receivedRows: Byte, x: Chunk)
    requires |table| == MAX_EVENTS && count <= receivedRows
    requires |x.recordsAfterFirst| <= x.firstByte && AllFit(x.recordsAfterFirst)
    ensures var rows := |x.recordsAfterFirst|;
      Receive(table, count, receivedRows, x)
        == Received(StoreAll(table, x.recordsAfterFirst), x.firstByte, rows, rows == x.firstByte, Completed)
  {
    CopyRowsAll(table, x.firstByte, 0, x.recordsAfterFirst, receivedRows);
  }

  /**
   * A batch sent as a header tuple with its first records, followed by any
   * number of non-empty continuation tuples with the rest, fills the table
   * exactly as one tuple holding the whole batch does: same table, same
   * count and row counter, and the batch is complete.
   */
  lemma {:induction false} ChunkingIsTransparent(table: seq<Event>, count: Byte, receivedRows: Byte, x: Chunk, ys: seq<Chunk>, whole: Chunk)
    requires |table| == MAX_EVENTS && count <= receivedRows
    requires forall i :: 0 <= i < |ys| ==> ys[i].recordsFromStart != []
    requires whole.firstByte == x.firstByte && whole.recordsAfterFirst == x.recordsAfterFirst + Continued(ys)
    requires |whole.recordsAfterFirst| == whole.firstByte && AllFit(whole.recordsAfterFirst)
    ensures ReceiveAll(table, count, receivedRows, [x] + ys) == Receive(table, count, receivedRows, whole)
    ensures Receive(table, count, receivedRows, whole).complete
    ensures Receive(table, count, receivedRows, whole).receivedRows == x.firstByte
  {
    var a, rest := x.recordsAfterFirst, Continued(ys);
    AllFitSplit(a, rest);
    ReceiveHeader(table, count, receivedRows, x);
    ReceiveHeader(table, count, receivedRows, whole);
    if ys == [] {
      assert a + rest == a;
    } else {
      assert ([x] + ys)[1..] == ys;
      ContinuationsFill(StoreAll(table, a), x.firstByte, |a|, ys);
      StoreAllSplit(table, a, rest);
    }
  }

  /**
   * In such a split batch every tuple before the last leaves the batch
   * incomplete, so process_events runs once, after the last tuple.
   */
  lemma OnlyLastTupleCompletes(table: seq<Event>, count: Byte, receivedRows: Byte, x: Chunk, ys: seq<Chunk>, k: nat)
    requires |table| == MAX_EVENTS && count <= receivedRows
    requires forall i :: 0 <= i < |ys| ==> ys[i].recordsFromStart != []
    requires |x.recordsAfterFirst + Continued(ys)| == x.firstByte && AllFit(x.recordsAfterFirst + Continued(ys))
    requires 1 <= k <= |ys|
    ensures var r := ReceiveAll(table, count, receivedRows, ([x] + ys)[..k]);
      r.outcome == Completed && !r.complete && r.count == x.firstByte
  {
    var a, rest := x.recordsAfterFirst, Continued(ys);
    AllFitSplit(a, rest);
    ReceiveHeader(table, count, receivedRows, x);
    ContinuedSplit(ys, k - 1);
    var pre, tail := ys[..k - 1], ys[k - 1..];
    assert tail[0] == ys[k - 1] && Continued(tail) == tail[0].recordsFromStart + Continued(tail[1..]);
    if k > 1 {
      assert ([x] + ys)[..k][1..] == pre;
      assert forall i :: 0 <= i < |pre| ==> pre[i] == ys[i];
      AllFitSplit(Continued(pre), Continued(tail));
      ContinuationsFill(StoreAll(table, a), x.firstByte, |a|, pre);
    } else {
      assert ([x] + ys)[..k] == [x];
    }
  }

  // ---------------------------------------------------------------------------
  // handle_calendar_timer: the tick and dismiss paths
  // ---------------------------------------------------------------------------

  /** The lowest active slot in [from, limit), or `limit`. */
  function NextActive(rs: seq<TimerRecord>, from: nat, limit: nat): (i: nat)
    requires limit <= |rs|
    ensures i == limit || (from <= i < limit && rs[i].active)
    ensures forall j :: from <= j < i && j < limit ==> !rs[j].active
    decreases limit - from
  {
    if from >= limit then limit
    else if rs[from].active then from
    else NextActive(rs, from + 1, limit)
  }

  /** `timer_rec[num]` after the tick path for event `e`. */
  function TickRecord(r: TimerRecord, e: Event, num: nat, now: Clock): TimerRecord
    requires num < MAX_EVENTS
  {
    var d := AlertDelta(e.startDate, now);
    if !r.active || d < 0 then r
    else r.(relativeDesc := RelativeText(d), handle := Timer(NextTimer(d, num, now).cookie))
  }

  /** The platform calls of the tick path. */
  function TickEffects(r: TimerRecord, e: Event, num: nat, now: Clock): seq<Effect>
    requires num < MAX_EVENTS
  {
    var d := AlertDelta(e.startDate, now);
    if !r.active || d < 0 then []
    else [Display(r.eventDesc, RelativeText(d)), NextTimer(d, num, now)]
         + (if d == 0 then [DoublePulse, Backlight] else [])
  }

  /** The tick path registers the next alert timer exactly when its slot is active and the event not over. */
  lemma TickPending(p: set<int>, r: TimerRecord, e: Event, num: nat, now: Clock)
    requires num < MAX_EVENTS
    ensures var d := AlertDelta(e.startDate, now);
      PendingAfter(p, TickEffects(r, e, num, now))
        == p + if r.active && d >= 0 then {NextTimer(d, num, now).cookie} else {}
  {
    var d := AlertDelta(e.startDate, now);
    if r.active && d >= 0 {
      var shown := [Display(r.eventDesc, RelativeText(d))];
      var tail := if d == 0 then [DoublePulse, Backlight] else [];
      PendingAfterQuiet(p, shown);
      PendingAfterSnoc(p, shown, NextTimer(d, num, now));
      PendingAfterConcat(p, shown + [NextTimer(d, num, now)], tail);
      PendingAfterQuiet(PendingAfter(p, shown + [NextTimer(d, num, now)]), tail);
      assert TickEffects(r, e, num, now) == shown + [NextTimer(d, num, now)] + tail;
    }
  }

  /** The timer table and platform calls after a timer callback, and how it ended. */
  datatype Fired = Fired(recs: seq<TimerRecord>, effects: seq<Effect>, outcome: Outcome)

  /** The tick cookie `TICK_EVENT + num`. */
  function TickFired(recs: seq<TimerRecord>, es: seq<Event>, num: nat, now: Clock): Fired
    requires |recs| == MAX_EVENTS && |es| == MAX_EVENTS
  {
    if num >= MAX_EVENTS then Fired(recs, [], OutOfRange(num))
    else Fired(recs[num := TickRecord(recs[num], es[num], num, now)], TickEffects(recs[num], es[num], num, now), Completed)
  }

  /**
   * The dismiss cookie `ALERT_EVENT + num`: deactivate slot num, then hand the
   * display to the lowest active slot above it and below `max_entries`.
   */
  function DismissFired(recs: seq<TimerRecord>, es: seq<Event>, num: nat, maxEntries: nat, now: Clock): Fired
    requires |recs| == MAX_EVENTS && |es| == MAX_EVENTS
  {
    if num >= MAX_EVENTS then Fired(recs, [], OutOfRange(num))
    else if !recs[num].active then Fired(recs, [], Completed)
    else
      var r1 := recs[num := recs[num].(active := false)];
      var limit := Min(maxEntries, MAX_EVENTS);
      var i := NextActive(r1, num + 1, limit);
      if i < limit then
        var t := TickFired(r1, es, i, now);
        Fired(t.recs, t.effects + [ShortPulse, Backlight], Completed)
      else if maxEntries > MAX_EVENTS then Fired(r1, [], OutOfRange(MAX_EVENTS))
      else Fired(r1, [], Completed)
  }

  /**
   * After clear_timers, a dismiss or tick callback for any of the 15 slots
   * changes nothing and calls nothing.
   */
  lemma ClearedCallbacksAreNoOps(recs: seq<TimerRecord>, es: seq<Event>, num: nat, maxEntries: nat, now: Clock)
    requires |recs| == MAX_EVENTS && |es| == MAX_EVENTS && num < MAX_EVENTS
    ensures TickFired(ClearAll(recs), es, num, now) == Fired(ClearAll(recs), [], Completed)
    ensures DismissFired(ClearAll(recs), es, num, maxEntries, now) == Fired(ClearAll(recs), [], Completed)
  {
  }

  /**
   * The dismiss hand-off ticks only the lowest active slot `i` above `num`.
   * Something is displayed exactly when that event has not started yet. When
   * it has, the calls are only the short buzz and the backlight, no timer is
   * registered, and every other slot keeps its record, so the active slots
   * after `i` wait without a timer for the next planning pass.
   */
  lemma DismissHandOff(recs: seq<TimerRecord>, es: seq<Event>, num: nat, maxEntries: nat, now: Clock)
    requires |recs| == MAX_EVENTS && |es| == MAX_EVENTS && maxEntries <= MAX_EVENTS
    requires num < MAX_EVENTS && recs[num].active
    ensures var r1 := recs[num := recs[num].(active := false)];
      var i := NextActive(r1, num + 1, maxEntries);
      var f := DismissFired(recs, es, num, maxEntries, now);
      && f.outcome == Completed
      && ((exists k :: 0 <= k < |f.effects| && f.effects[k].Display?)
          <==> i < maxEntries && AlertDelta(es[i].startDate, now) >= 0)
      && (i < maxEntries && AlertDelta(es[i].startDate, now) < 0 ==>
            f.effects == [ShortPulse, Backlight] && f.recs == r1)
      && (forall j :: 0 <= j < MAX_EVENTS && j != num && j != i ==> f.recs[j] == recs[j])
  {
    var r1 := recs[num := recs[num].(active := false)];
    var i := NextActive(r1, num + 1, maxEntries);
    var f := DismissFired(recs, es, num, maxEntries, now);
    if i < maxEntries && AlertDelta(es[i].startDate, now) >= 0 {
      assert f.effects[0].Display?;
    }
  }

  /**
   * An event at 09:00 seen from 08:58:00, 08:59:00 and 09:00:00 counts down
   * "In 2 mins", "In 1 min", then "Now" with the 30 s dismiss and a buzz.
   */
  lemma NineOClockCountdown(r: TimerRecord, e: Event, num: nat)
    requires r.active && num < MAX_EVENTS && e.startDate == "10/11 09:00"
    ensures TickEffects(r, e, num, Clock(8, 58, 0, "10/11")) ==
              [Display(r.eventDesc, "In 2 mins"), Register(MINUTE_MS, TICK_EVENT + num)]
    ensures TickEffects(r, e, num, Clock(8, 59, 0, "10/11")) ==
              [Display(r.eventDesc, "In 1 min"), Register(MINUTE_MS, TICK_EVENT + num)]
    ensures TickEffects(r, e, num, Clock(9, 0, 0, "10/11")) ==
              [Display(r.eventDesc, "Now"), Register(ALERT_HOLD_MS, ALERT_EVENT + num), DoublePulse, Backlight]
  {
    var s := e.startDate;
    assert TimePosition(s) == 6 && MinutePosition(s) == 9;
    TwoDigitsAt(s, 6);
    TwoDigitsAt(s, 9);
    assert StartHour(s) == 9 && StartMinute(s) == 0;
    assert StartMs(s) == 9 * 3600000;
    assert IsMonthDay("10/11");
    assert IsDateToday(s, "10/11") by {
      DateTodayIff(s, "10/11");
    }
    assert AlertDelta(s, Clock(8, 58, 0, "10/11")) == 2 * MINUTE_MS;
    assert AlertDelta(s, Clock(8, 59, 0, "10/11")) == MINUTE_MS;
    assert AlertDelta(s, Clock(9, 0, 0, "10/11")) == 0;
    assert DecimalText(2) == "2";
    assert RelativeText(2 * MINUTE_MS) == "In 2 mins";
  }
}
