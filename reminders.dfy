/** The reminders screen (`app/(tabs)/reminders.tsx`): the "on this day" flashback list, the
    persisted daily-tips switch and the notifications that switch schedules. */
module Reminders {
  import opened Wrappers
  import opened Seqs
  import opened Storage

  /** A calendar day in the device's local time zone, as `getFullYear`, `getMonth` and
      `getDate` report it. */
  datatype CalendarDate = CalendarDate(year: int, month: int, day: int)

  /** Same day and month as `today`, in a strictly earlier year. */
  predicate OnThisDayInEarlierYear(d: CalendarDate, today: CalendarDate)
  {
    d.day == today.day && d.month == today.month && d.year < today.year
  }

  /** `dateOf` is `new Date(memory.date)` read in local time; `None` is an invalid date, whose
      day, month and year are `NaN` and compare unequal to everything. */
  predicate IsFlashback(m: Memory, today: CalendarDate, dateOf: string -> Option<CalendarDate>)
  {
    dateOf(m.date).Some? && OnThisDayInEarlierYear(dateOf(m.date).value, today)
  }

  /** The filter of `checkAndLoadMemories`. Every record it returns is dated on today's day and
      month of an earlier year; in particular none is from the current year. */
  function Flashbacks(all: seq<Memory>, today: CalendarDate, dateOf: string -> Option<CalendarDate>): (r: seq<Memory>)
    ensures forall i :: 0 <= i < |r| ==> dateOf(r[i].date).Some?
    ensures forall i :: 0 <= i < |r| ==> dateOf(r[i].date).value.day == today.day
    ensures forall i :: 0 <= i < |r| ==> dateOf(r[i].date).value.month == today.month
    ensures forall i :: 0 <= i < |r| ==> dateOf(r[i].date).value.year < today.year
  {
    var keep := (m: Memory) => IsFlashback(m, today, dateOf);
    var r := Filter(all, keep);
    assert forall i :: 0 <= i < |r| ==> keep(r[i]);
    r
  }

  /** Complete and in order: a record is a flashback result exactly when it is in the input and
      dated on this day of an earlier year, and the results keep the input's order. */
  lemma FlashbacksExact(all: seq<Memory>, today: CalendarDate, dateOf: string -> Option<CalendarDate>)
    ensures forall m :: m in Flashbacks(all, today, dateOf) <==> m in all && IsFlashback(m, today, dateOf)
    ensures IsSubsequence(Flashbacks(all, today, dateOf), all)
  {
    FilterMembership(all, (m: Memory) => IsFlashback(m, today, dateOf));
    FilterIsSubsequence(all, (m: Memory) => IsFlashback(m, today, dateOf));
  }

  /** The local reading of the two dates of the example below. */
  function ExampleDateOf(d: string): Option<CalendarDate>
  {
    if d == "2023-05-10" then Some(CalendarDate(2023, 5, 10))
    else if d == "2024-05-10" then Some(CalendarDate(2024, 5, 10))
    else None
  }

  /** Memories of 2023-05-10 and 2024-05-10 on 2024-05-10: only the earlier-year one is shown. */
  lemma FlashbackExample(a: Memory, b: Memory)
    requires a.date == "2023-05-10" && b.date == "2024-05-10"
    ensures Flashbacks([a, b], CalendarDate(2024, 5, 10), ExampleDateOf) == [a]
  {
    assert a.date != b.date by { assert a.date[3] != b.date[3]; }
    assert IsFlashback(a, CalendarDate(2024, 5, 10), ExampleDateOf);
    assert !IsFlashback(b, CalendarDate(2024, 5, 10), ExampleDateOf);
    var keep := (m: Memory) => IsFlashback(m, CalendarDate(2024, 5, 10), ExampleDateOf);
    assert [a, b][1..] == [b] && [b][1..] == [];
    assert Filter([b], keep) == [];
    assert Filter([a, b], keep) == [a];
  }

  /** JavaScript's text for a boolean, as stored under `tips_enabled`. */
  function BoolText(b: bool): string
  {
    if b then "true" else "false"
  }

  /** The switch after `loadTipsState` reads `stored`: `"true"` turns it on, any other text turns
      it off, and no value leaves it as it was. */
  function TipsFlagAfterLoad(stored: Option<string>, current: bool): bool
  {
    match stored
    case None => current
    case Some(text) => text == "true"
  }

  /** What `toggleDailyTips(e)` persists, `loadTipsState` reads back as `e`. */
  lemma TipsFlagRoundTrip(e: bool, current: bool)
    ensures TipsFlagAfterLoad(Some(BoolText(e)), current) == e
  {
  }

  /** Calls the screen makes on the local notification facility. */
  datatype NotificationCall = CancelAll | Schedule

  /** How many reminders enabling the daily tips schedules. */
  const DailyReminderCount: nat := 7

  /** The calls `toggleDailyTips` makes once its write has gone through. Every scheduled reminder
      carries the same trigger time (the next 19:30), so the calls are modelled without it. */
  function TipsNotificationCalls(enabled: bool): (calls: seq<NotificationCall>)
    ensures |calls| > 0 && calls[0] == CancelAll
    ensures |calls| == if enabled then 1 + DailyReminderCount else 1
    ensures forall i :: 0 < i < |calls| ==> calls[i] == Schedule
  {
    if enabled then [CancelAll] + seq(DailyReminderCount, _ => Schedule) else [CancelAll]
  }

  /** The local notification facility, reduced to the number of reminders it holds and the log
      of calls made on it. */
  class NotificationCenter {
    var pending: nat
    var log: seq<NotificationCall>

    constructor ()
      ensures pending == 0 && log == []
    {
      pending := 0;
      log := [];
    }

    method CancelAllScheduled()
      modifies this
      ensures pending == 0 && log == old(log) + [CancelAll]
    {
      pending := 0;
      log := log + [CancelAll];
    }

    method ScheduleNotification()
      modifies this
      ensures pending == old(pending) + 1 && log == old(log) + [Schedule]
    {
      pending := pending + 1;
      log := log + [Schedule];
    }
  }

  class RemindersScreen {
    const store: Store
    const center: NotificationCenter
    var dailyTipsEnabled: bool
    var flashbacksEnabled: bool
    var todaysMemories: seq<Memory>

    constructor (store: Store, center: NotificationCenter)
      ensures this.store == store && this.center == center
      ensures !dailyTipsEnabled && !flashbacksEnabled && todaysMemories == []
    {
      this.store := store;
      this.center := center;
      dailyTipsEnabled := false;
      flashbacksEnabled := false;
      todaysMemories := [];
    }

    /** `loadTipsState`. A failing read is caught and changes nothing, like an absent key. */
    method LoadTipsState()
      modifies this`dailyTipsEnabled
      ensures store.tipsEnabled == Some("true") ==> dailyTipsEnabled
      ensures store.tipsEnabled.Some? && store.tipsEnabled.value != "true" ==> !dailyTipsEnabled
      ensures store.tipsEnabled.None? ==> dailyTipsEnabled == old(dailyTipsEnabled)
      ensures dailyTipsEnabled == TipsFlagAfterLoad(store.tipsEnabled, old(dailyTipsEnabled))
    {
      var enabled := store.tipsEnabled;
      if enabled.Some? {
        dailyTipsEnabled := enabled.value == "true";
      }
    }

    /** `checkAndLoadMemories`: the flashback list is recomputed from the store on every call,
        whatever the flashbacks switch says. */
    method CheckAndLoadMemories(today: CalendarDate, dateOf: string -> Option<CalendarDate>)
      modifies this`todaysMemories
      ensures todaysMemories == Flashbacks(Read(store.memories), today, dateOf)
    {
      var allMemories := store.GetMemories();
      todaysMemories := Flashbacks(allMemories, today, dateOf);
    }

    /** The flashbacks switch only changes its own value. */
    method SetFlashbacksEnabled(value: bool)
      modifies this`flashbacksEnabled
      ensures flashbacksEnabled == value
    {
      flashbacksEnabled := value;
    }

    /** `toggleDailyTips(enabled)`: the switch takes the new value first; then the value is
        persisted; only if that write succeeds are all reminders cancelled and, when enabling,
        seven new ones scheduled. A failed write is caught: nothing is scheduled or cancelled. */
    method ToggleDailyTips(enabled: bool, writeOk: bool)
      modifies this`dailyTipsEnabled, store`tipsEnabled, center
      ensures dailyTipsEnabled == enabled
      ensures store.tipsEnabled == if writeOk then Some(BoolText(enabled)) else old(store.tipsEnabled)
      ensures center.log == old(center.log) + (if writeOk then TipsNotificationCalls(enabled) else [])
      ensures center.pending == if !writeOk then old(center.pending) else if enabled then DailyReminderCount else 0
    {
      dailyTipsEnabled := enabled;
      if !writeOk {
        return;
      }
      store.tipsEnabled := Some(BoolText(enabled));
      if enabled {
        center.CancelAllScheduled();
        ghost var cancelled := center.log;
        for i := 0 to DailyReminderCount
          modifies center
          invariant center.pending == i
          invariant center.log == cancelled + seq(i, _ => Schedule)
        {
          center.ScheduleNotification();
          assert seq(i + 1, _ => Schedule) == seq(i, _ => Schedule) + [Schedule];
        }
        assert cancelled + seq(DailyReminderCount, _ => Schedule) == old(center.log) + TipsNotificationCalls(true);
      } else {
        center.CancelAllScheduled();
      }
    }
  }
}
