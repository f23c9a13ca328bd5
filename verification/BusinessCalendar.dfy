/** Opening hours told by the calendar: which instants are open, and what one opening is worth, with no reference to how the
    schedule is looked up. */
module BusinessCalendar {
  import opened Wrappers
  import opened BusinessHours

  /** Local midnight of weekday i (0 = Monday) in week n, counted from the week of Monday, 5 January 1970: the fourth day
      after the epoch. */
  function Midnight(s: Schedule, i: nat, n: int): int { (4 + i + 7 * n) * DAY - s.offset }

  /** Instant t lies in the opening of weekday i in week n. */
  predicate OpenOn(s: Schedule, i: nat, n: int, t: int) {
    i < 7 && i < |s.days| && s.days[i].Some?
    && Midnight(s, i, n) + s.days[i].value.openMinute * MINUTE <= t < Midnight(s, i, n) + s.days[i].value.closeMinute * MINUTE
  }

  lemma WeekdayOf(i: nat, n: int)
    requires i < 7
    ensures Weekday(4 + i + 7 * n) == i
  {
  }

  lemma DayOfWeek(day: int) returns (n: int)
    ensures day == 4 + Weekday(day) + 7 * n
  {
    n := (day + 3) / 7 - 1;
  }

  lemma InWindow(s: Schedule, i: nat, n: int, t: int)
    requires Legal(s) && OpenOn(s, i, n, t)
    ensures IsOpen(s, t)
  {
    var day := 4 + i + 7 * n;
    WeekdayOf(i, n);
    hide Weekday;
    WindowWithinDay(s, day);
    assert !AlwaysOpen(s);
    OpenWithinDay(s, day, t);
    hide IsOpen;
    hide Opens;
    hide Closes;
  }

  /** A schedule with some day set is open at exactly the instants that lie in the opening of one of its weekdays, that
      weekday falling on every seventh day from the Monday of the first whole week of 1970. */
  lemma OpenByTheCalendar(s: Schedule, t: int)
    requires Legal(s) && !AlwaysOpen(s)
    ensures IsOpen(s, t) <==> exists i: nat, n :: OpenOn(s, i, n, t)
  {
    if IsOpen(s, t) {
      var day := DayOf(s, t);
      var n := DayOfWeek(day);
      DayOfBounds(s, t);
      OpenWithinDay(s, day, t);
      WindowWithinDay(s, day);
      hide IsOpen;
      hide Opens;
      hide Closes;
      hide DayOf;
      hide Weekday;
      assert OpenOn(s, Weekday(day), n, t);
    }
    if i: nat, n :| OpenOn(s, i, n, t) { InWindow(s, i, n, t); }
  }

  /** A schedule without any day set is open throughout. */
  lemma UnsetIsOpen(s: Schedule, t: int)
    requires forall i :: 0 <= i < |s.days| ==> s.days[i] == None
    ensures IsOpen(s, t)
  {
  }

  /** Every opening counts for exactly its minutes, neither more nor less, whenever it is; and so does any part of it. */
  lemma OpeningIsWorthItsMinutes(s: Schedule, i: nat, n: int, from: int, upTo: int)
    requires Legal(s) && i < 7 && i < |s.days| && s.days[i].Some?
    requires s.days[i].value.openMinute <= from <= upTo <= s.days[i].value.closeMinute
    ensures Elapsed(s, Midnight(s, i, n) + from * MINUTE, Midnight(s, i, n) + upTo * MINUTE) == (upTo - from) * MINUTE
  {
    var a := Midnight(s, i, n) + from * MINUTE;
    var b := Midnight(s, i, n) + upTo * MINUTE;
    assert !AlwaysOpen(s);
    forall t | a <= t < b ensures IsOpen(s, t) {
      assert OpenOn(s, i, n, t);
      InWindow(s, i, n, t);
    }
    OpenThroughout(s, a, b);
    hide IsOpen;
    hide OpenTime;
    ScanEnds(s, a);
  }

  /** The scan looks 7320 whole days ahead, and the rest of the day it starts on. */
  lemma ScanEnds(s: Schedule, start: int)
    ensures start + 7320 * DAY < Horizon(s, start) <= start + 7321 * DAY
  {
  }

  /** Beyond that nothing is counted any more. */
  lemma NothingBeyondTheScan(s: Schedule, start: int, a: int, b: int)
    requires !AlwaysOpen(s) && start + 7321 * DAY <= a && start + 7321 * DAY <= b
    ensures Elapsed(s, start, a) == Elapsed(s, start, b)
  {
    ScanEnds(s, start);
    hide OpenTime;
    hide Horizon;
  }

  /** Work that comes in after hours waits for the next opening: nothing elapses in between, so its deadline is counted from
      there. */
  lemma AfterHoursWaits(s: Schedule, start: int, opening: int, m: int)
    requires Legal(s) && !AlwaysOpen(s) && start <= opening && 0 < m
    requires forall i: nat, n, t :: start <= t < opening ==> !OpenOn(s, i, n, t)
    requires m <= Reach(s, start)
    ensures Deadline(s, start, m) == Deadline(s, opening, m)
  {
    forall t | start <= t < opening ensures !IsOpen(s, t) { OpenByTheCalendar(s, t); }
    NothingOpen(s, start, opening);
    hide IsOpen;
    hide OpenTime;
    StartBeforeHorizon(s, start);
    var h := Horizon(s, start);
    FirstByIsEarliest(s, start, m, h);
    var d := Deadline(s, start, m);
    hide FirstBy;
    assert Earliest(s, start, m, d) && d <= h;
    if d <= opening { OpenTimeGrows(s, start, d, opening); }
    assert opening < d;
    OpenTimeAdds(s, start, opening, d);
    forall e | e < d ensures OpenTime(s, opening, e) < m {
      EmptyTime(s, opening, e);
      if opening <= e { OpenTimeAdds(s, start, opening, e); }
    }
    DaysInOrder(s, start, opening);
    ReachedFrom(s, opening, d, m, h);
  }

  lemma {:induction false} NothingOpen(s: Schedule, a: int, b: int)
    requires a <= b && forall t :: a <= t < b ==> !IsOpen(s, t)
    ensures OpenTime(s, a, b) == 0
    decreases b - a
  {
    hide IsOpen;
    if a < b { NothingOpen(s, a, b - 1); }
  }
}
