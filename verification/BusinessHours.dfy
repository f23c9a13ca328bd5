/** Business-hours arithmetic over a weekly schedule: time in microseconds, a fixed UTC offset. */
module BusinessHours {
  import opened Wrappers

  const MINUTE := 60_000_000
  const MINUTES_PER_DAY := 1440
  const DAY := 86_400_000_000
  const MAX_DAYS_SCANNED := 366 * 20

  /** An open interval within one local day, in minutes from local midnight. */
  datatype DayWindow = DayWindow(openMinute: int, closeMinute: int) {
    function Minutes(): int { if closeMinute > openMinute then closeMinute - openMinute else 0 }
  }

  /** `days[i]` is None when weekday i (0 = Monday) is closed. */
  datatype Schedule = Schedule(offset: int, days: seq<Option<DayWindow>>)

  /** Windows stay within their own day. Empty windows (close not after open) are legal. */
  predicate Legal(s: Schedule) {
    forall i :: 0 <= i < |s.days| && s.days[i].Some? ==>
      0 <= s.days[i].value.openMinute && s.days[i].value.closeMinute <= MINUTES_PER_DAY
  }

  predicate AlwaysOpen(s: Schedule) { forall i :: 0 <= i < |s.days| ==> s.days[i].None? }

  /** The local date of an instant, as days since 1970-01-01 (a Thursday). */
  function DayOf(s: Schedule, t: int): int { (t + s.offset) / DAY }

  function Weekday(day: int): nat { (day + 3) % 7 }

  function DayStart(s: Schedule, day: int): int { day * DAY - s.offset }

  function WindowFor(s: Schedule, day: int): Option<DayWindow> {
    if Weekday(day) < |s.days| then s.days[Weekday(day)] else None
  }

  /** Localise a minute of a day; 1440 and more roll into the next day. */
  function AtMinute(s: Schedule, day: int, minute: int): int {
    var extra := minute / MINUTES_PER_DAY;
    DayStart(s, day + extra) + (minute % MINUTES_PER_DAY) * MINUTE
  }

  predicate IsOpen(s: Schedule, t: int) {
    AlwaysOpen(s)
    || match WindowFor(s, DayOf(s, t))
       case None => false
       case Some(w) =>
         w.Minutes() > 0
         && AtMinute(s, DayOf(s, t), w.openMinute) <= t < AtMinute(s, DayOf(s, t), w.closeMinute)
  }

  // ------------------------------------------------------------------ the reference: counting open time units

  function OpenTime(s: Schedule, a: int, b: int): (n: nat)
    decreases b - a
  {
    if b <= a then 0 else OpenTime(s, a, b - 1) + (if IsOpen(s, b - 1) then 1 else 0)
  }

  lemma {:induction false} OpenTimeAdds(s: Schedule, a: int, b: int, c: int)
    requires a <= b <= c
    ensures OpenTime(s, a, c) == OpenTime(s, a, b) + OpenTime(s, b, c)
    decreases c - b
  {
    hide IsOpen;
    if b < c { OpenTimeAdds(s, a, b, c - 1); }
  }

  lemma OpenTimeGrows(s: Schedule, a: int, b: int, c: int)
    requires b <= c
    ensures OpenTime(s, a, b) <= OpenTime(s, a, c)
    decreases c - b
  {
    hide IsOpen;
    if b < c { OpenTimeGrows(s, a, b, c - 1); }
  }

  function Min(x: int, y: int): int { if x <= y then x else y }

  function Max(x: int, y: int): int { if x >= y then x else y }

  /** Length of the overlap of [x, y) with [o, c). */
  function Overlap(o: int, c: int, x: int, y: int): nat { Max(0, Min(c, y) - Max(o, x)) }

  lemma {:induction false} CountsOverlap(s: Schedule, o: int, c: int, x: int, y: int)
    requires x <= y && forall t :: x <= t < y ==> (IsOpen(s, t) <==> o <= t < c)
    ensures OpenTime(s, x, y) == Overlap(o, c, x, y)
    decreases y - x
  {
    if x < y {
      CountsOverlap(s, o, c, x, y - 1);
      assert IsOpen(s, y - 1) <==> o <= y - 1 < c;
    }
  }

  // ------------------------------------------------------------------ one day

  function Opens(s: Schedule, day: int): int {
    match WindowFor(s, day) case None => DayStart(s, day) case Some(w) => AtMinute(s, day, w.openMinute)
  }

  function Closes(s: Schedule, day: int): int {
    match WindowFor(s, day)
    case None => DayStart(s, day)
    case Some(w) => if w.Minutes() > 0 then AtMinute(s, day, w.closeMinute) else AtMinute(s, day, w.openMinute)
  }

  lemma DayOfRange(s: Schedule, day: int, t: int)
    requires DayStart(s, day) <= t < DayStart(s, day + 1)
    ensures DayOf(s, t) == day
  {
  }

  lemma DayOfBounds(s: Schedule, t: int)
    ensures DayStart(s, DayOf(s, t)) <= t < DayStart(s, DayOf(s, t) + 1)
  {
  }

  lemma OpenWithinDay(s: Schedule, day: int, t: int)
    requires !AlwaysOpen(s) && DayStart(s, day) <= t < DayStart(s, day + 1)
    ensures IsOpen(s, t) <==> Opens(s, day) <= t < Closes(s, day)
  {
    DayOfRange(s, day, t);
    hide DayStart;
    hide AlwaysOpen;
    hide AtMinute;
    hide DayOf;
  }

  /** Within one day the open time is the overlap with that day's window. */
  lemma OpenTimeInDay(s: Schedule, day: int, x: int, y: int)
    requires !AlwaysOpen(s) && DayStart(s, day) <= x <= y <= DayStart(s, day + 1)
    ensures OpenTime(s, x, y) == Overlap(Opens(s, day), Closes(s, day), x, y)
  {
    hide IsOpen;
    hide Opens;
    hide Closes;
    hide DayStart;
    forall t | x <= t < y ensures IsOpen(s, t) <==> Opens(s, day) <= t < Closes(s, day) {
      OpenWithinDay(s, day, t);
    }
    CountsOverlap(s, Opens(s, day), Closes(s, day), x, y);
  }

  lemma WindowWithinDay(s: Schedule, day: int)
    requires Legal(s) && WindowFor(s, day).Some? && WindowFor(s, day).value.Minutes() > 0
    ensures var w := WindowFor(s, day).value;
            Opens(s, day) == DayStart(s, day) + w.openMinute * MINUTE
            && Closes(s, day) == DayStart(s, day) + w.closeMinute * MINUTE
            && DayStart(s, day) <= Opens(s, day) < Closes(s, day) <= DayStart(s, day + 1)
  {
    var w := WindowFor(s, day).value;
    MinuteOfDay(s, day, w.openMinute);
    MinuteOfDay(s, day, w.closeMinute);
    hide AtMinute;
  }

  lemma MinuteOfDay(s: Schedule, day: int, minute: int)
    requires 0 <= minute <= MINUTES_PER_DAY
    ensures AtMinute(s, day, minute) == DayStart(s, day) + minute * MINUTE
  {
    if minute == MINUTES_PER_DAY {
      assert minute / MINUTES_PER_DAY == 1;
    } else {
      assert minute / MINUTES_PER_DAY == 0;
    }
  }

  /** Microseconds a whole day is open. */
  function DayTime(s: Schedule, weekday: nat): nat {
    if weekday < |s.days| && s.days[weekday].Some? && s.days[weekday].value.Minutes() > 0
    then s.days[weekday].value.Minutes() * MINUTE else 0
  }

  lemma WholeDay(s: Schedule, day: int)
    requires Legal(s) && !AlwaysOpen(s)
    ensures OpenTime(s, DayStart(s, day), DayStart(s, day + 1)) == DayTime(s, Weekday(day))
  {
    OpenTimeInDay(s, day, DayStart(s, day), DayStart(s, day + 1));
    hide OpenTime;
    hide AtMinute;
    if WindowFor(s, day).Some? && WindowFor(s, day).value.Minutes() > 0 {
      WindowWithinDay(s, day);
    }
  }

  // ------------------------------------------------------------------ whole weeks

  function WeekTime(s: Schedule): nat {
    DayTime(s, 0) + DayTime(s, 1) + DayTime(s, 2) + DayTime(s, 3) + DayTime(s, 4) + DayTime(s, 5) + DayTime(s, 6)
  }

  /** Open time over n consecutive days, from their weekdays alone. */
  function DaysTime(s: Schedule, day: int, n: nat): nat {
    if n == 0 then 0 else DaysTime(s, day, n - 1) + DayTime(s, Weekday(day + n - 1))
  }

  lemma {:induction false} WholeDays(s: Schedule, day: int, n: nat)
    requires Legal(s) && !AlwaysOpen(s)
    ensures OpenTime(s, DayStart(s, day), DayStart(s, day + n)) == DaysTime(s, day, n)
  {
    hide OpenTime;
    hide DayTime;
    hide Weekday;
    if n == 0 {
      NoTime(s, DayStart(s, day));
    } else {
      WholeDays(s, day, n - 1);
      WholeDay(s, day + n - 1);
      OpenTimeAdds(s, DayStart(s, day), DayStart(s, day + n - 1), DayStart(s, day + n));
    }
  }

  lemma NoTime(s: Schedule, t: int)
    ensures OpenTime(s, t, t) == 0
  {
  }

  lemma NextWeekday(day: int, k: nat)
    requires k < 7
    ensures Weekday(day + k) == if Weekday(day) + k < 7 then Weekday(day) + k else Weekday(day) + k - 7
  {
  }

  lemma SevenDays(s: Schedule, day: int)
    ensures DaysTime(s, day, 7) == WeekTime(s)
  {
    hide DayTime;
    hide DaysTime;
    hide Weekday;
    SevenTerms(s, day);
    NextWeekday(day, 1);
    NextWeekday(day, 2);
    NextWeekday(day, 3);
    NextWeekday(day, 4);
    NextWeekday(day, 5);
    NextWeekday(day, 6);
    var w := Weekday(day);
    NextWeekday(day, 0);
    if w == 0 {} else if w == 1 {} else if w == 2 {} else if w == 3 {} else if w == 4 {} else if w == 5 {}
  }

  lemma SevenTerms(s: Schedule, day: int)
    ensures DaysTime(s, day, 7)
         == DayTime(s, Weekday(day)) + DayTime(s, Weekday(day + 1)) + DayTime(s, Weekday(day + 2))
          + DayTime(s, Weekday(day + 3)) + DayTime(s, Weekday(day + 4)) + DayTime(s, Weekday(day + 5))
          + DayTime(s, Weekday(day + 6))
  {
    hide DayTime;
    hide Weekday;
    assert DaysTime(s, day, 1) == DayTime(s, Weekday(day + 1 - 1)) && day + 1 - 1 == day;
    assert DaysTime(s, day, 3) == DaysTime(s, day, 1) + DayTime(s, Weekday(day + 1)) + DayTime(s, Weekday(day + 2));
    assert DaysTime(s, day, 5) == DaysTime(s, day, 3) + DayTime(s, Weekday(day + 3)) + DayTime(s, Weekday(day + 4));
  }

  lemma DaysTimeAdds(s: Schedule, day: int, n: nat, m: nat)
    ensures DaysTime(s, day, n + m) == DaysTime(s, day, n) + DaysTime(s, day + n, m)
  {
    hide DayTime;
    hide Weekday;
    if m > 0 { DaysTimeAdds(s, day, n, m - 1); }
  }

  lemma {:induction false} WholeWeeks(s: Schedule, day: int, weeks: nat)
    ensures DaysTime(s, day, 7 * weeks) == weeks * WeekTime(s)
  {
    hide DayTime;
    hide Weekday;
    hide WeekTime;
    if weeks > 0 {
      WholeWeeks(s, day, weeks - 1);
      SevenDays(s, day + 7 * (weeks - 1));
      DaysTimeAdds(s, day, 7 * (weeks - 1), 7);
    }
  }

  // ------------------------------------------------------------------ elapsed

  /** The scan stops after this instant: the first local midnight it never reaches. */
  function Horizon(s: Schedule, start: int): int { DayStart(s, DayOf(s, start) + MAX_DAYS_SCANNED + 1) }

  /** What `elapsed_minutes` computes. */
  function Elapsed(s: Schedule, start: int, end: int): int {
    if AlwaysOpen(s) then Max(0, end - start) else OpenTime(s, start, Min(end, Horizon(s, start)))
  }

  /** Overlap of one day's window with [start, end), the way the loop adds it up. */
  lemma DayShare(s: Schedule, day: int, start: int, end: int)
    requires Legal(s) && !AlwaysOpen(s) && start < end && DayOf(s, start) <= day <= DayOf(s, end)
    ensures OpenTime(s, start, Min(end, DayStart(s, day + 1))) ==
            OpenTime(s, start, Min(end, DayStart(s, day))) + DayGain(s, day, start, end)
  {
    DayOfBounds(s, start);
    DayOfBounds(s, end);
    hide OpenTime;
    hide IsOpen;
    hide AtMinute;
    var x := Max(start, DayStart(s, day));
    var y := Min(end, DayStart(s, day + 1));
    assert x <= y;
    OpenTimeInDay(s, day, x, y);
    EmptyTime(s, start, Min(end, DayStart(s, day)));
    OpenTimeAdds(s, start, x, y);
    if DayStart(s, day) <= start { NoTime(s, start); }
    if WindowFor(s, day).Some? && WindowFor(s, day).value.Minutes() > 0 { WindowWithinDay(s, day); }
  }

  lemma EmptyTime(s: Schedule, a: int, b: int)
    ensures b <= a ==> OpenTime(s, a, b) == 0
  {
  }

  function DayGain(s: Schedule, day: int, start: int, end: int): int {
    match WindowFor(s, day)
    case None => 0
    case Some(w) =>
      if w.Minutes() > 0 then Overlap(AtMinute(s, day, w.openMinute), AtMinute(s, day, w.closeMinute), start, end) else 0
  }

  method ElapsedTime(s: Schedule, start: int, end: int) returns (total: int)
    requires Legal(s)
    ensures total == Elapsed(s, start, end)
  {
    hide AtMinute;
    hide DayStart;
    hide DayOf;
    hide OpenTime;
    hide IsOpen;
    if AlwaysOpen(s) { return Max(0, end - start); }
    EmptyTime(s, start, Min(end, Horizon(s, start)));
    if end <= start { return 0; }
    total := 0;
    var day := DayOf(s, start);
    var lastDay := DayOf(s, end);
    var scanned := 0;
    DaysInOrder(s, start, end);
    DayOfBounds(s, start);
    EmptyTime(s, start, Min(end, DayStart(s, day)));
    while day <= lastDay && scanned <= MAX_DAYS_SCANNED
      invariant day == DayOf(s, start) + scanned && scanned <= MAX_DAYS_SCANNED + 1 && day <= lastDay + 1
      invariant total == OpenTime(s, start, Min(end, DayStart(s, day)))
    {
      scanned := scanned + 1;
      DayShare(s, day, start, end);
      var window := WindowFor(s, day);
      if window.Some? && window.value.Minutes() > 0 {
        var opens := AtMinute(s, day, window.value.openMinute);
        var closes := AtMinute(s, day, window.value.closeMinute);
        var overlapStart := Max(opens, start);
        var overlapEnd := Min(closes, end);
        if overlapEnd > overlapStart { total := total + (overlapEnd - overlapStart); }
      }
      day := day + 1;
    }
    DayOfBounds(s, end);
    MidnightsInOrder(s, lastDay + 1, DayOf(s, start) + MAX_DAYS_SCANNED + 1);
  }

  lemma DaysInOrder(s: Schedule, a: int, b: int)
    requires a <= b
    ensures DayOf(s, a) <= DayOf(s, b)
  {
  }

  lemma MidnightsInOrder(s: Schedule, d: int, e: int)
    ensures d <= e <==> DayStart(s, d) <= DayStart(s, e)
  {
  }

  // ------------------------------------------------------------------ deadline

  /** The earliest instant by which m units of open time have passed. */
  ghost predicate Earliest(s: Schedule, start: int, m: int, d: int) {
    start <= d && OpenTime(s, start, d) == m && forall e :: e < d ==> OpenTime(s, start, e) < m
  }

  lemma EarliestUnique(s: Schedule, start: int, m: int, d: int, e: int)
    requires Earliest(s, start, m, d) && Earliest(s, start, m, e)
    ensures d == e
  {
    hide OpenTime;
  }

  lemma OpenEndIsEarliest(s: Schedule, start: int, m: int, d: int)
    requires start < d && OpenTime(s, start, d) == m && IsOpen(s, d - 1)
    ensures Earliest(s, start, m, d)
  {
    hide IsOpen;
    forall e | e < d ensures OpenTime(s, start, e) < m {
      OpenTimeGrows(s, start, e, d - 1);
    }
  }

  /** Open time reachable before the scan gives up. */
  function Reach(s: Schedule, start: int): nat { OpenTime(s, start, Horizon(s, start)) }

  /** The first instant, searching down from h, by which m units have passed. */
  function FirstBy(s: Schedule, start: int, m: int, h: int): int
    requires start <= h && 0 < m
    decreases h - start
  {
    if start < h && OpenTime(s, start, h - 1) >= m then FirstBy(s, start, m, h - 1) else h
  }

  lemma {:induction false} FirstByIsEarliest(s: Schedule, start: int, m: int, h: int)
    requires start <= h && 0 < m <= OpenTime(s, start, h)
    ensures Earliest(s, start, m, FirstBy(s, start, m, h)) && FirstBy(s, start, m, h) <= h
    decreases h - start
  {
    hide IsOpen;
    if OpenTime(s, start, h - 1) >= m {
      FirstByIsEarliest(s, start, m, h - 1);
    } else {
      forall e | e < h ensures OpenTime(s, start, e) < m {
        OpenTimeGrows(s, start, e, h - 1);
      }
    }
  }

  /** What `deadline` computes: an exact inverse within reach, wall-clock beyond it. */
  function Deadline(s: Schedule, start: int, m: int): int {
    if AlwaysOpen(s) then start + m
    else if m <= 0 then start
    else if start <= Horizon(s, start) && m <= Reach(s, start) then FirstBy(s, start, m, Horizon(s, start))
    else start + m
  }

  lemma StartBeforeHorizon(s: Schedule, start: int)
    ensures start < Horizon(s, start)
  {
    DayOfBounds(s, start);
  }

  /** The instant the loop returns from: inside the day's window with `remaining` still to go. */
  lemma LandsOnDeadline(s: Schedule, day: int, start: int, m: int, cursor: int, remaining: int)
    requires Legal(s) && !AlwaysOpen(s) && 0 < remaining
    requires DayOf(s, start) <= day <= DayOf(s, start) + MAX_DAYS_SCANNED
    requires WindowFor(s, day).Some? && WindowFor(s, day).value.Minutes() > 0
    requires cursor == Max(Opens(s, day), start) && cursor + remaining <= Closes(s, day)
    requires OpenTime(s, start, Max(start, DayStart(s, day))) == m - remaining
    ensures Deadline(s, start, m) == cursor + remaining
  {
    var d := cursor + remaining;
    WindowWithinDay(s, day);
    DayOfBounds(s, start);
    var x := Max(start, DayStart(s, day));
    hide AtMinute;
    hide IsOpen;
    hide Opens;
    hide Closes;
    hide OpenTime;
    hide FirstBy;
    hide Earliest;
    MidnightsInOrder(s, day + 1, DayOf(s, start) + MAX_DAYS_SCANNED + 1);
    MidnightsInOrder(s, DayOf(s, start) + 1, day + 1);
    OpenTimeInDay(s, day, x, d);
    OpenTimeAdds(s, start, x, d);
    OpenWithinDay(s, day, d - 1);
    OpenEndIsEarliest(s, start, m, d);
    OpenTimeGrows(s, start, d, Horizon(s, start));
    FirstByIsEarliest(s, start, m, Horizon(s, start));
    EarliestUnique(s, start, m, d, FirstBy(s, start, m, Horizon(s, start)));
  }

  /** Open time of the rest of a day, seen from the cursor. */
  lemma DayRemainder(s: Schedule, day: int, start: int)
    requires Legal(s) && !AlwaysOpen(s) && DayOf(s, start) <= day
    ensures OpenTime(s, start, Max(start, DayStart(s, day + 1))) ==
            OpenTime(s, start, Max(start, DayStart(s, day))) + DayAvailable(s, day, start)
  {
    DayOfBounds(s, start);
    MidnightsInOrder(s, DayOf(s, start) + 1, day + 1);
    hide OpenTime;
    hide IsOpen;
    hide AtMinute;
    var x := Max(start, DayStart(s, day));
    OpenTimeInDay(s, day, x, DayStart(s, day + 1));
    OpenTimeAdds(s, start, x, DayStart(s, day + 1));
    if WindowFor(s, day).Some? && WindowFor(s, day).value.Minutes() > 0 { WindowWithinDay(s, day); }
  }

  function DayAvailable(s: Schedule, day: int, start: int): int {
    match WindowFor(s, day)
    case None => 0
    case Some(w) =>
      if w.Minutes() > 0 then Max(0, AtMinute(s, day, w.closeMinute) - Max(AtMinute(s, day, w.openMinute), start)) else 0
  }

  method FindDeadline(s: Schedule, start: int, m: int) returns (d: int)
    requires Legal(s)
    ensures d == Deadline(s, start, m)
  {
    hide AtMinute;
    hide DayStart;
    hide DayOf;
    hide OpenTime;
    hide IsOpen;
    hide Deadline;
    EdgeDeadlines(s, start, m);
    if AlwaysOpen(s) { return start + m; }
    if m <= 0 { return start; }
    var remaining := m;
    var day := DayOf(s, start);
    var scanned := 0;
    DayOfBounds(s, start);
    NoTime(s, start);
    while scanned <= MAX_DAYS_SCANNED
      invariant day == DayOf(s, start) + scanned && 0 <= scanned <= MAX_DAYS_SCANNED + 1
      invariant 0 < remaining && OpenTime(s, start, Max(start, DayStart(s, day))) == m - remaining
    {
      scanned := scanned + 1;
      DayRemainder(s, day, start);
      var window := WindowFor(s, day);
      if window.Some? && window.value.Minutes() > 0 {
        var opens := AtMinute(s, day, window.value.openMinute);
        var closes := AtMinute(s, day, window.value.closeMinute);
        var cursor := Max(opens, start);
        if closes > cursor {
          var available := closes - cursor;
          if available >= remaining {
            LandsOnDeadline(s, day, start, m, cursor, remaining);
            return cursor + remaining;
          }
          remaining := remaining - available;
        }
      }
      day := day + 1;
    }
    StartBeforeHorizon(s, start);
    FallsBackBeyondReach(s, start, m);
    return start + m;
  }

  lemma EdgeDeadlines(s: Schedule, start: int, m: int)
    ensures AlwaysOpen(s) ==> Deadline(s, start, m) == start + m
    ensures !AlwaysOpen(s) && m <= 0 ==> Deadline(s, start, m) == start
  {
  }

  lemma FallsBackBeyondReach(s: Schedule, start: int, m: int)
    requires !AlwaysOpen(s) && m > Reach(s, start)
    ensures Deadline(s, start, m) == start + m
  {
  }

  // ------------------------------------------------------------------ the laws

  /** 1045 whole weeks always fit before the scan gives up. */
  lemma ReachCoversWeeks(s: Schedule, start: int)
    requires Legal(s) && !AlwaysOpen(s)
    ensures Reach(s, start) >= 1045 * WeekTime(s)
  {
    var d := DayOf(s, start) + 1;
    DayOfBounds(s, start);
    hide OpenTime;
    hide IsOpen;
    WholeDays(s, d, 7 * 1045);
    WholeWeeks(s, d, 1045);
    MidnightsInOrder(s, d, d + 7 * 1045);
    MidnightsInOrder(s, d + 7 * 1045, DayOf(s, start) + MAX_DAYS_SCANNED + 1);
    hide DayStart;
    hide DaysTime;
    OpenTimeAdds(s, start, DayStart(s, d), DayStart(s, d + 7 * 1045));
    OpenTimeGrows(s, start, DayStart(s, d + 7 * 1045), Horizon(s, start));
  }

  /** Exact inverse: the deadline of m is the earliest instant by which m has elapsed. */
  lemma DeadlineInvertsElapsed(s: Schedule, start: int, m: int)
    requires Legal(s) && 0 <= m && (AlwaysOpen(s) || m <= Reach(s, start))
    ensures Elapsed(s, start, Deadline(s, start, m)) == m
    ensures forall e :: e < Deadline(s, start, m) ==> Elapsed(s, start, e) < m || m == 0
  {
    hide OpenTime;
    StartBeforeHorizon(s, start);
    NoTime(s, start);
    if !AlwaysOpen(s) && m > 0 {
      FirstByIsEarliest(s, start, m, Horizon(s, start));
      hide FirstBy;
      hide Horizon;
    }
  }

  /** In particular for anything up to 1045 weeks of opening hours, from any start. */
  lemma DeadlineExactForDecades(s: Schedule, start: int, m: int)
    requires Legal(s) && !AlwaysOpen(s) && 0 < m <= 1045 * WeekTime(s)
    ensures Earliest(s, start, m, Deadline(s, start, m))
  {
    ReachCoversWeeks(s, start);
    StartBeforeHorizon(s, start);
    FirstByIsEarliest(s, start, m, Horizon(s, start));
  }

  /** The wall-clock fallback is reached exactly when the allowance exceeds what the scan can reach, and is then right
      only by luck: when the schedule happens to be open at every instant up to it. */
  lemma FallbackExactly(s: Schedule, start: int, m: int)
    requires Legal(s) && !AlwaysOpen(s) && 0 < m
    ensures m > Reach(s, start) ==> Deadline(s, start, m) == start + m
    ensures Earliest(s, start, m, Deadline(s, start, m)) <==>
            m <= Reach(s, start) || forall t :: start <= t < start + m ==> IsOpen(s, t)
  {
    hide OpenTime;
    hide IsOpen;
    StartBeforeHorizon(s, start);
    if m <= Reach(s, start) {
      FirstByIsEarliest(s, start, m, Horizon(s, start));
    } else {
      if Earliest(s, start, m, start + m) { AlwaysOpenSoFar(s, start, start + m); }
      if forall t :: start <= t < start + m ==> IsOpen(s, t) { OpenThroughout(s, start, start + m); }
    }
  }

  lemma {:induction false} OpenThroughout(s: Schedule, a: int, b: int)
    requires a <= b && forall t :: a <= t < b ==> IsOpen(s, t)
    ensures OpenTime(s, a, b) == b - a
    ensures forall e :: e < b ==> OpenTime(s, a, e) <= Max(0, e - a)
    decreases b - a
  {
    hide IsOpen;
    if a < b { OpenThroughout(s, a, b - 1); }
    forall e | e < b ensures OpenTime(s, a, e) <= Max(0, e - a) { ClockOutrunsOpenTime(s, a, e); }
  }

  /** A week that is never open answers with the wall clock for every allowance. */
  lemma NeverOpenFallsBack(s: Schedule, start: int, m: int)
    requires Legal(s) && !AlwaysOpen(s) && WeekTime(s) == 0 && 0 < m
    ensures Deadline(s, start, m) == start + m && Elapsed(s, start, start + m) == 0
  {
    var d := DayOf(s, start);
    var n := MAX_DAYS_SCANNED + 1;
    NothingOpens(s, d, n);
    WholeDays(s, d, n);
    DayOfBounds(s, start);
    hide OpenTime;
    hide IsOpen;
    hide DaysTime;
    hide WeekTime;
    MidnightsInOrder(s, d + 1, d + n);
    OpenTimeAdds(s, DayStart(s, d), start, Horizon(s, start));
    OpenTimeGrows(s, start, Min(start + m, Horizon(s, start)), Horizon(s, start));
  }

  lemma {:induction false} NothingOpens(s: Schedule, day: int, n: nat)
    requires WeekTime(s) == 0
    ensures DaysTime(s, day, n) == 0
  {
    if n > 0 {
      NothingOpens(s, day, n - 1);
      var w := Weekday(day + n - 1);
      if w == 0 {} else if w == 1 {} else if w == 2 {} else if w == 3 {} else if w == 4 {} else if w == 5 {}
    }
  }

  /** Allowances compose: waiting a then b is waiting a + b. */
  lemma DeadlinesCompose(s: Schedule, start: int, a: int, b: int)
    requires Legal(s) && 0 <= a && 0 <= b && (AlwaysOpen(s) || a + b <= Reach(s, start))
    ensures Deadline(s, Deadline(s, start, a), b) == Deadline(s, start, a + b)
  {
    StartBeforeHorizon(s, start);
    hide OpenTime;
    hide IsOpen;
    if !AlwaysOpen(s) && 0 < a && 0 < b {
      var h := Horizon(s, start);
      FirstByIsEarliest(s, start, a, h);
      FirstByIsEarliest(s, start, a + b, h);
      hide FirstBy;
      var d := Deadline(s, start, a);
      var e := Deadline(s, start, a + b);
      RestOfTheWay(s, start, d, e, a, b);
      ReachedFrom(s, d, e, b, h);
    }
  }

  /** The two legs of a wait: what is left after the first is the earliest way to the second. */
  lemma RestOfTheWay(s: Schedule, start: int, d: int, e: int, a: int, b: int)
    requires 0 < a && 0 < b && Earliest(s, start, a, d) && Earliest(s, start, a + b, e)
    ensures Earliest(s, d, b, e)
  {
    hide IsOpen;
    OpenTimeGrows(s, start, e, Max(d, e));
    assert d <= e;
    OpenTimeAdds(s, start, d, e);
    forall x | x < e ensures OpenTime(s, d, x) < b {
      EmptyTime(s, d, x);
      if d <= x { OpenTimeAdds(s, start, d, x); }
    }
  }

  lemma ReachedFrom(s: Schedule, d: int, e: int, b: int, h: int)
    requires Legal(s) && !AlwaysOpen(s) && 0 < b && Earliest(s, d, b, e) && e <= h <= Horizon(s, d)
    ensures Deadline(s, d, b) == e
  {
    hide OpenTime;
    OpenTimeGrows(s, d, e, Horizon(s, d));
    FirstByIsEarliest(s, d, b, Horizon(s, d));
    hide FirstBy;
    EarliestUnique(s, d, b, e, Deadline(s, d, b));
  }

  /** Elapsed time adds up over adjacent intervals and never runs backwards, for any span the scan covers. */
  lemma ElapsedAdds(s: Schedule, a: int, b: int, c: int)
    requires a <= b <= c && (AlwaysOpen(s) || c <= Horizon(s, a))
    ensures Elapsed(s, a, c) == Elapsed(s, a, b) + Elapsed(s, b, c)
    ensures 0 <= Elapsed(s, a, b) <= Elapsed(s, a, c) <= c - a
  {
    hide OpenTime;
    hide IsOpen;
    if !AlwaysOpen(s) {
      DaysInOrder(s, a, b);
      OpenTimeAdds(s, a, b, c);
      ClockOutrunsOpenTime(s, a, c);
    }
  }

  lemma ClockOutrunsOpenTime(s: Schedule, a: int, b: int)
    ensures OpenTime(s, a, b) <= Max(0, b - a)
    decreases b - a
  {
    hide IsOpen;
    if a < b { ClockOutrunsOpenTime(s, a, b - 1); }
  }

  lemma {:induction false} AlwaysOpenSoFar(s: Schedule, a: int, b: int)
    requires a <= b && OpenTime(s, a, b) == b - a
    ensures forall t :: a <= t < b ==> IsOpen(s, t)
    decreases b - a
  {
    hide IsOpen;
    if a < b {
      ClockOutrunsOpenTime(s, a, b - 1);
      AlwaysOpenSoFar(s, a, b - 1);
    }
  }
}
