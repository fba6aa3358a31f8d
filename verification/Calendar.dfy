/** Instants as nanoseconds since 1970-01-01 00:00 UTC, and the next-backup times that repeat
    with a fixed period: daily, weekly and hourly. */
module Calendar {
  import opened Arithmetic

  const SECOND := 1_000_000_000
  const MINUTE := 60 * SECOND
  const HOUR := 60 * MINUTE
  const DAY := 24 * HOUR
  const WEEK := 7 * DAY

  /** r is the first instant of a set at or after now. */
  ghost predicate First(now: int, r: int, slot: int -> bool) {
    now <= r && slot(r) && forall t :: now <= t < r ==> !slot(t)
  }

  /** In a set that repeats with a period, one member within a period of now settles it. */
  lemma FirstOfPeriod(now: int, r: int, p: int, slot: int -> bool)
    requires 0 < p && slot(r) && forall t :: slot(t) <==> (t - r) % p == 0
    ensures First(now, r, slot) <==> now <= r < now + p
  {
    if now <= r < now + p {
      forall t | now <= t < r ensures !slot(t) { NotMultiple(r - t, p); }
    } else if now + p <= r {
      assert (-p) % p == 0;
      assert slot(r - p);
    }
  }

  // ---- daily ----

  /** time.Date normalises an hour or a minute that is out of range, as the sum does here. */
  function Midnight(now: int): int {
    now - now % DAY
  }

  function NextDaily(now: int, hours: int, minutes: int): int {
    var today := Midnight(now) + hours * HOUR + minutes * MINUTE;
    if today < now then today + DAY else today
  }

  predicate DailySlot(hours: int, minutes: int, t: int) {
    (t - hours * HOUR - minutes * MINUTE) % DAY == 0
  }

  /** The next time of that hour and minute. Hour 24, which policies may carry, is the exception:
      shortly after midnight it skips the slot that is still ahead today. */
  lemma DailyIsFirst(now: int, hours: int, minutes: int)
    requires 0 <= hours <= 24 && 0 <= minutes <= 59
    ensures First(now, NextDaily(now, hours, minutes), t => DailySlot(hours, minutes, t))
       <==> hours < 24 || minutes * MINUTE < now % DAY
  {
    var r := NextDaily(now, hours, minutes);
    var offset := hours * HOUR + minutes * MINUTE;
    var slot := t => DailySlot(hours, minutes, t);
    MultipleOf(Midnight(now), now / DAY, DAY);
    forall t ensures slot(t) <==> (t - r) % DAY == 0 {
      SameClass(t - offset, r - offset, DAY);
    }
    FirstOfPeriod(now, r, DAY, slot);
  }

  // ---- weekly ----

  /** Sunday is 0; 1970-01-01 was a Thursday. */
  function Weekday(t: int): int {
    (t / DAY + 4) % 7
  }

  function FirstDayOfWeek(t: int): int {
    var weekday := if Weekday(t) == 0 then 7 else Weekday(t);
    Midnight(t - (weekday - 1) * DAY)
  }

  /** A reference Monday: 1970-01-05. */
  const MONDAY := 4 * DAY

  lemma MondayIff(t: int)
    ensures (t - MONDAY) % WEEK == 0 <==> t % DAY == 0 && Weekday(t) == 1
  {
    if (t - MONDAY) % WEEK == 0 {
      var k := (t - MONDAY) / WEEK;
      assert t == (7 * k + 4) * DAY;
      ModIs(t, 7 * k + 4, 0, DAY);
      ModIs(7 * k + 8, k + 1, 1, 7);
    } else if t % DAY == 0 && Weekday(t) == 1 {
      var k := (t / DAY + 4) / 7 - 1;
      WholeWeeks(t / DAY, k);
      MultipleOf(t - MONDAY, k, WEEK);
    }
  }

  lemma WholeWeeks(days: int, k: int)
    requires (days + 4) % 7 == 1 && k == (days + 4) / 7 - 1
    ensures days * DAY - MONDAY == k * WEEK
  {
    assert days == 7 * k + 4;
  }

  /** It is the one Monday 00:00 UTC with t within the week that follows. */
  lemma FirstDayOfWeekIsMonday(t: int)
    ensures
      var f := FirstDayOfWeek(t);
      f <= t < f + WEEK && f % DAY == 0 && Weekday(f) == 1
  {
    var days := t / DAY;
    var weekday := if Weekday(t) == 0 then 7 else Weekday(t);
    var first := days - (weekday - 1);
    assert t - (weekday - 1) * DAY == first * DAY + t % DAY;
    ModIs(t - (weekday - 1) * DAY, first, t % DAY, DAY);
    assert FirstDayOfWeek(t) == first * DAY;
    ModIs(first * DAY, first, 0, DAY);
  }

  function NextWeekly(now: int, hours: int, minutes: int, weekly: int): int {
    var backupDay := FirstDayOfWeek(now) + (weekly - 1) * DAY;
    var slot := backupDay + hours * HOUR + minutes * MINUTE;
    var shifted := if hours >= 16 then slot - DAY else slot;
    if shifted < now then shifted + WEEK else shifted
  }

  /** The weekly instants meant: that hour and minute of that weekday (1 is Monday, 7 Sunday),
      one day earlier from 16:00 on. */
  predicate WeeklySlot(hours: int, minutes: int, weekly: int, t: int) {
    var midnight := t + (if hours >= 16 then DAY else 0) - hours * HOUR - minutes * MINUTE;
    midnight % DAY == 0 && Weekday(midnight) == weekly % 7
  }

  lemma WeekdayIff(t: int, weekly: int)
    requires 1 <= weekly <= 7
    ensures t % DAY == 0 && Weekday(t) == weekly % 7 <==> (t - (weekly - 1) * DAY - MONDAY) % WEEK == 0
  {
    var back := t - (weekly - 1) * DAY;
    MondayIff(back);
    assert t + (1 - weekly) * DAY == back;
    assert t == t / DAY * DAY + t % DAY;
    ModIs(back, t / DAY + 1 - weekly, t % DAY, DAY);
    WeekdayBack(t / DAY, weekly);
  }

  lemma WeekdayBack(days: int, weekly: int)
    requires 1 <= weekly <= 7
    ensures (days + 4) % 7 == weekly % 7 <==> (days + 1 - weekly + 4) % 7 == 1
  {
  }

  /** From the Monday of the week to the slot that the code computes first. */
  function WeeklyOffset(hours: int, minutes: int, weekly: int): int {
    (weekly - 1) * DAY + hours * HOUR + minutes * MINUTE - if hours >= 16 then DAY else 0
  }

  lemma WeeklySlots(now: int, hours: int, minutes: int, weekly: int, t: int)
    requires 1 <= weekly <= 7
    ensures WeeklySlot(hours, minutes, weekly, t) <==> (t - NextWeekly(now, hours, minutes, weekly)) % WEEK == 0
  {
    hide Weekday, FirstDayOfWeek, Midnight;
    var f := FirstDayOfWeek(now);
    FirstDayOfWeekIsMonday(now);
    MondayIff(f);
    WeekdayIff(t - WeeklyOffset(hours, minutes, weekly) + (weekly - 1) * DAY, weekly);
    WeeklyClass(t, NextWeekly(now, hours, minutes, weekly), WeeklyOffset(hours, minutes, weekly), f);
  }

  /** The next such instant, unless the slot is Monday's and moved into Sunday: in the last
      hours of a week, past the moved slot, the answer lies in the past. */
  lemma WeeklyIsFirst(now: int, hours: int, minutes: int, weekly: int)
    requires 0 <= hours <= 24 && 0 <= minutes <= 59 && 1 <= weekly <= 7
    ensures
      var r := NextWeekly(now, hours, minutes, weekly);
      && (First(now, r, t => WeeklySlot(hours, minutes, weekly, t)) <==>
            (weekly == 1 && 16 <= hours < 24 ==> now - FirstDayOfWeek(now) <= 6 * DAY + hours * HOUR + minutes * MINUTE))
      && now - 8 * HOUR <= r < now + WEEK
  {
    hide Weekday, FirstDayOfWeek, Midnight, First, WeeklySlot;
    var r := NextWeekly(now, hours, minutes, weekly);
    var slot := t => WeeklySlot(hours, minutes, weekly, t);
    FirstDayOfWeekIsMonday(now);
    forall t ensures slot(t) <==> (t - r) % WEEK == 0 { WeeklySlots(now, hours, minutes, weekly, t); }
    WeeklyRange(now, FirstDayOfWeek(now), hours, minutes, weekly);
    FirstOfPeriod(now, r, WEEK, slot);
  }

  lemma WeeklyRange(now: int, f: int, hours: int, minutes: int, weekly: int)
    requires 0 <= hours <= 24 && 0 <= minutes <= 59 && 1 <= weekly <= 7 && f <= now < f + WEEK
    ensures
      var t := f + WeeklyOffset(hours, minutes, weekly);
      var r := if t < now then t + WEEK else t;
      && (now <= r < now + WEEK <==>
            (weekly == 1 && 16 <= hours < 24 ==> now - f <= 6 * DAY + hours * HOUR + minutes * MINUTE))
      && now - 8 * HOUR <= r < now + WEEK
  {
  }

  lemma WeeklyClass(t: int, r: int, offset: int, monday: int)
    requires (monday - MONDAY) % WEEK == 0
    requires r == monday + offset || r == monday + offset + WEEK
    ensures (t - offset - MONDAY) % WEEK == 0 <==> (t - r) % WEEK == 0
  {
    var b := r - offset - MONDAY;
    if r != monday + offset { ModAdd(monday - MONDAY, 1, WEEK); }
    assert t - r == (t - offset - MONDAY) - b;
    SameClass(t - offset - MONDAY, b, WEEK);
  }

  /** For a Monday slot at 18:00, moved to Sunday 18:00, the answer given at Sunday 23:00 is
      five hours old. */
  lemma WeeklyInThePast()
    ensures
      var now := MONDAY + 6 * DAY + 23 * HOUR;
      NextWeekly(now, 18, 0, 1) == now - 5 * HOUR
  {
  }

  // ---- hourly ----

  /** now is the local wall clock here. Go's remainder of a non-negative minute is the Euclidean
      one, also by a negative step; a step of 0 makes it panic. */
  function NextHourly(now: int, minutes: int): int
    requires minutes != 0
  {
    var currentMinute := (now / MINUTE) % 60;
    var remainder := currentMinute % minutes;
    var nextMinute :=
      if remainder == 0 && now % MINUTE == 0 then currentMinute + minutes
      else currentMinute + (minutes - remainder);
    var later := now + (nextMinute - currentMinute) * MINUTE;
    later - later % MINUTE
  }

  /** The minute the code aims at is the first multiple of the step after the current one,
      whether or not it still lies in this hour. */
  function AimedMinute(now: int, m: int): int
    requires m > 0
  {
    ((now / MINUTE) % 60 / m + 1) * m
  }

  /** The start of the current hour, in minutes. */
  function HourStart(now: int): int {
    now / MINUTE - now / MINUTE % 60
  }

  lemma Whole(now: int, k: int)
    ensures (now + k * MINUTE) - (now + k * MINUTE) % MINUTE == (now / MINUTE + k) * MINUTE
  {
    ModIs(now + k * MINUTE, now / MINUTE + k, now % MINUTE, MINUTE);
  }

  lemma HourlyAims(now: int, m: int)
    requires m > 0
    ensures NextHourly(now, m) == (HourStart(now) + AimedMinute(now, m)) * MINUTE
  {
    var c := (now / MINUTE) % 60;
    assert c == c / m * m + c % m;
    assert AimedMinute(now, m) == c / m * m + m;
    Whole(now, AimedMinute(now, m) - c);
  }

  lemma AimedBounds(now: int, m: int)
    requires m > 0
    ensures AimedMinute(now, m) - m <= now / MINUTE % 60 < AimedMinute(now, m)
  {
    var c := (now / MINUTE) % 60;
    assert c == c / m * m + c % m;
    assert AimedMinute(now, m) == c / m * m + m;
  }

  lemma HourlyIsAhead(now: int, minutes: int)
    requires minutes != 0
    ensures NextHourly(now, minutes) > now <==> minutes > 0
  {
    var c := (now / MINUTE) % 60;
    if minutes > 0 {
      HourlyAims(now, minutes);
      AimedBounds(now, minutes);
    } else {
      var k := if c % minutes == 0 && now % MINUTE == 0 then minutes else minutes - c % minutes;
      assert k < 0;
      Whole(now, k);
    }
  }

  /** A cron entry with the minute field * / m fires at every minute of the hour divisible by m. */
  predicate CronFires(m: int, t: int)
    requires m > 0
  {
    t % MINUTE == 0 && (t / MINUTE) % 60 % m == 0
  }

  ghost predicate NextFire(m: int, now: int, t: int)
    requires m > 0
  {
    now < t && CronFires(m, t) && forall u :: now < u < t ==> !CronFires(m, u)
  }

  function CronNext(now: int, m: int): int
    requires m > 0
  {
    (HourStart(now) + if AimedMinute(now, m) < 60 then AimedMinute(now, m) else 60) * MINUTE
  }

  lemma CronFiresNext(now: int, m: int)
    requires m > 0
    ensures CronFires(m, CronNext(now, m))
  {
    var h := HourStart(now);
    var a := AimedMinute(now, m);
    AimedBounds(now, m);
    assert h % 60 == 0;
    var minute := h + if a < 60 then a else 60;
    ModIs(minute * MINUTE, minute, 0, MINUTE);
    assert minute % 60 == if a < 60 then a else 0;
    if a < 60 { ModIs(a, (now / MINUTE) % 60 / m + 1, 0, m); } else { ModIs(0, 0, 0, m); }
  }

  lemma CronNextIs(now: int, m: int)
    requires m > 0
    ensures NextFire(m, now, CronNext(now, m))
  {
    AimedBounds(now, m);
    CronFiresNext(now, m);
    forall u | now < u < CronNext(now, m) ensures !CronFires(m, u) {
      if u % MINUTE == 0 { NoFireBefore(now, m, u); }
    }
  }

  lemma NoFireBefore(now: int, m: int, u: int)
    requires m > 0 && now < u < CronNext(now, m) && u % MINUTE == 0
    ensures !CronFires(m, u)
  {
    var minute := now / MINUTE;
    var a := AimedMinute(now, m);
    MinutesBetween(now, u, HourStart(now) + if a < 60 then a else 60);
    SameHour(minute, u / MINUTE);
    AimedFrom(minute % 60, m, a, u / MINUTE % 60);
  }

  lemma MinutesBetween(now: int, u: int, next: int)
    requires now < u < next * MINUTE && u % MINUTE == 0
    ensures now / MINUTE < u / MINUTE < next
  {
  }

  lemma AimedFrom(c: int, m: int, a: int, x: int)
    requires m > 0 && a == (c / m + 1) * m && c < x < a
    ensures x % m != 0
  {
    assert c == c / m * m + c % m && a == c / m * m + m;
    NoMultipleInside(x, c / m, m);
  }

  lemma SameHour(minute: int, later: int)
    requires minute <= later < minute - minute % 60 + 60
    ensures later % 60 == minute % 60 + (later - minute)
  {
  }

  /** The shown time is never before the time the cron entry really fires, and equals it exactly
      when the step does not jump past the top of the hour, so always for a divisor of 60. */
  lemma HourlyVersusCron(now: int, m: int, fire: int)
    requires m > 0 && NextFire(m, now, fire)
    ensures NextHourly(now, m) >= fire
    ensures NextHourly(now, m) == fire <==> AimedMinute(now, m) <= 60
    ensures 60 % m == 0 ==> NextHourly(now, m) == fire
  {
    CronNextIs(now, m);
    assert fire == CronNext(now, m);
    HourlyAims(now, m);
    if 60 % m == 0 { DivisorStays(now, m); }
  }

  lemma DivisorStays(now: int, m: int)
    requires m > 0 && 60 % m == 0
    ensures AimedMinute(now, m) <= 60
  {
    AimedBounds(now, m);
    var a := AimedMinute(now, m);
    var k := (now / MINUTE) % 60 / m + 1;
    assert a == k * m && 60 == 60 / m * m;
    if a > 60 { NoMultipleInside(60, k - 1, m); }
  }
}
