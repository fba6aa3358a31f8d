/** GetNextBackupTime: which of the four forms answers, and when the answer lies ahead. */
module NextBackups {
  import opened Options
  import opened Text
  import opened Schedules
  import opened Calendar
  import opened MonthlyTimes

  /** The outcome of the call: nil, a crash of the request, a loop without end, or the instant
      (the source returns its whole seconds). */
  datatype Outcome = NoTime | Panics | Hangs | Next(instant: int)

  /** `zone` is the offset of the server's wall clock, which only the hourly form reads. */
  ghost function GetNextBackupTime(p: Policy, now: Clock, zone: int): Outcome {
    var parts := Split(p.timesOfDay, ':');
    if |parts| != 2 || Atoi(parts[0]).None? || Atoi(parts[1]).None? then NoTime
    else
      var hours, minutes := Atoi(parts[0]).value, Atoi(parts[1]).value;
      if p.frequency == "@hourly" then
        if minutes == 0 then Panics else Next(NextHourly(Instant(now) + zone, minutes) - zone)
      else if p.frequency == "@weekly" then Next(NextWeekly(Instant(now), hours, minutes, p.dayOfWeek))
      else if p.frequency == "@monthly" then
        if SearchEnds(now, p.dateOfMonth, hours, minutes) then Next(MonthlyAnswer(now, hours, minutes, p.dateOfMonth)) else Hangs
      else Next(NextDaily(Instant(now), hours, minutes))
  }

  function MonthlyAnswer(now: Clock, hours: int, minutes: int, day: int): int {
    MonthlyTimes.At(FirstMonth(now, day, hours, minutes), day, hours, minutes) - if hours >= 16 then DAY else 0
  }

  /** What validBackupPolicy and ParseToCron check of a policy between them. */
  predicate Scheduled(p: Policy) {
    && TimeOfDay(p.timesOfDay).Some?
    && p.frequency in ["@hourly", "@daily", "@weekly", "@monthly"]
    && (p.frequency == "@weekly" ==> 1 <= p.dayOfWeek <= 7)
    && (p.frequency == "@monthly" ==> 1 <= p.dateOfMonth <= 31)
  }

  /** The last candidate of the four-digit years has passed. */
  predicate OutOfYears(now: Clock, day: int, hours: int, minutes: int) {
    now.month == LAST_MONTH && MonthlyTimes.At(now.month, day, hours, minutes) < Instant(now)
  }

  /** Of the policies that get scheduled, exactly the hourly ones with minute 0 crash and
      exactly the monthly ones at hour 24 loop for ever, or those past the last month of all. */
  lemma ScheduledOutcome(p: Policy, now: Clock, zone: int)
    requires Scheduled(p) && ValidClock(now)
    ensures
      var (hours, minutes) := TimeOfDay(p.timesOfDay).value;
      var o := GetNextBackupTime(p, now, zone);
      && !o.NoTime?
      && (o.Panics? <==> p.frequency == "@hourly" && minutes == 0)
      && (o.Hangs? <==> p.frequency == "@monthly" && (hours == 24 || OutOfYears(now, p.dateOfMonth, hours, minutes)))
  {
    hide Atoi, Split, MonthlyTimes.At, Instant, MonthlyAnswer, NextHourly, NextWeekly, NextDaily, SearchEnds;
    var (hours, minutes) := TimeOfDay(p.timesOfDay).value;
    SearchEndsIff(now, p.dateOfMonth, hours, minutes);
  }

  /** The policy names no instant in the day that begins now. */
  ghost predicate NoneWithinADay(now: int, day: int, hours: int, minutes: int) {
    forall t :: now <= t < now + DAY ==> !MonthlySlot(day, hours, minutes, t)
  }

  /** When the instant is not before now. From 16:00 on, a monthly slot is moved one day back
      after it was compared with now, so it is in the past exactly when the policy names an
      instant within a day; and a Monday slot that was moved into Sunday can be 8 hours old. */
  ghost predicate Ahead(p: Policy, now: Clock) {
    var n := Instant(now);
    match TimeOfDay(p.timesOfDay)
    case None => false
    case Some((hours, minutes)) =>
      if p.frequency == "@weekly" then
        MondaySlotAhead(n, hours, minutes, p.dayOfWeek)
      else if p.frequency == "@monthly" && hours >= 16 then
        NoneWithinADay(n, p.dateOfMonth, hours, minutes)
      else true
  }

  predicate MondaySlotAhead(now: int, hours: int, minutes: int, weekly: int) {
    weekly == 1 && 16 <= hours < 24 ==> now - FirstDayOfWeek(now) <= 6 * DAY + hours * HOUR + minutes * MINUTE
  }

  lemma ScheduledIsAhead(p: Policy, now: Clock, zone: int)
    requires Scheduled(p) && ValidClock(now) && GetNextBackupTime(p, now, zone).Next?
    ensures GetNextBackupTime(p, now, zone).instant >= Instant(now) <==> Ahead(p, now)
    ensures GetNextBackupTime(p, now, zone).instant >= Instant(now) - DAY
  {
    hide Atoi, Split, MonthlyTimes.At, Instant, FirstMonth, MonthlyAnswer, NextHourly, NextWeekly, NextDaily,
      SearchEnds, FirstDayOfWeek, ValidClock, NoneWithinADay;
    var (hours, minutes) := TimeOfDay(p.timesOfDay).value;
    var n := Instant(now);
    if p.frequency == "@hourly" {
      HourlyIsAhead(n + zone, minutes);
    } else if p.frequency == "@weekly" {
      WeeklyAhead(n, hours, minutes, p.dayOfWeek);
    } else if p.frequency == "@monthly" {
      SearchEndsIff(now, p.dateOfMonth, hours, minutes);
      MonthlyAhead(now, hours, minutes, p.dateOfMonth);
    } else {
      DailyAhead(n, hours, minutes);
    }
  }

  /** t is the next fire of the cron entry, exactly when the aimed minute stays in the hour. */
  ghost predicate MeetsCron(m: int, wall: int, t: int)
    requires m > 0
  {
    forall fire :: NextFire(m, wall, fire) ==> (t == fire <==> AimedMinute(wall, m) <= 60)
  }

  lemma HourlyMeetsCron(m: int, wall: int)
    requires m > 0
    ensures MeetsCron(m, wall, NextHourly(wall, m))
  {
    hide NextFire, NextHourly, AimedMinute;
    forall fire | NextFire(m, wall, fire) ensures NextHourly(wall, m) == fire <==> AimedMinute(wall, m) <= 60 {
      HourlyVersusCron(wall, m, fire);
    }
  }

  /** What the instant means for each frequency: the first time from now on that the policy
      names, up to the known exceptions; for the hourly form, the fire of its cron entry. */
  lemma ScheduledIsMeant(p: Policy, now: Clock, zone: int)
    requires Scheduled(p) && ValidClock(now) && GetNextBackupTime(p, now, zone).Next?
    ensures
      var (hours, minutes) := TimeOfDay(p.timesOfDay).value;
      var n, t := Instant(now), GetNextBackupTime(p, now, zone).instant;
      match p.frequency
      case "@hourly" =>
        minutes > 0 && MeetsCron(minutes, n + zone, t + zone)
      case "@weekly" =>
        First(n, t, x => WeeklySlot(hours, minutes, p.dayOfWeek, x)) <==> MondaySlotAhead(n, hours, minutes, p.dayOfWeek)
      case "@monthly" =>
        First(n, if hours >= 16 then t + DAY else t, x => MonthlySlot(p.dateOfMonth, hours, minutes, x))
      case _ =>
        First(n, t, x => DailySlot(hours, minutes, x)) <==> hours < 24 || minutes * MINUTE < n % DAY
  {
    hide Atoi, Split, MonthlyTimes.At, Instant, FirstMonth, NextHourly, NextWeekly, NextDaily, SearchEnds,
      FirstDayOfWeek, ValidClock, WeeklySlot, MonthlySlot, DailySlot, NextFire, AimedMinute;
    var (hours, minutes) := TimeOfDay(p.timesOfDay).value;
    var n := Instant(now);
    if p.frequency == "@hourly" {
      HourlyMeetsCron(minutes, n + zone);
    } else if p.frequency == "@weekly" {
      WeeklyIsFirst(n, hours, minutes, p.dayOfWeek);
    } else if p.frequency == "@monthly" {
      SearchEndsIff(now, p.dateOfMonth, hours, minutes);
      MonthlyIsFirst(now, p.dateOfMonth, hours, minutes);
    } else {
      DailyIsFirst(n, hours, minutes);
    }
  }

  lemma DailyAhead(n: int, hours: int, minutes: int)
    requires hours >= 0 && minutes >= 0
    ensures NextDaily(n, hours, minutes) >= n
  {
  }

  lemma WeeklyAhead(n: int, hours: int, minutes: int, weekly: int)
    requires 0 <= hours <= 24 && 0 <= minutes <= 59 && 1 <= weekly <= 7
    ensures NextWeekly(n, hours, minutes, weekly) >= n <==> MondaySlotAhead(n, hours, minutes, weekly)
    ensures NextWeekly(n, hours, minutes, weekly) >= n - DAY
  {
    hide FirstDayOfWeek;
    FirstDayOfWeekIsMonday(n);
    WeeklyRange(n, FirstDayOfWeek(n), hours, minutes, weekly);
  }

  lemma MonthlyAhead(now: Clock, hours: int, minutes: int, day: int)
    requires ValidClock(now) && ValidFields(day, hours, minutes)
    ensures MonthlyAnswer(now, hours, minutes, day) >= Instant(now)
       <==> (hours >= 16 ==> NoneWithinADay(Instant(now), day, hours, minutes))
    ensures MonthlyAnswer(now, hours, minutes, day) >= Instant(now) - DAY
  {
    hide MonthlyTimes.At, Instant, FirstMonth, MonthlySlot;
    MonthlyIsFirst(now, day, hours, minutes);
    var r := MonthlyTimes.At(FirstMonth(now, day, hours, minutes), day, hours, minutes);
    var slot := t => MonthlySlot(day, hours, minutes, t);
    assert forall t :: MonthlySlot(day, hours, minutes, t) == slot(t);
    FirstIsFar(Instant(now), r, DAY, slot);
  }

  /** The first instant of a set is so far away exactly when none lies before that. */
  lemma FirstIsFar(now: int, r: int, d: int, slot: int -> bool)
    requires First(now, r, slot)
    ensures r >= now + d <==> forall t :: now <= t < now + d ==> !slot(t)
  {
  }
}
