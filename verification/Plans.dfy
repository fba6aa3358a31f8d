/** The check of a policy before it is stored, and what the later readers make of it. */
module Plans {
  import opened Options
  import opened Arithmetic
  import opened Text
  import opened Schedules
  import opened Calendar
  import opened MonthlyTimes
  import opened NextBackups

  /** A number below 100 as %.2d prints it. */
  function TwoDigits(n: int): string
    requires 0 <= n < 100
  {
    [(n / 10) as char + '0', (n % 10) as char + '0']
  }

  /** The minute of the day that a time stamp in milliseconds shows. `zone` is the wall clock's
      offset in seconds, which ParseTimestampToLocal adds to a time that already shows it. */
  function MinuteOfDay(stamp: int, zone: int): (m: int)
    ensures 0 <= m < 1440
  {
    (stamp * 1_000_000 + 2 * zone * SECOND) / MINUTE % 1440
  }

  function LocalText(stamp: int, zone: int): string {
    var m := MinuteOfDay(stamp, zone);
    TwoDigits(m / 60) + ":" + TwoDigits(m % 60)
  }

  predicate DayFits(p: Policy) {
    && (p.frequency == "@weekly" ==> 1 <= p.dayOfWeek <= 7)
    && (p.frequency == "@monthly" ==> 1 <= p.dateOfMonth <= 31)
  }

  /** validBackupPolicy: None is an error. The time is either a time stamp, which is turned into
      a text, or a text with one colon, whose two halves are not looked at. */
  function Validated(p: Policy, zone: int): Option<Policy> {
    var q := p.(timespanOfDay := p.timesOfDay, enabled := true);
    if p.frequency !in ["@hourly", "@daily", "@weekly", "@monthly"] then None
    else if ':' !in p.timesOfDay then
      match Atoi(p.timesOfDay)
      case None => None
      case Some(stamp) => if DayFits(p) then Some(q.(timesOfDay := LocalText(stamp, zone))) else None
    else if |Split(p.timesOfDay, ':')| == 2 && DayFits(p) then Some(q)
    else None
  }

  /** The plan of a request: the check works on its policy in place. */
  class BackupPlan {
    var policy: Policy

    constructor (policy: Policy)
      ensures this.policy == policy
    {
      this.policy := policy;
    }

    method ValidBackupPolicy(zone: int) returns (ok: bool)
      modifies this
      ensures ok <==> Validated(old(policy), zone).Some?
      ensures ok ==> Some(policy) == Validated(old(policy), zone)
    {
      policy := policy.(timespanOfDay := policy.timesOfDay);
      policy := policy.(enabled := true);
      if policy.frequency !in ["@hourly", "@daily", "@weekly", "@monthly"] { return false; }
      if ':' !in policy.timesOfDay {
        var stamp := Atoi(policy.timesOfDay);
        if stamp.None? { return false; }
        policy := policy.(timesOfDay := LocalText(stamp.value, zone));
      } else if |Split(policy.timesOfDay, ':')| != 2 {
        return false;
      }
      if policy.frequency == "@weekly" && (policy.dayOfWeek < 1 || policy.dayOfWeek > 7) { return false; }
      if policy.frequency == "@monthly" && (policy.dateOfMonth < 1 || policy.dateOfMonth > 31) { return false; }
      return true;
    }
  }

  lemma TwoDigitsValue(n: int)
    requires 0 <= n < 100
    ensures ':' !in TwoDigits(n) && Atoi(TwoDigits(n)) == Some(n)
  {
    var s := TwoDigits(n);
    assert s[..1] == [s[0]] && s[..1][..0] == "";
    assert DigitsValue(s[..1]) == n / 10;
    assert !HasPrefix(s, "-") && !HasPrefix(s, "+");
  }

  lemma TwoDigitsLength(n: int)
    requires 0 <= n < 100
    ensures |TwoDigits(n)| == 2
  {
  }

  lemma LocalTextReads(stamp: int, zone: int)
    ensures
      var m := MinuteOfDay(stamp, zone);
      Split(LocalText(stamp, zone), ':') == [TwoDigits(m / 60), TwoDigits(m % 60)]
      && TimeOfDay(LocalText(stamp, zone)) == Some((m / 60, m % 60))
  {
    hide Split, Atoi, MinuteOfDay, TwoDigits;
    var m := MinuteOfDay(stamp, zone);
    var parts := [TwoDigits(m / 60), TwoDigits(m % 60)];
    TwoDigitsValue(m / 60);
    TwoDigitsValue(m % 60);
    assert [parts[0]] + [parts[1]] == parts;
    JoinMore(parts[0], [parts[1]], ':');
    SplitJoin(parts, ':');
  }

  /** Within the minute that the minute of the day names. */
  lemma MinuteBounds(t: int)
    ensures
      var m := t / MINUTE % 1440;
      Midnight(t) + m * MINUTE <= t < Midnight(t) + m * MINUTE + MINUTE
  {
    var k, m := t / MINUTE, t / MINUTE % 1440;
    assert t == k * MINUTE + t % MINUTE && k == k / 1440 * 1440 + m;
    assert DAY == 1440 * MINUTE;
    ModIs(t, k / 1440, m * MINUTE + t % MINUTE, DAY);
  }

  /** A time stamp is stored as the hour and the minute, two digits each, that the wall clock
      moved by twice its offset shows at that instant. */
  lemma StampShowsItsMinute(p: Policy, zone: int)
    requires ':' !in p.timesOfDay && Validated(p, zone).Some?
    ensures Atoi(p.timesOfDay).Some?
    ensures
      var q := Validated(p, zone).value;
      var t := Atoi(p.timesOfDay).value * 1_000_000 + 2 * zone * SECOND;
      && |q.timesOfDay| == 5 && TimeOfDay(q.timesOfDay).Some?
      && var (hour, minute) := TimeOfDay(q.timesOfDay).value;
      && 0 <= hour < 24 && 0 <= minute < 60
      && Midnight(t) + hour * HOUR + minute * MINUTE <= t < Midnight(t) + hour * HOUR + minute * MINUTE + MINUTE
  {
    hide Split, Atoi, TwoDigits, TimeOfDay, Midnight;
    var stamp := Atoi(p.timesOfDay).value;
    var m := MinuteOfDay(stamp, zone);
    LocalTextReads(stamp, zone);
    TwoDigitsLength(m / 60);
    TwoDigitsLength(m % 60);
    MinuteBounds(stamp * 1_000_000 + 2 * zone * SECOND);
  }

  /** What is accepted, and what acceptance leaves of the policy: it is enabled, the time that was
      asked for is kept beside the one in use, and a text is used as it is. */
  lemma AcceptedPolicy(p: Policy, zone: int)
    ensures Validated(p, zone).Some? <==>
      && p.frequency in {"@hourly", "@daily", "@weekly", "@monthly"}
      && (p.frequency == "@weekly" ==> p.dayOfWeek in {1, 2, 3, 4, 5, 6, 7})
      && (p.frequency == "@monthly" ==> 0 < p.dateOfMonth < 32)
      && if ':' in p.timesOfDay then OneColon(p.timesOfDay) else Atoi(p.timesOfDay).Some?
    ensures Validated(p, zone).Some? ==>
      var q := Validated(p, zone).value;
      && q.enabled && q.timespanOfDay == p.timesOfDay && q.frequency == p.frequency
      && q.dayOfWeek == p.dayOfWeek && q.dateOfMonth == p.dateOfMonth && q.rest == p.rest
      && (':' in p.timesOfDay ==> q.timesOfDay == p.timesOfDay)
  {
    hide Split, Atoi, LocalText, OneColon;
    ColonParts(p.timesOfDay);
  }

  ghost predicate OneColon(s: string) {
    exists i :: 0 <= i < |s| && ColonAt(s, i) && forall j :: 0 <= j < |s| && j != i ==> s[j] != ':'
  }

  predicate ColonAt(s: string, i: nat)
    requires i < |s|
  {
    s[i] == ':'
  }

  /** A text has two parts exactly when it holds one colon. */
  lemma ColonParts(s: string)
    ensures |Split(s, ':')| == 2 <==> OneColon(s)
  {
    hide IndexOf;
    var i := IndexOf(s, ':');
    if i < |s| {
      assert ColonAt(s, i);
      var rest := s[i + 1..];
      var k := IndexOf(rest, ':');
      assert k < |rest| ==> s[i + 1 + k] == ':' && i + 1 + k != i;
      assert k == |rest| ==> rest == rest[..k];
      assert ':' !in s[..i];
      assert forall j :: 0 <= j < i ==> s[j] == s[..i][j];
      assert forall j :: i < j < |s| ==> s[j] == rest[j - i - 1];
    } else {
      assert s == s[..i];
    }
  }

  /** A policy given by a time stamp always gets an expression, and a next time too, unless it is
      hourly on the full hour, or monthly with no month left to name. */
  lemma StampIsServed(p: Policy, zone: int, now: Clock, offset: int)
    requires ':' !in p.timesOfDay && Validated(p, zone).Some?
    requires ValidClock(now)
    ensures
      var q := Validated(p, zone).value;
      var m := MinuteOfDay(Atoi(p.timesOfDay).value, zone);
      ParseToCron(q) != ""
      && (GetNextBackupTime(q, now, offset).Next? <==>
            && !(p.frequency == "@hourly" && m % 60 == 0)
            && !(p.frequency == "@monthly" && OutOfYears(now, p.dateOfMonth, m / 60, m % 60)))
  {
    hide Split, Atoi, MinuteOfDay, LocalText, GetNextBackupTime, ParseToCron, TimeOfDay, OutOfYears;
    var q := Validated(p, zone).value;
    LocalTextReads(Atoi(p.timesOfDay).value, zone);
    CronIffValid(q);
    ScheduledOutcome(q, now, offset);
  }

  /** A text passes the check unread: whether it is scheduled depends on ParseToCron alone, and
      a monthly one whose hour or minute is out of range makes the next time loop for ever, as
      does one past the last month of all. */
  lemma TextIsUnchecked(p: Policy, zone: int, now: Clock, offset: int)
    requires ':' in p.timesOfDay && Validated(p, zone).Some?
    requires ValidClock(now)
    ensures
      var q := Validated(p, zone).value;
      var parts := Split(p.timesOfDay, ':');
      && (ParseToCron(q) != "" <==> TimeOfDay(p.timesOfDay).Some?)
      && (GetNextBackupTime(q, now, offset).NoTime? <==> Atoi(parts[0]).None? || Atoi(parts[1]).None?)
      && (GetNextBackupTime(q, now, offset).Panics? <==>
            p.frequency == "@hourly" && Atoi(parts[0]).Some? && Atoi(parts[1]) == Some(0))
      && (GetNextBackupTime(q, now, offset).Hangs? <==>
            p.frequency == "@monthly" && Atoi(parts[0]).Some? && Atoi(parts[1]).Some?
            && (!ValidFields(p.dateOfMonth, Atoi(parts[0]).value, Atoi(parts[1]).value)
                || OutOfYears(now, p.dateOfMonth, Atoi(parts[0]).value, Atoi(parts[1]).value)))
  {
    hide Split, Atoi, MonthlyAnswer, NextHourly, NextWeekly, NextDaily, SearchEnds, ParseToCron, TimeOfDay, ValidFields;
    var q := Validated(p, zone).value;
    var parts := Split(p.timesOfDay, ':');
    CronIffValid(q);
    if Atoi(parts[0]).Some? && Atoi(parts[1]).Some? {
      SearchEndsIff(now, q.dateOfMonth, Atoi(parts[0]).value, Atoi(parts[1]).value);
    }
  }

  /** Such a text: the check takes "99:99". */
  lemma UncheckedText(p: Policy)
    requires p.timesOfDay == "99:99" && p.frequency == "@monthly" && 1 <= p.dateOfMonth <= 31
    ensures Validated(p, 0).Some? && ParseToCron(Validated(p, 0).value) == ""
  {
    var parts := [TwoDigits(99), TwoDigits(99)];
    TwoDigitsValue(99);
    assert [parts[0]] + [parts[1]] == parts;
    JoinMore(parts[0], [parts[1]], ':');
    assert Join(parts, ':') == "99:99";
    SplitJoin(parts, ':');
  }
}
