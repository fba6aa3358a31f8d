/** The monthly next-backup time: a search over months in the Gregorian calendar. */
module MonthlyTimes {
  import opened Arithmetic
  import opened Calendar
  import opened Options

  // ---- the Gregorian calendar ----

  predicate Leap(y: int) {
    y % 4 == 0 && (y % 100 != 0 || y % 400 == 0)
  }

  function DaysIn(y: int, m: int): int {
    if m == 2 then (if Leap(y) then 29 else 28)
    else if m == 4 || m == 6 || m == 9 || m == 11 then 30
    else 31
  }

  /** Months are counted from January of year 0, to have one number for a year and a month. */
  function Year(k: int): int { k / 12 }

  function Month(k: int): int { k % 12 + 1 }

  function Length(k: int): int { DaysIn(Year(k), Month(k)) }

  /** Days from 1970-01-01 to the first of January. */
  function YearStart(y: int): int {
    365 * y + (y + 3) / 4 - (y + 99) / 100 + (y + 399) / 400 - 719_528
  }

  function DaysBeforeMonth(y: int, m: int): int
    requires 1 <= m <= 12
  {
    [0, 31, 59, 90, 120, 151, 181, 212, 243, 273, 304, 334][m - 1] + if m > 2 && Leap(y) then 1 else 0
  }

  /** Days from 1970-01-01 to the first day of month k. */
  function MonthStart(k: int): int {
    YearStart(Year(k)) + DaysBeforeMonth(Year(k), Month(k))
  }

  lemma YearLength(y: int)
    ensures YearStart(y + 1) - YearStart(y) == if Leap(y) then 366 else 365
  {
    DivStep(y, 4);
    DivStep(y, 100);
    DivStep(y, 400);
    CenturyParts(y);
  }

  lemma DivStep(y: int, p: int)
    requires p > 0
    ensures (y + p) / p - (y + p - 1) / p == if y % p == 0 then 1 else 0
  {
    var q, r := y / p, y % p;
    assert (q + 1) * p == q * p + p;
    ModIs(y + p, q + 1, r, p);
    if r == 0 { ModIs(y + p - 1, q, p - 1, p); } else { ModIs(y + p - 1, q + 1, r - 1, p); }
  }

  lemma CenturyParts(y: int)
    ensures y % 100 == 0 ==> y % 4 == 0
    ensures y % 400 == 0 ==> y % 100 == 0
  {
  }

  lemma MonthLength(k: int)
    ensures MonthStart(k + 1) == MonthStart(k) + Length(k)
  {
    hide YearStart;
    YearLength(Year(k));
    if k % 12 == 11 {
      assert Year(k + 1) == Year(k) + 1 && Month(k + 1) == 1;
    } else {
      assert Year(k + 1) == Year(k) && Month(k + 1) == Month(k) + 1;
    }
  }

  lemma {:induction false} MonthsInOrder(k: int, l: int)
    requires k < l
    ensures MonthStart(k) + Length(k) <= MonthStart(l)
    decreases l - k
  {
    hide MonthStart, Length;
    MonthLength(k);
    if k + 1 < l {
      MonthsInOrder(k + 1, l);
      assert Length(k + 1) >= 28 by { AtLeast28(k + 1); }
    }
  }

  lemma AtLeast28(k: int)
    ensures 28 <= Length(k) <= 31
  {
  }

  /** The day count starts at the epoch. */
  lemma EpochMonth()
    ensures MonthStart(1970 * 12) == 0
  {
    assert YearStart(1970) == 0;
    hide YearStart;
    assert Year(1970 * 12) == 1970 && Month(1970 * 12) == 1;
  }

  /** The wall clock: month number, day of the month, and nanoseconds since midnight. */
  datatype Clock = Clock(month: int, day: int, time: int)

  predicate ValidClock(c: Clock) {
    1000 <= Year(c.month) <= 9999 && 1 <= c.day <= Length(c.month) && 0 <= c.time < DAY
  }

  function Instant(c: Clock): int {
    (MonthStart(c.month) + c.day - 1) * DAY + c.time
  }

  // ---- the candidates ----

  /** What time.ParseInLocation accepts of the text printed from these numbers: a year of four
      digits, a day of that month, an hour and a minute in range. */
  predicate Parses(k: int, day: int, hours: int, minutes: int) {
    1000 <= Year(k) <= 9999 && 1 <= day <= Length(k) && 0 <= hours <= 23 && 0 <= minutes <= 59
  }

  function At(k: int, day: int, hours: int, minutes: int): int {
    (MonthStart(k) + day - 1) * DAY + hours * HOUR + minutes * MINUTE
  }

  /** The instants meant, before the shift: that hour and minute of that day, in every month
      that has the day. */
  ghost predicate MonthlySlot(day: int, hours: int, minutes: int, t: int) {
    exists k :: Length(k) >= day && t == At(k, day, hours, minutes)
  }

  /** The first test of the code. A text that does not parse gives the zero time, which is
      before everything. */
  predicate Stays(now: Clock, day: int, hours: int, minutes: int) {
    Parses(now.month, day, hours, minutes) && At(now.month, day, hours, minutes) >= Instant(now)
  }

  predicate ValidFields(day: int, hours: int, minutes: int) {
    1 <= day <= 31 && 0 <= hours <= 23 && 0 <= minutes <= 59
  }

  /** The search ends at some later month. */
  ghost predicate SearchEnds(now: Clock, day: int, hours: int, minutes: int) {
    Stays(now, day, hours, minutes) || exists k :: k > now.month && Parses(k, day, hours, minutes)
  }

  /** December 9999, the last month that a text of this form can name. */
  const LAST_MONTH := 9999 * 12 + 11

  /** The loop ends exactly for fields in range, except after the last candidate of all. */
  lemma SearchEndsIff(now: Clock, day: int, hours: int, minutes: int)
    requires ValidClock(now)
    ensures SearchEnds(now, day, hours, minutes) <==>
      ValidFields(day, hours, minutes)
      && (now.month == LAST_MONTH ==> At(now.month, day, hours, minutes) >= Instant(now))
  {
    hide At, Instant, Leap;
    if ValidFields(day, hours, minutes) {
      assert Parses(LAST_MONTH, day, hours, minutes);
    }
  }

  lemma LongMonthNear(k: int)
    ensures Length(k) == 31 || Length(k + 1) == 31
    ensures Length(k) >= 30 || Length(k + 1) == 31
  {
  }

  function FirstMonth(now: Clock, day: int, hours: int, minutes: int): int {
    if Stays(now, day, hours, minutes) then now.month
    else if Length(now.month + 1) >= day then now.month + 1
    else now.month + 2
  }

  lemma LaterMonthLater(k: int, l: int, day: int, hours: int, minutes: int)
    requires k < l && day <= Length(k)
    ensures At(k, day, hours, minutes) < At(l, day, hours, minutes)
  {
    hide MonthStart, Length;
    MonthsInOrder(k, l);
    AtLeast28(k);
  }

  /** Any slot at or after now lies in the current month or later. */
  lemma SlotNotEarlier(now: Clock, k: int, day: int, hours: int, minutes: int)
    requires ValidClock(now) && ValidFields(day, hours, minutes)
    requires day <= Length(k) && At(k, day, hours, minutes) >= Instant(now)
    ensures k >= now.month
  {
    hide MonthStart, Length;
    if k < now.month { MonthsInOrder(k, now.month); }
  }

  lemma MonthlyIsFirst(now: Clock, day: int, hours: int, minutes: int)
    requires ValidClock(now) && ValidFields(day, hours, minutes)
    ensures First(Instant(now), At(FirstMonth(now, day, hours, minutes), day, hours, minutes),
      t => MonthlySlot(day, hours, minutes, t))
  {
    hide MonthStart, Length, At, Instant;
    var k := FirstMonth(now, day, hours, minutes);
    var r := At(k, day, hours, minutes);
    var n := Instant(now);
    LongMonthNear(now.month);
    LongMonthNear(now.month + 1);
    AtLeast28(now.month);
    assert day <= Length(k);
    assert n <= r by {
      if k > now.month { MonthEndsAfter(now, k, day, hours, minutes); }
    }
    forall t | n <= t < r ensures !MonthlySlot(day, hours, minutes, t) {
      if MonthlySlot(day, hours, minutes, t) {
        var l :| Length(l) >= day && t == At(l, day, hours, minutes);
        SlotNotEarlier(now, l, day, hours, minutes);
        if k < l { LaterMonthLater(k, l, day, hours, minutes); }
        NoEarlierMonth(now, l, day, hours, minutes);
      }
    }
  }

  lemma MonthEndsAfter(now: Clock, k: int, day: int, hours: int, minutes: int)
    requires ValidClock(now) && ValidFields(day, hours, minutes) && k > now.month
    ensures Instant(now) < At(k, day, hours, minutes)
  {
    hide MonthStart, Length;
    MonthsInOrder(now.month, k);
  }

  lemma NoEarlierMonth(now: Clock, l: int, day: int, hours: int, minutes: int)
    requires ValidClock(now) && ValidFields(day, hours, minutes)
    requires now.month <= l < FirstMonth(now, day, hours, minutes) && Length(l) >= day
    ensures At(l, day, hours, minutes) < Instant(now)
  {
    hide MonthStart, Length, At, Instant;
  }

  /** Only the month after now, or the one after that, can be the first that parses. */
  lemma FirstParsed(now: Clock, k: int, day: int, hours: int, minutes: int)
    requires ValidClock(now) && !Stays(now, day, hours, minutes)
    requires now.month < k && Parses(k, day, hours, minutes)
    requires forall l :: now.month < l < k ==> !Parses(l, day, hours, minutes)
    ensures k == FirstMonth(now, day, hours, minutes) && k <= now.month + 2
  {
    hide Length, Stays;
    LongMonthNear(now.month + 1);
    AtLeast28(k);
    assert now.month + 1 < k ==> !Parses(now.month + 1, day, hours, minutes) && Length(now.month + 1) < day;
    assert now.month + 2 < k ==> !Parses(now.month + 2, day, hours, minutes) && Length(now.month + 2) < day;
  }

  /** The method of the source, watched for so many turns of its loop; None means that it is
      still searching. When the search ends at all it ends within two turns, and when it does
      not, no number of turns gives an answer. */
  method NextMonthly(now: Clock, hours: int, minutes: int, day: int, turns: nat) returns (r: Option<int>)
    requires ValidClock(now)
    ensures r.Some? ==>
      r.value == At(FirstMonth(now, day, hours, minutes), day, hours, minutes) - if hours >= 16 then DAY else 0
    ensures turns >= 2 ==> (r.Some? <==> SearchEnds(now, day, hours, minutes))
    ensures !SearchEnds(now, day, hours, minutes) ==> r == None
  {
    hide MonthStart, At, Instant;
    var k := now.month;
    var parsed := Parses(k, day, hours, minutes);
    if !parsed || At(k, day, hours, minutes) < Instant(now) {
      var year, month := Year(k), Month(k);
      var turn := 0;
      parsed := false;
      while !parsed && turn < turns
        invariant 0 <= turn <= turns && k == now.month + turn && k == 12 * year + month - 1 && 1 <= month <= 12
        invariant parsed ==> turn > 0 && Parses(k, day, hours, minutes)
        invariant forall l :: now.month < l < (if parsed then k else k + 1) ==> !Parses(l, day, hours, minutes)
        decreases turns - turn, !parsed
      {
        month := month + 1;
        if month > 12 {
          month := 1;
          year := year + 1;
        }
        k := 12 * year + month - 1;
        turn := turn + 1;
        parsed := Parses(k, day, hours, minutes);
      }
      if !parsed {
        NoneParses(now, k, day, hours, minutes);
        return None;
      }
      FirstParsed(now, k, day, hours, minutes);
    }
    var answer := At(k, day, hours, minutes);
    return Some(if hours >= 16 then answer - DAY else answer);
  }

  /** Two turns in vain: no later month parses either. */
  lemma NoneParses(now: Clock, k: int, day: int, hours: int, minutes: int)
    requires ValidClock(now) && !Stays(now, day, hours, minutes)
    requires forall l :: now.month < l <= k ==> !Parses(l, day, hours, minutes)
    ensures k >= now.month + 2 ==> !SearchEnds(now, day, hours, minutes)
  {
    hide Length, Stays;
    LongMonthNear(now.month + 1);
    if k >= now.month + 2 {
      assert !Parses(now.month + 1, day, hours, minutes) && !Parses(now.month + 2, day, hours, minutes);
      forall l | l > now.month ensures !Parses(l, day, hours, minutes) { AtLeast28(l); }
    }
  }
}
