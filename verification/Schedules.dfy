/** Backup policies and the cron expression that ParseToCron makes of one. */
module Schedules {
  import opened Options
  import opened Text

  /** `rest` stands for the remaining policy fields: policies are compared as a whole. */
  datatype Policy = Policy(
    enabled: bool,
    frequency: string,
    timesOfDay: string,
    timespanOfDay: string,
    dayOfWeek: int,
    dateOfMonth: int,
    rest: int)

  /** "hour:minute" in the ranges that ParseToCron accepts; hour 24 is among them. */
  function TimeOfDay(timesOfDay: string): Option<(int, int)> {
    var parts := Split(timesOfDay, ':');
    if |parts| != 2 then None
    else
      match (Atoi(parts[0]), Atoi(parts[1]))
      case (Some(hour), Some(minute)) =>
        if 0 <= hour <= 24 && 0 <= minute <= 59 then Some((hour, minute)) else None
      case _ => None
  }

  /** ParseToCron; the empty text on every error, as the caller drops the error value. The
      daily forms repeat the two texts as they were given, the hourly form prints the number. */
  function ParseToCron(p: Policy): string {
    if TimeOfDay(p.timesOfDay).None? then ""
    else
      var parts := Split(p.timesOfDay, ':');
      var minuteHour := parts[1] + " " + parts[0];
      if p.frequency == "@hourly" then "*/" + Itoa(TimeOfDay(p.timesOfDay).value.1) + " * * * *"
      else if p.frequency == "@daily" then minuteHour + " * * *"
      else if p.frequency == "@weekly" then minuteHour + " * * " + Itoa(p.dayOfWeek - 1)
      else if p.frequency == "@monthly" then minuteHour + " " + Itoa(p.dateOfMonth) + " * *"
      else if p.frequency == "@yearly" then minuteHour + " 1 1 *"
      else ""
  }

  predicate KnownFrequency(f: string) {
    f in ["@hourly", "@daily", "@weekly", "@monthly", "@yearly"]
  }

  /** A text of two halves around one colon is a time exactly when they read as an hour up to 24
      and a minute up to 59. */
  lemma TimeReads(a: string, b: string)
    requires ':' !in a && ':' !in b
    ensures TimeOfDay(a + ":" + b).Some? <==>
      Atoi(a).Some? && Atoi(b).Some? && 0 <= Atoi(a).value <= 24 && 0 <= Atoi(b).value < 60
    ensures TimeOfDay(a + ":" + b).Some? ==> TimeOfDay(a + ":" + b).value == (Atoi(a).value, Atoi(b).value)
  {
    hide Split, Atoi;
    var parts := [a, b];
    assert [a] + [b] == parts;
    JoinMore(a, [b], ':');
    SplitJoin(parts, ':');
  }

  lemma CronIffValid(p: Policy)
    ensures ParseToCron(p) != "" <==> TimeOfDay(p.timesOfDay).Some? && KnownFrequency(p.frequency)
  {
  }

  lemma {:induction false} NoSpaceInDigits(n: nat)
    ensures ' ' !in NatText(n)
  {
    if n >= 10 { NoSpaceInDigits(n / 10); }
  }

  /** Text that Atoi reads holds no space. */
  lemma AtoiNoSpace(s: string)
    requires Atoi(s).Some?
    ensures ' ' !in s
  {
    var body := if HasPrefix(s, "-") || HasPrefix(s, "+") then s[1..] else s;
    assert Digits(body);
    if body != s {
      assert s[..1] == [s[0]];
      assert s == [s[0]] + body;
    }
  }

  lemma ItoaNoSpace(n: int)
    ensures ' ' !in Itoa(n)
  {
    NoSpaceInDigits(if n < 0 then -n else n);
  }

  /** The five fields that each frequency asks for: minute, hour, day, month, weekday. */
  function Fields(p: Policy): seq<string>
    requires TimeOfDay(p.timesOfDay).Some? && KnownFrequency(p.frequency)
  {
    var parts := Split(p.timesOfDay, ':');
    if p.frequency == "@hourly" then ["*/" + Itoa(TimeOfDay(p.timesOfDay).value.1), "*", "*", "*", "*"]
    else [parts[1], parts[0],
          if p.frequency == "@monthly" then Itoa(p.dateOfMonth) else if p.frequency == "@yearly" then "1" else "*",
          if p.frequency == "@yearly" then "1" else "*",
          if p.frequency == "@weekly" then Itoa(p.dayOfWeek - 1) else "*"]
  }

  lemma JoinFive(a: string, b: string, c: string, d: string, e: string)
    ensures Join([a, b, c, d, e], ' ') == a + " " + b + " " + c + " " + d + " " + e
  {
    JoinMore(d, [e], ' ');
    assert [d] + [e] == [d, e] && [c] + [d, e] == [c, d, e];
    assert [b] + [c, d, e] == [b, c, d, e] && [a] + [b, c, d, e] == [a, b, c, d, e];
    JoinMore(c, [d, e], ' ');
    JoinMore(b, [c, d, e], ' ');
    JoinMore(a, [b, c, d, e], ' ');
    var de := d + " " + e;
    assert c + " " + de == c + " " + d + " " + e;
    var cde := c + " " + d + " " + e;
    assert b + " " + cde == b + " " + c + " " + d + " " + e;
    var bcde := b + " " + c + " " + d + " " + e;
    assert a + " " + bcde == a + " " + b + " " + c + " " + d + " " + e;
  }

  lemma CronJoins(p: Policy)
    requires TimeOfDay(p.timesOfDay).Some? && KnownFrequency(p.frequency)
    ensures ParseToCron(p) == Join(Fields(p), ' ')
  {
    hide Atoi, Split, Join, Itoa;
    var f := Fields(p);
    JoinFive(f[0], f[1], f[2], f[3], f[4]);
  }

  lemma FieldsNoSpace(p: Policy)
    requires TimeOfDay(p.timesOfDay).Some? && KnownFrequency(p.frequency)
    ensures forall f :: f in Fields(p) ==> ' ' !in f
  {
    hide Atoi, Split, Itoa;
    var parts := Split(p.timesOfDay, ':');
    AtoiNoSpace(parts[0]);
    AtoiNoSpace(parts[1]);
    ItoaNoSpace(TimeOfDay(p.timesOfDay).value.1);
    ItoaNoSpace(p.dateOfMonth);
    ItoaNoSpace(p.dayOfWeek - 1);
  }

  /** A cron expression always splits into five fields, and reading the numbers back gives the
      policy's minute, hour, date and weekday (counted from 0). */
  lemma CronFields(p: Policy)
    requires TimeOfDay(p.timesOfDay).Some? && KnownFrequency(p.frequency)
    requires -MAX_INT <= p.dayOfWeek <= MAX_INT && -MAX_INT <= p.dateOfMonth <= MAX_INT
    ensures
      var f := Split(ParseToCron(p), ' ');
      && |f| == 5
      && (p.frequency != "@hourly" ==>
            Atoi(f[0]) == Some(TimeOfDay(p.timesOfDay).value.1) && Atoi(f[1]) == Some(TimeOfDay(p.timesOfDay).value.0))
      && (p.frequency == "@hourly" ==>
            HasPrefix(f[0], "*/") && Atoi(f[0][2..]) == Some(TimeOfDay(p.timesOfDay).value.1) && f[1..] == ["*", "*", "*", "*"])
      && (p.frequency == "@daily" ==> f[2..] == ["*", "*", "*"])
      && (p.frequency == "@weekly" ==> f[2..4] == ["*", "*"] && Atoi(f[4]) == Some(p.dayOfWeek - 1))
      && (p.frequency == "@yearly" ==> f[2..] == ["1", "1", "*"])
      && (p.frequency == "@monthly" ==> Atoi(f[2]) == Some(p.dateOfMonth) && f[3..] == ["*", "*"])
  {
    hide Atoi, Split, Itoa, Join, ParseToCron;
    CronJoins(p);
    FieldsNoSpace(p);
    SplitJoin(Fields(p), ' ');
    var minute := TimeOfDay(p.timesOfDay).value.1;
    AtoiItoa(minute);
    AtoiItoa(p.dateOfMonth);
    AtoiItoa(p.dayOfWeek - 1);
    assert ("*/" + Itoa(minute))[2..] == Itoa(minute);
  }
}
