/** The progress callback of a backup: which percentages it writes, and how often. */
module Progress {
  import opened Options
  import opened Snapshots

  /** progressInterval, in the nanoseconds of the clock. */
  const INTERVAL := 5_000_000_000

  /** Go converts a float to an int by dropping the fraction. */
  function Truncate(x: real): int {
    if x >= 0.0 then x.Floor else -(-x).Floor
  }

  /** In hundredths of a percent. */
  function Percent(done: real): int {
    Truncate(done * 10000.0)
  }

  /** One call: the fraction done, the clock when the interval is checked, and the clock when
      it is restarted, a moment later. */
  datatype Call = Call(done: real, checked: int, restarted: int)

  datatype Throttle = Throttle(lastPercent: int, lastTime: int)

  predicate Due(t: Throttle, c: Call) {
    Percent(c.done) != PROGRESS_DONE && c.checked - t.lastTime >= INTERVAL && t.lastPercent != Percent(c.done)
  }

  function After(t: Throttle, c: Call): Throttle {
    if Due(t, c) then Throttle(Percent(c.done), c.restarted) else t
  }

  /** The value written, if any: one short of done is written at once, whatever the interval. */
  function Written(t: Throttle, c: Call): Option<int> {
    if Percent(c.done) == PROGRESS_DONE then Some(PROGRESS_DONE - 1)
    else if Due(t, c) then Some(Percent(c.done))
    else None
  }

  /** The two fields of the backup that the callback keeps. */
  class ProgressReporter {
    var lastProgressPercent: int
    var lastProgressTime: int

    ghost function State(): Throttle
      reads this
    {
      Throttle(lastProgressPercent, lastProgressTime)
    }

    constructor (now: int)
      ensures State() == Throttle(0, now)
    {
      lastProgressPercent, lastProgressTime := 0, now;
    }

    /** `canceled`: the context of the backup is done. */
    method ProgressCallback(canceled: bool, c: Call) returns (write: Option<int>)
      modifies this
      ensures State() == if canceled then old(State()) else After(old(State()), c)
      ensures write == if canceled then None else Written(old(State()), c)
    {
      if canceled { return None; }
      var percent := Truncate(c.done * 10000.0);
      if percent == PROGRESS_DONE {
        percent := PROGRESS_DONE - 1;
        return Some(percent);
      }
      if c.checked - lastProgressTime >= INTERVAL && lastProgressPercent != percent {
        lastProgressPercent := percent;
        lastProgressTime := c.restarted;
        return Some(percent);
      }
      return None;
    }
  }

  /** No call ever writes the value that only a completed backup carries. */
  lemma NeverDone(t: Throttle, c: Call)
    ensures Written(t, c) != Some(PROGRESS_DONE)
  {
  }

  /** What is written is a progress that the engine may store, exactly when the fraction is
      within a hundredth of a percent of [0, 1]. */
  lemma WrittenInRange(t: Throttle, c: Call)
    requires Written(t, c).Some?
    ensures 0 <= Written(t, c).value < PROGRESS_DONE <==> -0.0001 < c.done < 1.0001
  {
    var x := c.done * 10000.0;
    TruncateBounds(x);
  }

  /** And it is the fraction in hundredths of a percent, rounded down, or the last value short of
      done. */
  lemma WrittenIsTheFraction(t: Throttle, c: Call)
    requires Written(t, c).Some? && 0.0 <= c.done <= 1.0
    ensures
      var percent := Written(t, c).value;
      if c.done == 1.0 then percent == 9999 else percent as real <= c.done * 10000.0 < (percent + 1) as real
  {
  }

  lemma TruncateBounds(x: real)
    ensures 0 <= Truncate(x) <= 10000 <==> -1.0 < x < 10001.0
  {
  }

  // ---- throttling over a whole run ----

  function RunCalls(t: Throttle, calls: seq<Call>): Throttle
    decreases |calls|
  {
    if calls == [] then t else RunCalls(After(t, calls[0]), calls[1..])
  }

  /** The values written under the throttle. */
  function Throttled(t: Throttle, calls: seq<Call>): seq<int>
    decreases |calls|
  {
    if calls == [] then []
    else (if Due(t, calls[0]) then [Percent(calls[0].done)] else []) + Throttled(After(t, calls[0]), calls[1..])
  }

  /** The clock only moves forward. */
  predicate Forward(calls: seq<Call>, from: int) {
    calls == [] || (from <= calls[0].checked <= calls[0].restarted && Forward(calls[1..], calls[0].restarted))
  }

  /** Every throttled write uses up a whole interval: n of them take at least n intervals since
      the callback was set up, for any sequence of calls. */
  lemma {:induction false} ThrottleHolds(t: Throttle, calls: seq<Call>, from: int)
    requires Forward(calls, from) && t.lastTime <= from
    ensures |Throttled(t, calls)| * INTERVAL <= RunCalls(t, calls).lastTime - t.lastTime
    ensures RunCalls(t, calls).lastTime <= LastClock(calls, from)
    decreases |calls|
  {
    if calls != [] {
      ThrottleHolds(After(t, calls[0]), calls[1..], calls[0].restarted);
    }
  }

  function LastClock(calls: seq<Call>, from: int): int {
    if calls == [] then from else calls[|calls| - 1].restarted
  }

  /** Two throttled writes in a row never carry the same value. */
  lemma {:induction false} ThrottledChanges(t: Throttle, calls: seq<Call>)
    ensures
      var w := Throttled(t, calls);
      (w != [] ==> w[0] != t.lastPercent) && forall i :: 0 < i < |w| ==> w[i] != w[i - 1]
    decreases |calls|
  {
    if calls != [] {
      ThrottledChanges(After(t, calls[0]), calls[1..]);
    }
  }
}
