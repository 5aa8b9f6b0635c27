/**
 * The pause between pipeline cycles: the shutdown flag, the wait loop that
 * polls an optional shutdown check once per second, and the countdown
 * display of the remaining time.
 */
module CycleWait {
  import opened Wrappers
  import opened PyText
  import opened Services

  /** The module-level `shutdown_requested` flag. */
  class ShutdownFlag {
    var requested: bool

    constructor ()
      ensures !requested
    {
      requested := false;
    }

    /** `get_shutdown_requested`. */
    method GetShutdownRequested() returns (b: bool)
      ensures b == requested
    {
      b := requested;
    }

    /** `reset_shutdown_requested`. */
    method ResetShutdownRequested()
      modifies this
      ensures !requested
    {
      requested := false;
    }

    /** What `signal_handler` does to the flag (the log lines and `sys.exit` are not modelled). */
    method RequestShutdown()
      modifies this
      ensures requested
    {
      requested := true;
    }
  }

  /** The countdown is shown every five minutes and every second of the last minute. */
  predicate ShowsCountdown(remaining: int) {
    remaining % 300 == 0 || remaining <= 60
  }

  datatype Hms = Hms(hours: nat, minutes: nat, seconds: nat)

  /** Whole minutes and leftover seconds are unique. */
  lemma MinuteSplitUnique(x: int, k: int, s: int)
    requires 0 <= s < 60 && x == k * 60 + s
    ensures x % 60 == s
  {
    var d, m := x / 60, x % 60;
    assert x == d * 60 + m && 0 <= m < 60;
    assert -60 < (d - k) * 60 < 60;
  }

  /** Seconds taken modulo a minute are the seconds left after the whole hours and minutes. */
  lemma SplitSeconds(r: nat, h: nat, q: nat, m: nat, s: nat)
    requires h == r / 3600 && q == r % 3600 && m == q / 60 && s == q % 60
    ensures h * 3600 + m * 60 + s == r && r % 60 == s
  {
    assert r == h * 3600 + q;
    assert q == m * 60 + s;
    MinuteSplitUnique(r, h * 60 + m, s);
  }

  /** `remaining // 3600`, `(remaining % 3600) // 60` and `remaining % 60`. */
  function Decompose(remaining: nat): (t: Hms)
    ensures t.hours * 3600 + t.minutes * 60 + t.seconds == remaining
    ensures t.minutes < 60 && t.seconds < 60
  {
    SplitSeconds(remaining, remaining / 3600, remaining % 3600, (remaining % 3600) / 60, (remaining % 3600) % 60);
    Hms(remaining / 3600, (remaining % 3600) / 60, remaining % 60)
  }

  /** The hours are shown from an hour on, the minutes from a minute on. */
  lemma DecomposeUnits(remaining: nat)
    ensures Decompose(remaining).hours > 0 <==> remaining >= 3600
    ensures Decompose(remaining).hours > 0 || Decompose(remaining).minutes > 0 <==> remaining >= 60
  {
    var t := Decompose(remaining);
    if remaining >= 60 && t.hours == 0 {
      assert t.minutes * 60 + t.seconds == remaining;
    }
  }

  /** The `time_str` shown for `remaining` seconds. */
  function TimeString(remaining: nat): (s: string)
    ensures |s| > 0 && s[|s| - 1] == 's'
  {
    var t := Decompose(remaining);
    if t.hours > 0 then NatToString(t.hours) + "h " + NatToString(t.minutes) + "m " + NatToString(t.seconds) + "s"
    else if t.minutes > 0 then NatToString(t.minutes) + "m " + NatToString(t.seconds) + "s"
    else NatToString(t.seconds) + "s"
  }

  /** In the last minute the display is the plain number of seconds with an `s`. */
  lemma LastMinuteReadsBack(remaining: nat)
    requires remaining < 60
    ensures var s := TimeString(remaining); ParseInt(s[..|s| - 1]) == Some(remaining)
  {
    var s := TimeString(remaining);
    DecomposeUnits(remaining);
    assert s[..|s| - 1] == NatToString(remaining);
    ParseIntOfNatToString(remaining);
  }

  /**
   * The remaining-second counts for which a countdown line
   * `TimeString(remaining)` is logged during the first `polls` turns of the
   * long wait, which starts at `interval` remaining seconds.
   */
  function Lines(interval: int, polls: nat): seq<nat>
    requires polls <= interval
  {
    if polls == 0 then [] else Lines(interval, polls - 1) + LineAt(interval - (polls - 1))
  }

  /** The count logged with `remaining` seconds to go: itself when the countdown is shown, else none. */
  function LineAt(remaining: int): seq<nat> {
    if remaining > 0 && ShowsCountdown(remaining) then [remaining] else []
  }

  /** One more turn of the wait adds the line for the seconds then remaining, if any. */
  lemma LinesStep(interval: int, polls: nat)
    requires polls < interval
    ensures Lines(interval, polls + 1) == Lines(interval, polls) + LineAt(interval - polls)
  {
  }

  /**
   * A count is logged exactly when the wait reached it and the countdown is
   * shown for it: every five minutes and every second of the last minute.
   */
  lemma {:induction false} LinesExactly(interval: int, polls: nat, remaining: int)
    requires polls <= interval
    ensures remaining in Lines(interval, polls) <==> interval - polls < remaining <= interval && ShowsCountdown(remaining)
  {
    if polls > 0 {
      LinesExactly(interval, polls - 1, remaining);
    }
  }

  /** A poll of the optional `shutdown_check`: its answer on the poll with that index. */
  predicate Asked(check: Option<nat -> bool>, poll: nat) {
    check.Some? && check.value(poll)
  }

  /** How many one-second sleeps the wait has room for: `interval_seconds`, or none when it is negative. */
  function Polls(interval: int): nat {
    if interval < 0 then 0 else interval
  }

  /** The branch of `wait_for_next_cycle` for intervals under a minute: no countdown is shown. */
  method ShortWait(interval: int, check: Option<nat -> bool>, clock: Clock) returns (slept: nat)
    modifies clock
    ensures clock.now == old(clock.now) + slept
    ensures slept <= Polls(interval)
    ensures forall j :: 0 <= j < slept ==> !Asked(check, j)
    ensures slept < Polls(interval) ==> Asked(check, slept)
  {
    slept := 0;
    while slept < Polls(interval)
      invariant slept <= Polls(interval)
      invariant clock.now == old(clock.now) + slept
      invariant forall j :: 0 <= j < slept ==> !Asked(check, j)
    {
      if Asked(check, slept) {
        return;
      }
      clock.Sleep(1);
      slept := slept + 1;
    }
  }

  /** The branch of `wait_for_next_cycle` for an interval of a minute or more, with the countdown. */
  method CountdownWait(interval: int, check: Option<nat -> bool>, clock: Clock) returns (slept: nat, shown: seq<nat>)
    requires interval >= 60
    modifies clock
    ensures clock.now == old(clock.now) + slept
    ensures slept <= interval
    ensures forall j :: 0 <= j < slept ==> !Asked(check, j)
    ensures slept < interval ==> Asked(check, slept)
    ensures shown == Lines(interval, slept)
  {
    slept, shown := 0, [];
    var remaining := interval;
    while remaining > 0
      invariant 0 <= remaining <= interval && slept == interval - remaining
      invariant clock.now == old(clock.now) + slept
      invariant forall j :: 0 <= j < slept ==> !Asked(check, j)
      invariant shown == Lines(interval, slept)
    {
      if Asked(check, slept) {
        return;
      }
      LinesStep(interval, slept);
      if ShowsCountdown(remaining) {
        shown := shown + [remaining];
      }
      clock.Sleep(1);
      remaining := remaining - 1;
      slept := slept + 1;
    }
  }

  /**
   * `wait_for_next_cycle`: one sleep per poll until the check answers true
   * or the interval is used up; `slept` is the number of sleeps and `shown`
   * the remaining-second counts whose `TimeString` was logged.
   */
  method WaitForNextCycle(interval: int, check: Option<nat -> bool>, clock: Clock) returns (slept: nat, shown: seq<nat>)
    modifies clock
    ensures clock.now == old(clock.now) + slept
    ensures slept <= Polls(interval)
    ensures forall j :: 0 <= j < slept ==> !Asked(check, j)
    ensures slept < Polls(interval) ==> Asked(check, slept)
    ensures shown == if interval < 60 then [] else Lines(interval, slept)
  {
    if interval < 60 {
      slept := ShortWait(interval, check, clock);
      shown := [];
    } else {
      slept, shown := CountdownWait(interval, check, clock);
    }
  }
}
