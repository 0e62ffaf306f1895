/**
 * The state every timer variant shares (core/timer/timerbase.py) and the
 * "MM:SS" text the timers show: minutes and seconds from `divmod(secs, 60)`,
 * each zero-padded to two digits.
 */
module TimerBase {
  import opened Wrappers
  import opened Text

  /** `f"{m:02d}:{s:02d}"` where `m, s = divmod(secs, 60)`. */
  function Clock(secs: nat): string
  {
    Pad2(secs / 60) + ":" + Pad2(secs % 60)
  }

  /** Text of the form minutes-digits ':' two-seconds-digits, with the seconds below 60. */
  predicate ClockShaped(text: string)
  {
    var parts := Split(text, ':');
    && |parts| == 2
    && AllDigits(parts[0]) && 2 <= |parts[0]|
    && AllDigits(parts[1]) && |parts[1]| == 2
    && ParseDigits(parts[1]) < 60
  }

  /** Reads clock text back as a number of seconds: minutes * 60 + seconds. */
  function ParseClock(text: string): Option<nat>
  {
    var parts := Split(text, ':');
    if |parts| == 2 && AllDigits(parts[0]) && AllDigits(parts[1]) then
      Some(ParseDigits(parts[0]) * 60 + ParseDigits(parts[1]))
    else None
  }

  lemma DigitsHaveNoColon(s: string)
    requires AllDigits(s)
    ensures ':' !in s
  {
  }

  /** The clock text is well shaped and reads back as the number of seconds it shows. */
  lemma {:induction false} ClockRoundTrip(secs: nat)
    ensures ClockShaped(Clock(secs))
    ensures ParseClock(Clock(secs)) == Some(secs)
  {
    var m, s := Pad2(secs / 60), Pad2(secs % 60);
    DigitsHaveNoColon(m);
    DigitsHaveNoColon(s);
    assert Clock(secs) == Join([m, s], ':');
    SplitJoin([m, s], ':');
  }

  /** Below 100 minutes the clock text is exactly five characters. */
  lemma ClockLength(secs: nat)
    requires secs < 6000
    ensures |Clock(secs)| == 5
  {
  }

  /** `get_formatted_time`: "00:00" once nothing remains, including overrun; "MM:SS" otherwise. */
  function FormattedTime(remaining: int): (r: string)
    ensures remaining <= 0 ==> r == "00:00"
    ensures remaining > 0 ==> ClockShaped(r) && ParseClock(r) == Some(remaining)
    ensures 0 < remaining < 6000 ==> |r| == 5
  {
    if remaining <= 0 then "00:00"
    else
      ClockRoundTrip(remaining);
      Clock(remaining)
  }

  /** What the rest of the program reads of the current timer: `total_seconds`,
      `remaining`, `is_running`, `get_status_text()`, and `time_or_income` when the
      timer has that attribute (only the cow timer does). */
  datatype TimerView = TimerView(total: int, remaining: int, running: bool, status: string, timeOrIncome: Option<bool>)
}
