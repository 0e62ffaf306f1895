/**
 * The workday countdown (core/timer/cow_timer.py, class CowTimer). It counts
 * down, from the wall clock, to lunch (whose time depends on the parity of the
 * ISO week) and after lunch to the end of the working day; after that it shows
 * "下班" (off work). Its earnings sub-mode shows how long has been worked today.
 *
 * The clock is an input: `nowUs` is the time of day in microseconds since
 * midnight, the resolution of Python's `datetime`, and the ISO week number is
 * a parameter of `start_countdown`. Every one-second timeout runs the handlers
 * connected to the timer's tick source, in the order they were connected; the
 * mouse handler connects one more on every switch of sub-mode and never
 * disconnects any, so the list `handlers` only grows.
 */
module CowTimers {
  import opened Wrappers
  import opened Text
  import opened Env
  import opened TimerBase
  import opened MainWindow

  const Micro := 1_000_000

  /** Microseconds since midnight at a configured time of day. */
  function Us(t: TimeOfDay): int
  {
    SecondsOfDay(t) * Micro
  }

  /** The lunch time of the week: the odd-week setting in odd ISO weeks, else the even one. */
  function LunchFor(week: int, cfg: AppConfig): (t: TimeOfDay)
    ensures week % 2 == 1 ==> t == cfg.oddWeekLunch
    ensures week % 2 == 0 ==> t == cfg.evenWeekLunch
  {
    if week % 2 == 1 then cfg.oddWeekLunch else cfg.evenWeekLunch
  }

  const LunchTip := "干饭第一！"
  const OvertimeTip := "再加会吧，公司招你亏麻了！"
  const OffTip := "已下班"

  /** Python's `int(x)` for a non-negative count of microseconds as seconds. */
  function WholeSeconds(us: int): int
  {
    if us >= 0 then us / Micro else -((-us) / Micro)
  }

  /** `get_cow_countdown`: the whole seconds (truncated) to lunch while it is ahead, else
      to the end of the day while that is ahead, else -1; with the message for that case. */
  function CowCountdown(nowUs: int, lunch: TimeOfDay, off: TimeOfDay): (r: (int, string))
    ensures r.0 >= -1
    ensures r.0 == -1 <==> nowUs >= Us(lunch) && nowUs >= Us(off)
    ensures nowUs < Us(lunch) ==>
              r.1 == LunchTip && r.0 * Micro <= Us(lunch) - nowUs < (r.0 + 1) * Micro
    ensures Us(lunch) <= nowUs < Us(off) ==>
              r.1 == OvertimeTip && r.0 * Micro <= Us(off) - nowUs < (r.0 + 1) * Micro
    ensures nowUs >= Us(lunch) && nowUs >= Us(off) ==> r.1 == OffTip
  {
    if nowUs < Us(lunch) then (Max(0, WholeSeconds(Us(lunch) - nowUs)), LunchTip)
    else if nowUs < Us(off) then (Max(0, WholeSeconds(Us(off) - nowUs)), OvertimeTip)
    else (-1, OffTip)
  }

  /** The comparison with lunch is strict: exactly at lunch the countdown is already the
      one to the end of the day, not zero. */
  lemma AtLunch(lunch: TimeOfDay, off: TimeOfDay)
    requires SecondsOfDay(lunch) < SecondsOfDay(off)
    ensures CowCountdown(Us(lunch), lunch, off) == (SecondsOfDay(off) - SecondsOfDay(lunch), OvertimeTip)
  {
  }

  /** The value is 0 only during the last second before lunch or before the end of day. */
  lemma ZeroOnlyInLastSecond(nowUs: int, lunch: TimeOfDay, off: TimeOfDay)
    requires CowCountdown(nowUs, lunch, off).0 == 0
    ensures (Us(lunch) - Micro < nowUs < Us(lunch))
            || (Us(lunch) <= nowUs && Us(off) - Micro < nowUs < Us(off))
  {
  }

  /** The text the time label gets from `update_countdown`: "00:00" at zero, "MM:SS" above,
      "下班" (off work) below. */
  function CountdownLabel(value: int): (text: string)
    ensures value == 0 ==> text == "00:00"
    ensures value > 0 ==> ClockShaped(text) && ParseClock(text) == Some(value)
    ensures value < 0 ==> text == "下班"
  {
    if value == 0 then "00:00"
    else if value > 0 then ClockRoundTrip(value); Clock(value)
    else "下班"
  }

  /** Above zero the label is the timer's own formatted time and the window's text. */
  lemma CountdownLabelAgrees(value: int)
    requires value > 0
    ensures CountdownLabel(value) == FormattedTime(value) == DisplayText(value)
  {
  }

  /** The seconds worked today, as the earnings sub-mode counts them: the whole seconds since
      the start of the day while inside working hours, and the whole working day otherwise
      (before the start as well as after the end). */
  function WorkedSeconds(nowUs: int, on: TimeOfDay, off: TimeOfDay): (w: int)
    ensures Us(on) <= nowUs <= Us(off) ==>
              0 <= w <= SecondsOfDay(off) - SecondsOfDay(on) && w * Micro <= nowUs - Us(on) < (w + 1) * Micro
    ensures !(Us(on) <= nowUs <= Us(off)) ==> w == SecondsOfDay(off) - SecondsOfDay(on)
  {
    if Us(on) <= nowUs <= Us(off) then WholeSeconds(nowUs - Us(on))
    else WholeSeconds(Us(off) - Us(on))
  }

  // ---------------------------------------------------------------------------
  // Subscript digits
  // ---------------------------------------------------------------------------

  predicate IsSubscriptDigit(c: char) { '\U{2080}' <= c <= '\U{2089}' }

  /** One character of `to_subscript`: a decimal digit becomes its subscript form. */
  function SubscriptChar(c: char): (d: char)
    ensures IsDigit(c) ==> IsSubscriptDigit(d) && d as int - 0x2080 == c as int - '0' as int
    ensures !IsDigit(c) ==> d == c
  {
    if IsDigit(c) then (c as int - '0' as int + 0x2080) as char else c
  }

  function PlainChar(c: char): char
  {
    if IsSubscriptDigit(c) then (c as int - 0x2080 + '0' as int) as char else c
  }

  /** `to_subscript`: each ASCII digit replaced by its subscript, everything else kept. */
  function ToSubscript(s: string): (t: string)
    ensures |t| == |s|
    ensures forall i :: 0 <= i < |s| ==> t[i] == SubscriptChar(s[i])
  {
    if s == [] then [] else [SubscriptChar(s[0])] + ToSubscript(s[1..])
  }

  /** Reading the subscripts back as digits gives the original text, as long as it had no
      subscript digits of its own. */
  lemma SubscriptRoundTrip(s: string)
    requires forall i :: 0 <= i < |s| ==> !IsSubscriptDigit(s[i])
    ensures seq(|s|, i requires 0 <= i < |s| => PlainChar(ToSubscript(s)[i])) == s
  {
  }

  // ---------------------------------------------------------------------------
  // The timer's state and its handlers
  // ---------------------------------------------------------------------------

  /** The handlers the tick source can run: `update_countdown` or `update_income_display`. */
  datatype Handler = CountdownHandler | IncomeHandler

  /** `total_seconds`, `remaining`, `is_running`, whether the tick source is started, the
      lunch and off times, `time_or_income`, and the connected handlers. */
  datatype CowState = CowState(total: int, remaining: int, running: bool, ticking: bool,
                               lunch: TimeOfDay, off: TimeOfDay, timeOrIncome: bool, handlers: seq<Handler>)

  /** The state `update_countdown` leaves: the computed value as both total and remaining,
      and running. */
  function Countdown(s: CowState, nowUs: int): CowState
  {
    var v := CowCountdown(nowUs, s.lunch, s.off).0;
    s.(total := v, remaining := v, running := true)
  }

  /** `start_countdown` at `nowUs` in ISO week `week`. */
  function Start(s: CowState, cfg: AppConfig, week: int, nowUs: int): CowState
  {
    Countdown(s.(lunch := LunchFor(week, cfg), off := cfg.afternoonOff), nowUs).(ticking := true)
  }

  /** The base state before `start_countdown`: zeroed, stopped, no times, no handler. */
  const Unstarted := CowState(0, 0, false, false, TimeOfDay(0, 0), TimeOfDay(0, 0), false, [])

  /** The state right after construction: the base state, `start_countdown`, then the
      countdown sub-mode with its one handler. */
  function Initial(cfg: AppConfig, week: int, nowUs: int): CowState
  {
    Start(Unstarted, cfg, week, nowUs).(timeOrIncome := true, handlers := [CountdownHandler])
  }

  const TypeErrorText := "TypeError: unsupported operand type(s) for /: 'str' and 'int'"
  const ZeroDivisionText := "ZeroDivisionError: division by zero"

  /** `work_seconds_per_day`: the seconds from the morning start to the leaving time, negative
      when leaving is configured earlier. */
  function WorkSecondsPerDay(cfg: AppConfig): int
  {
    SecondsOfDay(cfg.afternoonOff) - SecondsOfDay(cfg.morningOn)
  }

  /** `get_cow_income`: the income per second as a fraction (numerator, denominator), or the
      exception the division raises: a text income cannot be divided, and a whole one fails
      when there are no working days or no working seconds in a day. */
  function IncomeRate(cfg: AppConfig): (r: Result<(int, int), string>)
    ensures r.Err? <==> cfg.incomePerMonth.Unvalidated? || cfg.workingDays == 0
                        || SecondsOfDay(cfg.morningOn) == SecondsOfDay(cfg.afternoonOff)
    ensures cfg.incomePerMonth.Unvalidated? ==> r == Err(TypeErrorText)
    ensures cfg.incomePerMonth.Whole? && r.Err? ==> r == Err(ZeroDivisionText)
    ensures r.Ok? ==> r.value.1 != 0
                      && r.value.0 * (cfg.workingDays * WorkSecondsPerDay(cfg))
                         == cfg.incomePerMonth.amount * r.value.1
  {
    match cfg.incomePerMonth
    case Unvalidated(_) => Err(TypeErrorText)
    case Whole(n) =>
      var d := cfg.workingDays * WorkSecondsPerDay(cfg);
      ProductIsZero(cfg.workingDays, WorkSecondsPerDay(cfg));
      if d == 0 then Err(ZeroDivisionText) else Ok((n, d))
  }

  lemma ProductIsZero(a: int, b: int)
    ensures a * b == 0 <==> a == 0 || b == 0
  {
    if a != 0 && b != 0 {
      if a > 0 && b > 0 { assert a * b >= b; }
      else if a > 0 { assert a * b <= b; }
      else if b > 0 { assert a * b <= a; }
      else { assert a * b >= -a; }
    }
  }

  /** `reset`: stops and zeroes the countdown but keeps the lunch and off times. */
  function ResetState(s: CowState): CowState
  {
    s.(ticking := false, running := false, remaining := 0, total := 0)
  }

  lemma ResetKeepsTimes(s: CowState)
    ensures var r := ResetState(s);
      && !r.ticking && !r.running && r.remaining == 0 && r.total == 0
      && r.lunch == s.lunch && r.off == s.off && r.handlers == s.handlers
      && ResetState(r) == r
  {
  }

  /** The state after the handlers `hs` run in order, the i-th reading the clock at `nows[i]`
      (each handler calls `datetime.now()` itself, and a message box shown by one handler
      holds the next back until it is closed). Every countdown handler overwrites the
      countdown, so the last one's reading decides. */
  function AfterHandlers(s: CowState, hs: seq<Handler>, nows: seq<int>): CowState
    requires |nows| == |hs|
  {
    if hs == [] then s
    else if hs[|hs| - 1] == CountdownHandler then Countdown(s, nows[|hs| - 1])
    else AfterHandlers(s, hs[..|hs| - 1], nows[..|hs| - 1])
  }

  /** Running handlers changes only the countdown values and the running flag. */
  lemma {:induction false} AfterHandlersFrame(s: CowState, hs: seq<Handler>, nows: seq<int>)
    requires |nows| == |hs|
    ensures AfterHandlers(s, hs, nows).(total := s.total, remaining := s.remaining, running := s.running) == s
  {
    if hs != [] && hs[|hs| - 1] != CountdownHandler {
      AfterHandlersFrame(s, hs[..|hs| - 1], nows[..|hs| - 1]);
    }
  }

  /** The label a handler writes. */
  function HandlerLabel(h: Handler, s: CowState, nowUs: int, cfg: AppConfig): Label
  {
    match h
    case CountdownHandler => Plain(CountdownLabel(CowCountdown(nowUs, s.lunch, s.off).0))
    case IncomeHandler => Earnings(WorkedSeconds(nowUs, cfg.morningOn, cfg.afternoonOff))
  }

  /** The message box one countdown handler shows at `nowUs`: the tip when the value is 0. */
  function Alert(s: CowState, nowUs: int): seq<string>
  {
    var r := CowCountdown(nowUs, s.lunch, s.off);
    if r.0 == 0 then [r.1] else []
  }

  /** The message boxes the handlers `hs` show, in order, the i-th at reading `nows[i]`. */
  function Alerts(hs: seq<Handler>, s: CowState, nows: seq<int>): seq<string>
    requires |nows| == |hs|
  {
    if hs == [] then []
    else
      Alerts(hs[..|hs| - 1], s, nows[..|hs| - 1])
      + if hs[|hs| - 1] == CountdownHandler then Alert(s, nows[|hs| - 1]) else []
  }

  /** How many countdown handlers are connected. */
  function CountdownHandlers(hs: seq<Handler>): nat
  {
    if hs == [] then 0 else CountdownHandlers(hs[..|hs| - 1]) + if hs[|hs| - 1] == CountdownHandler then 1 else 0
  }

  /** The reading lies in the last second before lunch, or, lunch passed, in the last second
      before the end of the day. */
  predicate InLastSecond(nowUs: int, s: CowState)
  {
    || (nowUs < Us(s.lunch) && Us(s.lunch) - nowUs < Micro)
    || (Us(s.lunch) <= nowUs < Us(s.off) && Us(s.off) - nowUs < Micro)
  }

  /** The countdown reads 0 exactly in the last second before a target. */
  lemma ZeroIffLastSecond(nowUs: int, s: CowState)
    ensures CowCountdown(nowUs, s.lunch, s.off).0 == 0 <==> InLastSecond(nowUs, s)
  {
  }

  /** The countdown handlers whose own reading falls in a last second. */
  function AlertingHandlers(hs: seq<Handler>, s: CowState, nows: seq<int>): set<int>
    requires |nows| == |hs|
  {
    set i | 0 <= i < |hs| && hs[i] == CountdownHandler && InLastSecond(nows[i], s)
  }

  /** One message box per countdown handler whose own clock reading lies in the last second
      before lunch or leaving, and none for the others; each box holds a tip. */
  lemma {:induction false} AlertsPerHandler(hs: seq<Handler>, s: CowState, nows: seq<int>)
    requires |nows| == |hs|
    ensures |Alerts(hs, s, nows)| == |AlertingHandlers(hs, s, nows)|
    ensures forall j :: 0 <= j < |Alerts(hs, s, nows)| ==>
              Alerts(hs, s, nows)[j] == LunchTip || Alerts(hs, s, nows)[j] == OvertimeTip
  {
    if hs != [] {
      var k := |hs| - 1;
      var hs', nows' := hs[..k], nows[..k];
      AlertsPerHandler(hs', s, nows');
      ZeroIffLastSecond(nows[k], s);
      var before := AlertingHandlers(hs', s, nows');
      var extra := if hs[k] == CountdownHandler && InLastSecond(nows[k], s) then {k} else {};
      assert AlertingHandlers(hs, s, nows) == before + extra;
      assert k !in before;
      assert |before + extra| == |before| + |extra|;
    }
  }

  /** When every handler reads the same instant (no box held any of them back), the value is
      0 for all or for none of them: a box per countdown handler, or no box at all. */
  lemma {:induction false} AlertsAtOneInstant(hs: seq<Handler>, s: CowState, nows: seq<int>, nowUs: int)
    requires |nows| == |hs| && forall i :: 0 <= i < |nows| ==> nows[i] == nowUs
    ensures var r := CowCountdown(nowUs, s.lunch, s.off);
      && |Alerts(hs, s, nows)| == (if r.0 == 0 then CountdownHandlers(hs) else 0)
      && forall i :: 0 <= i < |Alerts(hs, s, nows)| ==> Alerts(hs, s, nows)[i] == r.1
  {
    if hs != [] { AlertsAtOneInstant(hs[..|hs| - 1], s, nows[..|hs| - 1], nowUs); }
  }

  /** Two countdown handlers with an earnings handler between, on a 12:00 lunch and 18:00
      leaving time: the first reads half a second before lunch and shows the lunch box; the
      user closes it a minute later, so the last handler reads 12:01, shows no box, and
      leaves the label at the time to leaving. */
  lemma ModalBoxDelaysLaterHandlers(s: CowState, cfg: AppConfig)
    requires s.lunch == TimeOfDay(12, 0) && s.off == TimeOfDay(18, 0)
    ensures var hs := [CountdownHandler, IncomeHandler, CountdownHandler];
      var nows := [43_200_000_000 - 500_000, 43_260_000_000, 43_260_000_000];
      && Alerts(hs, s, nows) == [LunchTip]
      && HandlerLabel(hs[2], s, nows[2], cfg) == Plain(CountdownLabel(21_540))
      && AfterHandlers(s, hs, nows).remaining == 21_540
  {
    var hs := [CountdownHandler, IncomeHandler, CountdownHandler];
    var nows := [43_200_000_000 - 500_000, 43_260_000_000, 43_260_000_000];
    assert CowCountdown(nows[0], s.lunch, s.off) == (0, LunchTip);
    assert CowCountdown(nows[2], s.lunch, s.off) == (21_540, OvertimeTip);
    assert hs[..2][..1] == [CountdownHandler] && nows[..2][..1] == [nows[0]];
    assert [CountdownHandler][..0] == [] && [nows[0]][..0] == [];
    assert Alerts([CountdownHandler], s, [nows[0]]) == [LunchTip];
    assert Alerts(hs[..2], s, nows[..2]) == [LunchTip];
    assert hs[..2] == hs[..|hs| - 1] && nows[..2] == nows[..|nows| - 1];
  }

  /** Running one more handler: its alert is appended, and the state moves on only when it is
      a countdown handler. */
  lemma HandlerStep(hs: seq<Handler>, nows: seq<int>, i: nat, s: CowState, t: CowState)
    requires |nows| == |hs| && i < |hs| && t.lunch == s.lunch && t.off == s.off
    ensures Alerts(hs[..i + 1], s, nows[..i + 1])
            == Alerts(hs[..i], s, nows[..i]) + if hs[i] == CountdownHandler then Alert(t, nows[i]) else []
    ensures t == AfterHandlers(s, hs[..i], nows[..i]) ==>
              AfterHandlers(s, hs[..i + 1], nows[..i + 1]) == if hs[i] == CountdownHandler then Countdown(t, nows[i]) else t
  {
    assert hs[..i + 1][..i] == hs[..i];
    assert nows[..i + 1][..i] == nows[..i];
    if t == AfterHandlers(s, hs[..i], nows[..i]) {
      AfterHandlersFrame(s, hs[..i], nows[..i]);
    }
  }

  class CowTimer {
    var total: int
    var remaining: int
    var running: bool
    var ticking: bool
    var lunch: TimeOfDay
    var off: TimeOfDay
    var timeOrIncome: bool
    var handlers: seq<Handler>
    const window: Window
    /** The exception that left `__init__`, if any; the caller then discards the object. */
    const raised: Option<string>

    function State(): CowState
      reads this
    {
      CowState(total, remaining, running, ticking, lunch, off, timeOrIncome, handlers)
    }

    /** `update_countdown`: recomputes the value, stores it, and shows it. */
    method UpdateCountdown(nowUs: int)
      modifies this, window
      ensures State() == Countdown(old(State()), nowUs)
      ensures window.display == Plain(CountdownLabel(CowCountdown(nowUs, old(lunch), old(off)).0))
      ensures window.messages == old(window.messages) + Alert(old(State()), nowUs)
      ensures window.styles == old(window.styles) && window.pos == old(window.pos)
    {
      var r := CowCountdown(nowUs, lunch, off);
      total := r.0;
      remaining := r.0;
      running := true;
      if r.0 == 0 {
        window.SetLabel(Plain("00:00"));
        window.MessageBox(r.1);
      } else if r.0 > 0 {
        window.SetLabel(Plain(CountdownLabel(r.0)));
      } else {
        window.SetLabel(Plain("下班"));
      }
    }

    /** The clamp part of `update_income_display`: shows the seconds worked today (the
        conversion to money and its formatting are not modelled). */
    method UpdateIncomeDisplay(nowUs: int, cfg: AppConfig)
      modifies window
      ensures window.display == HandlerLabel(IncomeHandler, State(), nowUs, cfg)
      ensures window.messages == old(window.messages) && window.styles == old(window.styles)
      ensures window.pos == old(window.pos)
    {
      window.SetLabel(Earnings(WorkedSeconds(nowUs, cfg.morningOn, cfg.afternoonOff)));
    }

    /** `start_countdown`: picks the lunch time of the week and the off time, shows the
        countdown, starts the tick source. */
    method StartCountdown(cfg: AppConfig, week: int, nowUs: int)
      modifies this, window
      ensures State() == Start(old(State()), cfg, week, nowUs)
      ensures window.display == Plain(CountdownLabel(CowCountdown(nowUs, LunchFor(week, cfg), cfg.afternoonOff).0))
      ensures window.messages == old(window.messages) + Alert(State(), nowUs)
      ensures window.styles == old(window.styles) && window.pos == old(window.pos)
    {
      lunch := LunchFor(week, cfg);
      off := cfg.afternoonOff;
      running := true;
      UpdateCountdown(nowUs);
      ticking := true;
    }

    /** Construction computes the income per second, then starts the countdown in the
        countdown sub-mode; when the income computation raises, construction stops there
        with the base state and the window untouched. */
    constructor (w: Window, cfg: AppConfig, week: int, nowUs: int)
      modifies w
      ensures window == w
      ensures raised.Some? <==> IncomeRate(cfg).Err?
      ensures raised.Some? ==> raised.value == IncomeRate(cfg).error
      ensures raised.Some? ==> State() == Unstarted && unchanged(w)
      ensures raised.None? ==> State() == Initial(cfg, week, nowUs)
      ensures raised.None? ==>
                w.display == Plain(CountdownLabel(CowCountdown(nowUs, LunchFor(week, cfg), cfg.afternoonOff).0))
      ensures raised.None? ==> w.messages == old(w.messages) + Alert(State(), nowUs)
      ensures w.styles == old(w.styles) && w.pos == old(w.pos)
    {
      total, remaining, running, ticking := 0, 0, false, false;
      lunch, off := TimeOfDay(0, 0), TimeOfDay(0, 0);
      timeOrIncome, handlers := false, [];
      window := w;
      raised := if IncomeRate(cfg).Err? then Some(IncomeRate(cfg).error) else None;
      new;
      if raised.None? {
        Begin(cfg, week, nowUs);
      }
    }

    /** The rest of `__init__` once the income is known: `start_countdown`, then the
        countdown sub-mode with its handler connected. */
    method Begin(cfg: AppConfig, week: int, nowUs: int)
      requires State() == Unstarted
      modifies this, window
      ensures State() == Initial(cfg, week, nowUs)
      ensures window.display == Plain(CountdownLabel(CowCountdown(nowUs, LunchFor(week, cfg), cfg.afternoonOff).0))
      ensures window.messages == old(window.messages) + Alert(State(), nowUs)
      ensures window.styles == old(window.styles) && window.pos == old(window.pos)
    {
      StartCountdown(cfg, week, nowUs);
      timeOrIncome := true;
      handlers := [CountdownHandler];
    }

    /** One timeout of the tick source: every connected handler runs, in connection order,
        the i-th reading the clock at `nows[i]`. */
    method Tick(nows: seq<int>, cfg: AppConfig)
      requires |nows| == |handlers|
      modifies this, window
      ensures State() == AfterHandlers(old(State()), old(handlers), nows)
      ensures window.messages == old(window.messages) + Alerts(old(handlers), old(State()), nows)
      ensures window.display == if old(handlers) == [] then old(window.display)
                                else HandlerLabel(old(handlers)[|nows| - 1], old(State()), nows[|nows| - 1], cfg)
      ensures window.styles == old(window.styles) && window.pos == old(window.pos)
    {
      var i := 0;
      while i < |handlers|
        invariant 0 <= i <= |handlers|
        invariant handlers == old(handlers) && lunch == old(lunch) && off == old(off)
        invariant State() == AfterHandlers(old(State()), handlers[..i], nows[..i])
        invariant window.messages == old(window.messages) + Alerts(handlers[..i], old(State()), nows[..i])
        invariant window.display == if i == 0 then old(window.display)
                                    else HandlerLabel(handlers[i - 1], old(State()), nows[i - 1], cfg)
        invariant window.styles == old(window.styles) && window.pos == old(window.pos)
      {
        HandlerStep(handlers, nows, i, old(State()), State());
        if handlers[i] == CountdownHandler {
          UpdateCountdown(nows[i]);
        } else {
          UpdateIncomeDisplay(nows[i], cfg);
        }
        i := i + 1;
      }
      assert handlers[..i] == handlers && nows[..i] == nows;
    }

    /** `reset`: stops the tick source and zeroes the countdown; lunch and off stay. */
    method Reset()
      modifies this
      ensures State() == ResetState(old(State()))
    {
      ticking := false;
      running := false;
      remaining := 0;
      total := 0;
    }
  }
}
