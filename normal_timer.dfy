/**
 * The plain countdown (core/timer/normal_timer.py, class NormalTimer): started
 * for a number of minutes, decremented by one on every timeout of its one-second
 * tick source, stopped with a flash alert once it has reached zero, with an
 * optional one-shot message box when the remaining time hits the warning
 * threshold.
 *
 * The timer's state is the value `NormalState`; the class `NormalTimer` holds
 * the same fields and each of its methods is proved to move them exactly as the
 * step functions below do. Properties over many timeouts are stated on `Run`.
 */
module NormalTimers {
  import opened Text
  import opened TimerBase
  import opened MainWindow
  import Renderer

  /** `total_seconds`, `remaining`, `is_running`, whether the one-second tick source is
      started, and `note` (message box at the warning threshold). */
  datatype NormalState = NormalState(total: int, remaining: int, running: bool, ticking: bool, note: bool)

  /** A fresh timer: the base state of every timer (zero, zero, not running), tick source
      stopped, no note. */
  function Initial(): NormalState
  {
    NormalState(0, 0, false, false, false)
  }

  /** `start_countdown(minutes)`. */
  function Start(s: NormalState, minutes: int): NormalState
  {
    s.(total := minutes * 60, remaining := minutes * 60, running := true, ticking := true)
  }

  /** Whether a timeout finds the countdown finished (and so stops it and flashes). */
  predicate Expires(s: NormalState)
  {
    s.remaining <= 0
  }

  /** Whether a timeout shows the warning message box: the note is on and the value after
      the decrement equals the warning threshold. */
  predicate Warns(s: NormalState, warning: int)
  {
    s.remaining > 0 && s.note && s.remaining - 1 == warning
  }

  /** `update_countdown`: one timeout. */
  function Tick(s: NormalState): (t: NormalState)
    ensures t.remaining >= 0
    ensures t.total == s.total && t.note == s.note
    ensures !Expires(s) ==> t.remaining == s.remaining - 1 && t.running == s.running && t.ticking == s.ticking
    ensures Expires(s) ==> t.remaining == 0 && !t.running && !t.ticking
  {
    if s.remaining <= 0 then s.(ticking := false, running := false, remaining := 0)
    else s.(remaining := s.remaining - 1)
  }

  /** `reset`. */
  function ResetState(s: NormalState): NormalState
  {
    s.(ticking := false, running := false, remaining := 0, total := 0)
  }

  /** Resetting twice is resetting once, and a reset timer is stopped and zeroed. */
  lemma ResetIdempotent(s: NormalState)
    ensures ResetState(ResetState(s)) == ResetState(s)
    ensures var r := ResetState(s); !r.ticking && !r.running && r.remaining == 0 && r.total == 0 && r.note == s.note
  {
  }

  /** The tick source delivers a timeout only while it is started. */
  function Deliver(s: NormalState): NormalState
  {
    if s.ticking then Tick(s) else s
  }

  /** The state after `n` timeouts of the tick source. */
  function Run(s: NormalState, n: nat): NormalState
  {
    if n == 0 then s else Deliver(Run(s, n - 1))
  }

  /** The flash alerts shown during `n` timeouts. */
  function Flashes(s: NormalState, n: nat): nat
  {
    if n == 0 then 0
    else Flashes(s, n - 1) + (var p := Run(s, n - 1); if p.ticking && Expires(p) then 1 else 0)
  }

  /** The warning message boxes shown during `n` timeouts. */
  function Warnings(s: NormalState, n: nat, warning: int): nat
  {
    if n == 0 then 0
    else Warnings(s, n - 1, warning) + (var p := Run(s, n - 1); if p.ticking && Warns(p, warning) then 1 else 0)
  }

  /** Once a countdown starts from a non-negative value, `remaining` stays non-negative. */
  lemma {:induction false} RunNonNegative(s: NormalState, n: nat)
    requires s.remaining >= 0
    ensures Run(s, n).remaining >= 0
  {
    if n > 0 { RunNonNegative(s, n - 1); }
  }

  /** A stopped timer does not move. */
  lemma {:induction false} RunStopped(s: NormalState, n: nat)
    requires !s.ticking
    ensures Run(s, n) == s && Flashes(s, n) == 0
  {
    if n > 0 { RunStopped(s, n - 1); }
  }

  /** After `start_countdown(minutes)`, tick k (for k up to minutes * 60) leaves
      minutes * 60 - k seconds, still running. */
  lemma {:induction false} CountsDown(s: NormalState, minutes: nat, k: nat)
    requires k <= minutes * 60
    ensures Run(Start(s, minutes), k) == Start(s, minutes).(remaining := minutes * 60 - k)
    ensures Flashes(Start(s, minutes), k) == 0
  {
    if k > 0 { CountsDown(s, minutes, k - 1); }
  }

  /** Tick minutes * 60 + 1 finds zero: it stops the timer, and from then on the timer
      stays stopped at zero. */
  lemma {:induction false} ExpiresOnce(s: NormalState, minutes: nat, n: nat)
    requires n > minutes * 60
    ensures Run(Start(s, minutes), n) == Start(s, minutes).(remaining := 0, running := false, ticking := false)
    ensures Flashes(Start(s, minutes), n) == 1
  {
    var t := minutes * 60;
    if n == t + 1 {
      CountsDown(s, minutes, t);
    } else {
      ExpiresOnce(s, minutes, n - 1);
    }
  }

  /** Over any number of timeouts after a start, the flash is shown exactly once if the
      countdown got past its last second and not at all before. */
  lemma FlashesExactlyOnce(s: NormalState, minutes: nat, n: nat)
    ensures Flashes(Start(s, minutes), n) == if n > minutes * 60 then 1 else 0
  {
    if n > minutes * 60 { ExpiresOnce(s, minutes, n); } else { CountsDown(s, minutes, n); }
  }

  /** The warning message box is shown at most once per run: exactly when the note is on,
      the threshold lies below the duration, and tick minutes * 60 - warning has passed. */
  lemma {:induction false} WarnsOnce(s: NormalState, minutes: nat, n: nat, warning: int)
    ensures Warnings(Start(s, minutes), n, warning)
            == if s.note && 0 <= warning < minutes * 60 && n >= minutes * 60 - warning then 1 else 0
  {
    var t := minutes * 60;
    if n > 0 {
      WarnsOnce(s, minutes, n - 1, warning);
      if n - 1 <= t {
        CountsDown(s, minutes, n - 1);
      } else {
        ExpiresOnce(s, minutes, n - 1);
      }
    }
  }

  /** The text of the warning message box: `f'剩余时间： {m}分{s}秒'`. */
  function WarningMessage(remaining: nat): string
  {
    "剩余时间： " + Decimal(remaining / 60) + "分" + Decimal(remaining % 60) + "秒"
  }

  class NormalTimer {
    var total: int
    var remaining: int
    var running: bool
    var ticking: bool
    var note: bool
    const window: Window

    function State(): NormalState
      reads this
    {
      NormalState(total, remaining, running, ticking, note)
    }

    constructor (w: Window)
      ensures State() == Initial() && window == w
    {
      total, remaining, running, ticking, note := 0, 0, false, false, false;
      window := w;
    }

    /** `start_countdown(minutes)`: shows the full duration and starts the tick source. */
    method StartCountdown(minutes: int)
      modifies this, window
      ensures State() == Start(old(State()), minutes)
      ensures window.display == Plain(DisplayText(minutes * 60))
      ensures window.styles == old(window.styles) && window.messages == old(window.messages)
      ensures window.pos == old(window.pos)
    {
      total := minutes * 60;
      remaining := total;
      running := true;
      window.UpdateDisplay(remaining);
      ticking := true;
    }

    /** `update_countdown`: one timeout of the tick source, with what it shows. */
    method UpdateCountdown(warning: int)
      modifies this, window
      ensures State() == Tick(old(State()))
      ensures window.display == Plain(DisplayText(remaining))
      ensures window.styles == old(window.styles) + if Expires(old(State())) then Renderer.FlashFrom(0) else []
      ensures window.messages == old(window.messages) + if Warns(old(State()), warning) then [WarningMessage(remaining)] else []
      ensures window.pos == old(window.pos)
    {
      if remaining <= 0 {
        ticking := false;
        running := false;
        remaining := 0;
        window.UpdateDisplay(remaining);
        window.FlashAlert();
      } else {
        remaining := remaining - 1;
        window.UpdateDisplay(remaining);
        if note && remaining == warning {
          window.MessageBox(WarningMessage(remaining));
        }
      }
    }

    /** `reset`: stops the tick source and zeroes the countdown. */
    method Reset()
      modifies this
      ensures State() == ResetState(old(State()))
    {
      ticking := false;
      running := false;
      remaining := 0;
      total := 0;
    }
  }
}
