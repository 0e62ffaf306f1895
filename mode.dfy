/**
 * The mode manager (core/mode.py, class ModeManager): it holds the name of the
 * current mode and the one timer object of that mode. Switching to another
 * known mode stops and zeroes the old timer, builds a fresh timer of the new
 * kind and shows "00:00"; switching to the current mode does nothing, and an
 * unknown name is refused with the error the source raises.
 */
module Mode {
  import opened Wrappers
  import opened Env
  import opened TimerBase
  import opened MainWindow
  import NormalTimers
  import SlideTimers
  import CowTimers

  /** The current timer, of one of the three kinds. */
  datatype Active =
    | NormalActive(n: NormalTimers.NormalTimer)
    | SlideActive(s: SlideTimers.SlideTimer)
    | CowActive(c: CowTimers.CowTimer)

  /** The timer object itself. */
  function Obj(a: Active): object
  {
    match a
    case NormalActive(n) => n
    case SlideActive(s) => s
    case CowActive(c) => c
  }

  /** `get_status_text()` of the timer: the name of its mode. */
  function StatusOf(a: Active): string
  {
    match a
    case NormalActive(_) => "normal"
    case SlideActive(_) => "slide"
    case CowActive(_) => "cow"
  }

  /** The window the timer writes to. */
  function WindowOf(a: Active): Window
  {
    match a
    case NormalActive(n) => n.window
    case SlideActive(s) => s.window
    case CowActive(c) => c.window
  }

  /** The names `set_mode` accepts: the keys of its table of timer classes. */
  predicate Known(name: string)
  {
    name == "normal" || name == "slide" || name == "cow"
  }

  /** Each kind of timer reports the name of the mode it is registered under. */
  lemma StatusIsKnown(a: Active)
    ensures Known(StatusOf(a))
    ensures a.NormalActive? <==> StatusOf(a) == "normal"
    ensures a.SlideActive? <==> StatusOf(a) == "slide"
    ensures a.CowActive? <==> StatusOf(a) == "cow"
  {
  }

  /** What the rest of the program reads of the current timer. */
  function ViewOf(a: Active): (v: TimerView)
    reads Obj(a)
    ensures v.status == StatusOf(a)
    ensures v.timeOrIncome.Some? <==> a.CowActive?
  {
    match a
    case NormalActive(n) => TimerView(n.total, n.remaining, n.running, "normal", None)
    case SlideActive(s) => TimerView(s.total, s.remaining, s.running, "slide", None)
    case CowActive(c) => TimerView(c.total, c.remaining, c.running, "cow", Some(c.timeOrIncome))
  }

  class ModeManager {
    var mode: string
    var current: Active
    const window: Window

    /** The mode's name is one `set_mode` accepts, and the timer writes to the manager's
        window. */
    predicate Valid()
      reads this
    {
      Known(mode) && WindowOf(current) == window
    }

    /** The mode's name is the current timer's status text. Every switch that builds its
        timer restores this; a switch to the cow mode whose timer fails to build breaks it. */
    predicate Consistent()
      reads this
    {
      mode == StatusOf(current)
    }

    /** Starts in normal mode with a fresh, stopped normal timer. */
    constructor (w: Window)
      ensures Valid() && Consistent() && window == w
      ensures mode == "normal" && current.NormalActive? && fresh(current.n)
      ensures current.n.State() == NormalTimers.Initial()
    {
      window := w;
      mode := "normal";
      var t := new NormalTimers.NormalTimer(w);
      current := NormalActive(t);
    }

    /** `get_mode`: a name `set_mode` accepts, which is the current timer's status exactly
        when the manager is consistent. */
    function GetMode(): (m: string)
      reads this
      requires Valid()
      ensures Known(m)
      ensures m == StatusOf(current) <==> Consistent()
    {
      mode
    }

    /** `get_current_timer`, as what the rest of the program reads of it: its status is the
        mode's name exactly when the manager is consistent. */
    function View(): (v: TimerView)
      reads this, Obj(current)
      requires Valid()
      ensures v.status == StatusOf(current)
      ensures v.status == GetMode() <==> Consistent()
    {
      ViewOf(current)
    }

    /** `set_mode(name)`. An unknown name raises; the current name does nothing; another
        name resets the old timer and records the new name before building the new timer,
        so when building raises (only the cow timer can), the name is the new one, the old
        timer stays current, reset, and nothing is shown. */
    method SetMode(name: string, cfg: AppConfig, week: int, nowUs: int) returns (r: Result<(), string>)
      requires Valid()
      modifies this, window, Obj(current)
      ensures Valid()
      ensures r.Ok? <==> Known(name) && (name == old(mode) || Builds(name, cfg))
      ensures !Known(name) ==> r == Err("不支持的模式: " + name)
      ensures !Known(name) || name == old(mode) ==>
                mode == old(mode) && current == old(current) && unchanged(Obj(current)) && unchanged(window)
      ensures Known(name) && name != old(mode) ==>
                mode == name && Stopped(old(current))
                && window.styles == old(window.styles) && window.pos == old(window.pos)
      ensures Known(name) && name != old(mode) && Builds(name, cfg) ==>
                && Consistent() && fresh(Obj(current))
                && window.display == Plain(DisplayText(0))
                && Built(current, name, cfg, week, nowUs, old(window.messages), window.messages)
      ensures Known(name) && name != old(mode) && !Builds(name, cfg) ==>
                && r == Err(CowTimers.IncomeRate(cfg).error)
                && current == old(current)
                && window.display == old(window.display) && window.messages == old(window.messages)
                && (old(Consistent()) ==> !Consistent())
    {
      if !Known(name) {
        return Err("不支持的模式: " + name);
      }
      if name == mode {
        return Ok(());
      }
      r := Switch(name, cfg, week, nowUs);
    }

    /** The switch itself, once `name` is known to be another mode: reset the old timer,
        record the new name, build a fresh timer of the new kind and, when that succeeds,
        install it and show zero. */
    method Switch(name: string, cfg: AppConfig, week: int, nowUs: int) returns (r: Result<(), string>)
      requires Valid() && Known(name) && name != mode
      modifies this, window, Obj(current)
      ensures Valid() && mode == name && Stopped(old(current))
      ensures window.styles == old(window.styles) && window.pos == old(window.pos)
      ensures r.Ok? <==> Builds(name, cfg)
      ensures r.Ok? ==>
                && Consistent() && fresh(Obj(current))
                && window.display == Plain(DisplayText(0))
                && Built(current, name, cfg, week, nowUs, old(window.messages), window.messages)
      ensures r.Err? ==>
                && r.error == CowTimers.IncomeRate(cfg).error && current == old(current)
                && window.display == old(window.display) && window.messages == old(window.messages)
    {
      ghost var before, previous := window.messages, current;
      ResetCurrent();
      mode := name;
      var t := NewTimer(name, window, cfg, week, nowUs);
      if t.Err? {
        return Err(t.error);
      }
      ghost var after := window.messages;
      assert Stopped(previous) && Built(t.value, name, cfg, week, nowUs, before, after);
      current := t.value;
      window.UpdateDisplay(0);
      assert window.messages == after;
      return Ok(());
    }

    /** `self.current_timer.reset()`. */
    method ResetCurrent()
      modifies Obj(current)
      ensures Stopped(current)
    {
      match current {
        case NormalActive(n) => n.Reset();
        case SlideActive(s) => s.Reset();
        case CowActive(c) => c.Reset();
      }
    }
  }

  /** The timer has been reset: stopped, zeroed, and its tick source stopped. */
  predicate Stopped(a: Active)
    reads Obj(a)
  {
    match a
    case NormalActive(n) => n.State() == NormalTimers.ResetState(n.State())
    case SlideActive(s) => s.State() == SlideTimers.ResetState(s.State())
    case CowActive(c) => c.State() == CowTimers.ResetState(c.State())
  }

  /** `timer` is a fresh timer of the named kind in its initial state, and `after` is the
      window's message log `before` plus what building it showed: the cow timer's first
      tick alerts when it falls on the lunch or leaving time, the other two show nothing. */
  predicate Built(a: Active, name: string, cfg: AppConfig, week: int, nowUs: int, before: seq<string>, after: seq<string>)
    reads Obj(a)
  {
    && StatusOf(a) == name
    && match a
       case NormalActive(n) => n.State() == NormalTimers.Initial() && after == before
       case SlideActive(s) => s.State() == SlideTimers.Initial(cfg.slideMinutes) && after == before
       case CowActive(c) =>
         && c.State() == CowTimers.Initial(cfg, week, nowUs)
         && after == before + CowTimers.Alert(c.State(), nowUs)
  }

  /** Whether building the named timer succeeds: only the cow timer's constructor can raise. */
  predicate Builds(name: string, cfg: AppConfig)
  {
    name != "cow" || CowTimers.IncomeRate(cfg).Ok?
  }

  /** `self.timers[mode](self.parent)`: a fresh timer of the named kind, or the exception its
      constructor raised, with the window then untouched. */
  method NewTimer(name: string, w: Window, cfg: AppConfig, week: int, nowUs: int) returns (r: Result<Active, string>)
    requires Known(name)
    modifies w
    ensures r.Ok? <==> Builds(name, cfg)
    ensures r.Ok? ==> fresh(Obj(r.value)) && StatusOf(r.value) == name && WindowOf(r.value) == w
    ensures r.Ok? ==> Built(r.value, name, cfg, week, nowUs, old(w.messages), w.messages)
    ensures r.Err? ==> r.error == CowTimers.IncomeRate(cfg).error && unchanged(w)
    ensures w.styles == old(w.styles) && w.pos == old(w.pos)
  {
    if name == "normal" {
      var t := new NormalTimers.NormalTimer(w);
      r := Ok(NormalActive(t));
    } else if name == "slide" {
      var t := new SlideTimers.SlideTimer(w, cfg.slideMinutes);
      r := Ok(SlideActive(t));
    } else {
      var t := new CowTimers.CowTimer(w, cfg, week, nowUs);
      if t.raised.Some? {
        return Err(t.raised.value);
      }
      r := Ok(CowActive(t));
    }
  }
}
