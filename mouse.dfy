/**
 * The mouse handler of the ball (core/input/mouse.py, class MouseHandler):
 * a right press opens the context menu, a left press on the indicator square
 * toggles pause and any other left press starts a drag, a move with the left
 * button held drags the window, and a left double click either restarts the
 * normal or slide countdown from the settings dialog or, in cow mode, flips
 * between the countdown and earnings sub-modes.
 */
module Mouse {
  import opened Wrappers
  import opened Env
  import opened MainWindow
  import opened Renderer
  import opened Mode
  import NormalTimers
  import SlideTimers
  import CowTimers
  import SettingsDialog

  datatype Button = Left | Right | Middle

  /** `a - b` on Qt points. */
  function Minus(a: Point, b: Point): Point
  {
    Point(a.x - b.x, a.y - b.y)
  }

  /** The indicator square was painted and contains the point. */
  predicate Hit(indicator: Option<Rect>, p: Point)
  {
    indicator.Some? && Contains(indicator.value, p.x, p.y)
  }

  /** `_toggle_pause` on a normal timer: nothing without a duration; otherwise the running
      flag flips and the tick source follows it. */
  function Toggled(s: NormalTimers.NormalState): (t: NormalTimers.NormalState)
    ensures s.total <= 0 ==> t == s
    ensures s.total > 0 ==> t.running == !s.running && t.ticking == t.running
    ensures t.total == s.total && t.remaining == s.remaining && t.note == s.note
  {
    if s.total <= 0 then s else s.(running := !s.running, ticking := !s.running)
  }

  /** Toggling twice restores the running flag, and the whole state when the tick source was
      in step with it. */
  lemma ToggleTwice(s: NormalTimers.NormalState)
    ensures Toggled(Toggled(s)).running == s.running
    ensures s.ticking == s.running ==> Toggled(Toggled(s)) == s
  {
  }

  /** `shift_cow_time_or_income` on a cow timer: the sub-mode flips and one more handler,
      for the new sub-mode, is connected. */
  function Shifted(s: CowTimers.CowState): (t: CowTimers.CowState)
    ensures t.timeOrIncome == !s.timeOrIncome
    ensures |t.handlers| == |s.handlers| + 1 && t.handlers[..|s.handlers|] == s.handlers
    ensures t.handlers[|s.handlers|] == if t.timeOrIncome then CowTimers.CountdownHandler else CowTimers.IncomeHandler
    ensures t.(timeOrIncome := s.timeOrIncome, handlers := s.handlers) == s
  {
    var flipped := !s.timeOrIncome;
    s.(timeOrIncome := flipped,
       handlers := s.handlers + [if flipped then CowTimers.CountdownHandler else CowTimers.IncomeHandler])
  }

  /** Flipping twice restores the sub-mode but leaves both kinds of handler connected: the
      handler list only grows. */
  lemma {:induction false} ShiftTwice(s: CowTimers.CowState)
    ensures var t := Shifted(Shifted(s));
            && t.timeOrIncome == s.timeOrIncome
            && t.handlers[..|s.handlers|] == s.handlers
            && multiset(t.handlers[|s.handlers|..]) == multiset{CowTimers.CountdownHandler, CowTimers.IncomeHandler}
  {
    var u := Shifted(s);
    var t := Shifted(u);
    assert t.handlers[..|u.handlers|] == u.handlers;
    assert t.handlers[..|s.handlers|] == u.handlers[..|s.handlers|];
    assert t.handlers[|s.handlers|..] == [u.handlers[|s.handlers|], t.handlers[|u.handlers|]];
  }

  class MouseHandler {
    /** The offset of the press from the window's top-left corner while dragging. */
    var dragPos: Option<Point>
    const modes: ModeManager
    const renderer: TimerRenderer

    constructor (m: ModeManager, r: TimerRenderer)
      ensures dragPos == None && modes == m && renderer == r
    {
      dragPos := None;
      modes := m;
      renderer := r;
    }

    /** `_toggle_pause`: only a normal timer with a duration pauses or resumes. */
    method TogglePause()
      requires modes.Valid()
      modifies Obj(modes.current)
      ensures modes.current.NormalActive? ==>
                modes.current.n.State() == Toggled(old(modes.current.n.State()))
      ensures !modes.current.NormalActive? ==> unchanged(Obj(modes.current))
    {
      match modes.current {
        case NormalActive(n) =>
          if n.total > 0 {
            n.running := !n.running;
            n.ticking := n.running;
          }
        case SlideActive(_) =>
        case CowActive(_) =>
      }
    }

    /** `handle_mouse_press`; the result says whether the context menu opens. */
    method Press(button: Button, pos: Point, global: Point) returns (menu: bool)
      requires modes.Valid()
      modifies this, Obj(modes.current)
      ensures menu <==> button == Right
      ensures button == Left && Hit(renderer.indicator, pos) ==>
                dragPos == old(dragPos)
                && (modes.current.NormalActive? ==> modes.current.n.State() == Toggled(old(modes.current.n.State())))
                && (!modes.current.NormalActive? ==> unchanged(Obj(modes.current)))
      ensures button == Left && !Hit(renderer.indicator, pos) ==>
                dragPos == Some(Minus(global, modes.window.pos)) && unchanged(Obj(modes.current))
      ensures button != Left ==> dragPos == old(dragPos) && unchanged(Obj(modes.current))
    {
      menu := button == Right;
      if button == Left {
        if Hit(renderer.indicator, pos) {
          TogglePause();
          return;
        }
        dragPos := Some(Minus(global, modes.window.pos));
      }
    }

    /** `handle_mouse_move`: the window follows the cursor only during a left-button drag. */
    method Move(leftHeld: bool, global: Point)
      modifies modes.window
      ensures leftHeld && dragPos.Some? ==> modes.window.pos == Minus(global, dragPos.value)
      ensures !(leftHeld && dragPos.Some?) ==> modes.window.pos == old(modes.window.pos)
      ensures modes.window.display == old(modes.window.display)
      ensures modes.window.styles == old(modes.window.styles) && modes.window.messages == old(modes.window.messages)
    {
      if leftHeld && dragPos.Some? {
        modes.window.Move(Minus(global, dragPos.value));
      }
    }

    /** `shift_cow_time_or_income`: only a cow timer switches sub-mode. */
    method ShiftCowTimeOrIncome()
      requires modes.Valid()
      modifies Obj(modes.current)
      ensures modes.current.CowActive? ==> modes.current.c.State() == Shifted(old(modes.current.c.State()))
      ensures !modes.current.CowActive? ==> unchanged(Obj(modes.current))
    {
      match modes.current {
        case CowActive(c) =>
          c.timeOrIncome := !c.timeOrIncome;
          c.handlers := c.handlers + [if c.timeOrIncome then CowTimers.CountdownHandler else CowTimers.IncomeHandler];
        case NormalActive(_) =>
        case SlideActive(_) =>
      }
    }

    /** `handle_mouse_double_click`. The settings dialog, opened for the current mode, is a
        parameter together with whether it was accepted; the result is the configuration
        afterwards. */
    method DoubleClick(button: Button, dlg: SettingsDialog.CountdownDialog, accepted: bool, cfg: AppConfig)
      returns (cfg': AppConfig)
      requires modes.Valid() && dlg.Valid() && dlg.mode == StatusOf(modes.current)
      modifies Obj(modes.current), modes.window
      ensures button != Left || !accepted || modes.current.CowActive? ==> cfg' == cfg
      ensures button != Left || (!accepted && !modes.current.CowActive?) ==>
                unchanged(Obj(modes.current)) && unchanged(modes.window)
      ensures button == Left && accepted && modes.current.NormalActive? ==>
                && modes.current.n.State()
                   == NormalTimers.Start(old(modes.current.n.State()).(note := dlg.note), dlg.minutes)
                && modes.window.display == Plain(DisplayText(dlg.minutes * 60))
                && cfg' == dlg.UpdateConfig(cfg)
      ensures button == Left && accepted && modes.current.SlideActive? ==>
                && modes.current.s.State()
                   == SlideTimers.Start(old(modes.current.s.State()), cfg.slideMinutes).(total := dlg.minutes * 60)
                && modes.window.display == Plain(DisplayText(cfg.slideMinutes * 60))
                && cfg' == dlg.UpdateConfig(cfg)
      ensures button == Left && modes.current.CowActive? ==>
                modes.current.c.State() == Shifted(old(modes.current.c.State())) && unchanged(modes.window)
      ensures modes.window.styles == old(modes.window.styles) && modes.window.messages == old(modes.window.messages)
    {
      cfg' := cfg;
      if button != Left {
        return;
      }
      match modes.current {
        case NormalActive(n) =>
          if accepted {
            n.note := dlg.note;
            n.StartCountdown(dlg.minutes);
            n.total := dlg.minutes * 60;
            cfg' := dlg.UpdateConfig(cfg);
          }
        case SlideActive(s) =>
          if accepted {
            s.StartCountdown(cfg.slideMinutes);
            s.total := dlg.minutes * 60;
            cfg' := dlg.UpdateConfig(cfg);
          }
        case CowActive(c) =>
          ShiftCowTimeOrIncome();
      }
    }
  }

  /** After an accepted dialog the configured default of the timer's mode is the chosen
      number of minutes, and the timer's total is that duration. */
  lemma AcceptedDialogSetsDefault(dlg: SettingsDialog.CountdownDialog, cfg: AppConfig)
    requires dlg.Valid()
    ensures dlg.mode == "normal" ==> dlg.UpdateConfig(cfg).normalMinutes == dlg.minutes
    ensures dlg.mode == "slide" ==> dlg.UpdateConfig(cfg).slideMinutes == dlg.minutes
  {
  }
}
