/**
 * The presentation countdown (core/timer/slide_timer.py, class SlideTimer).
 * Every second it polls a detector for the process id of a running slide show
 * (the detector itself is not modelled: its answer is an input of each tick)
 * and reacts to the change since the previous poll:
 *   - a show appears: remember its id and start counting down from where it is;
 *   - the show ends: reload the full duration, forget the id, stop;
 *   - no show before or now: reload and stay stopped;
 *   - a show before and now (whatever its id): nothing changes.
 * While running, every poll then takes one second off, past zero into negative
 * values, with a flash alert on the poll that starts from exactly zero.
 * The detector's answer and the stored id follow Python truthiness: an absent
 * answer and the id 0 both count as "no show".
 */
module SlideTimers {
  import opened Wrappers
  import opened TimerBase
  import opened MainWindow
  import Renderer

  /** `total_seconds`, `remaining`, `is_running`, whether the polling timer is started,
      and `slideshow_pid`. */
  datatype SlideState = SlideState(total: int, remaining: int, running: bool, ticking: bool, pid: Option<nat>)

  /** Python truthiness of a process id or of None. */
  predicate Present(p: Option<nat>)
  {
    p.Some? && p.value != 0
  }

  /** `reload`: the full configured duration. */
  function Reloaded(s: SlideState, slideMinutes: int): SlideState
  {
    s.(total := slideMinutes * 60, remaining := slideMinutes * 60)
  }

  /** `start_countdown`: reload, run, start polling (the minutes argument is ignored). */
  function Start(s: SlideState, slideMinutes: int): SlideState
  {
    Reloaded(s, slideMinutes).(running := true, ticking := true)
  }

  /** The state right after construction: the base state, no id, then `start_countdown`. */
  function Initial(slideMinutes: int): SlideState
  {
    Start(SlideState(0, 0, false, false, None), slideMinutes)
  }

  /** The first half of `update_countdown`: the reaction to the detector's answer. */
  function Detect(s: SlideState, detected: Option<nat>, slideMinutes: int): SlideState
  {
    if Present(detected) && !Present(s.pid) then s.(pid := detected, running := true)
    else if !Present(detected) && Present(s.pid) then Reloaded(s, slideMinutes).(pid := None, running := false)
    else if !Present(detected) && !Present(s.pid) then Reloaded(s, slideMinutes).(running := false)
    else s
  }

  /** The four reactions, stated per case. */
  lemma DetectCases(s: SlideState, detected: Option<nat>, slideMinutes: int)
    ensures var t := Detect(s, detected, slideMinutes);
      && (Present(detected) && !Present(s.pid) ==>
            t.pid == detected && t.running && t.remaining == s.remaining && t.total == s.total)
      && (!Present(detected) && Present(s.pid) ==>
            t.pid == None && !t.running && t.total == t.remaining == slideMinutes * 60)
      && (!Present(detected) && !Present(s.pid) ==>
            t.pid == s.pid && !t.running && t.total == t.remaining == slideMinutes * 60)
      && (Present(detected) && Present(s.pid) ==> t == s)
      && t.ticking == s.ticking
  {
  }

  /** The second half: while running, one second off (possibly below zero). */
  function Count(s: SlideState): SlideState
  {
    if s.running then s.(remaining := s.remaining - 1) else s
  }

  /** `update_countdown` with the detector's answer. */
  function Tick(s: SlideState, detected: Option<nat>, slideMinutes: int): SlideState
  {
    Count(Detect(s, detected, slideMinutes))
  }

  /** Whether the poll shows the flash: it runs and starts from exactly zero. */
  predicate Flashes(s: SlideState, detected: Option<nat>, slideMinutes: int)
  {
    var t := Detect(s, detected, slideMinutes);
    t.running && t.remaining == 0
  }

  /** Whether the poll reloads, and so shows the full duration before anything else. */
  predicate Reloads(s: SlideState, detected: Option<nat>)
  {
    !Present(detected)
  }

  /** `reset`. */
  function ResetState(s: SlideState): SlideState
  {
    s.(ticking := false, running := false, remaining := 0, total := 0, pid := None)
  }

  lemma ResetIdempotent(s: SlideState)
    ensures ResetState(ResetState(s)) == ResetState(s)
    ensures var r := ResetState(s); !r.ticking && !r.running && r.remaining == 0 && r.total == 0 && r.pid == None
  {
  }

  /** A poll reaches the timer only while its polling timer is started. */
  function Deliver(s: SlideState, detected: Option<nat>, slideMinutes: int): SlideState
  {
    if s.ticking then Tick(s, detected, slideMinutes) else s
  }

  /** The state after one poll per answer in `answers`, in order. */
  function Run(s: SlideState, answers: seq<Option<nat>>, slideMinutes: int): SlideState
  {
    if answers == [] then s
    else Deliver(Run(s, answers[..|answers| - 1], slideMinutes), answers[|answers| - 1], slideMinutes)
  }

  /** The flashes shown during those polls. */
  function FlashCount(s: SlideState, answers: seq<Option<nat>>, slideMinutes: int): nat
  {
    if answers == [] then 0
    else
      var before := Run(s, answers[..|answers| - 1], slideMinutes);
      FlashCount(s, answers[..|answers| - 1], slideMinutes)
        + if before.ticking && Flashes(before, answers[|answers| - 1], slideMinutes) then 1 else 0
  }

  lemma RunStep(s: SlideState, answers: seq<Option<nat>>, a: Option<nat>, slideMinutes: int)
    ensures Run(s, answers + [a], slideMinutes) == Deliver(Run(s, answers, slideMinutes), a, slideMinutes)
  {
    assert (answers + [a])[..|answers|] == answers;
  }

  /** Right after construction, the answers [none, show, show, none] make the timer run
      for the two polls during the show and come back to the full duration when it ends. */
  lemma ShowExample(slideMinutes: int, id: nat)
    requires id != 0
    ensures var t := slideMinutes * 60;
      var s0 := Initial(slideMinutes);
      var s1 := Run(s0, [None], slideMinutes);
      var s2 := Run(s0, [None, Some(id)], slideMinutes);
      var s3 := Run(s0, [None, Some(id), Some(id)], slideMinutes);
      var s4 := Run(s0, [None, Some(id), Some(id), None], slideMinutes);
      && [s1.running, s2.running, s3.running, s4.running] == [false, true, true, false]
      && [s1.remaining, s2.remaining, s3.remaining, s4.remaining] == [t, t - 1, t - 2, t]
  {
    var s0 := Initial(slideMinutes);
    var a: Option<nat>, b: Option<nat> := None, Some(id);
    assert [a] == [] + [a];
    assert [a, b] == [a] + [b];
    assert [a, b, b] == [a, b] + [b];
    assert [a, b, b, a] == [a, b, b] + [a];
    RunStep(s0, [], a, slideMinutes);
    RunStep(s0, [a], b, slideMinutes);
    RunStep(s0, [a, b], b, slideMinutes);
    RunStep(s0, [a, b, b], a, slideMinutes);
  }

  /** `k` answers that all show a presentation. */
  predicate AllPresent(answers: seq<Option<nat>>)
  {
    forall i :: 0 <= i < |answers| ==> Present(answers[i])
  }

  /** During a show, a running timer loses exactly one second per poll, without bound
      below, and flashes once: on the poll that starts from zero. */
  lemma {:induction false} DuringShow(s: SlideState, answers: seq<Option<nat>>, slideMinutes: int)
    requires s.ticking && s.running && Present(s.pid) && s.remaining >= 0
    requires AllPresent(answers)
    ensures Run(s, answers, slideMinutes) == s.(remaining := s.remaining - |answers|)
    ensures FlashCount(s, answers, slideMinutes) == if |answers| > s.remaining then 1 else 0
  {
    if answers != [] {
      var prefix := answers[..|answers| - 1];
      assert AllPresent(prefix) by {
        forall i | 0 <= i < |prefix| ensures Present(prefix[i]) { assert prefix[i] == answers[i]; }
      }
      DuringShow(s, prefix, slideMinutes);
    }
  }

  /** With no show, every poll reloads and the timer stays stopped at the full duration. */
  lemma {:induction false} NoShow(s: SlideState, answers: seq<Option<nat>>, slideMinutes: int)
    requires s.ticking && !Present(s.pid)
    requires answers != [] && forall i :: 0 <= i < |answers| ==> !Present(answers[i])
    ensures Run(s, answers, slideMinutes) == s.(total := slideMinutes * 60, remaining := slideMinutes * 60, running := false)
    ensures FlashCount(s, answers, slideMinutes) == 0
  {
    var prefix := answers[..|answers| - 1];
    if prefix != [] {
      NoShow(s, prefix, slideMinutes);
    }
  }

  class SlideTimer {
    var total: int
    var remaining: int
    var running: bool
    var ticking: bool
    var pid: Option<nat>
    const window: Window

    function State(): SlideState
      reads this
    {
      SlideState(total, remaining, running, ticking, pid)
    }

    /** `reload`: the full configured duration, shown at once. */
    method Reload(slideMinutes: int)
      modifies this, window
      ensures State() == Reloaded(old(State()), slideMinutes)
      ensures window.display == Plain(DisplayText(slideMinutes * 60))
      ensures window.styles == old(window.styles) && window.messages == old(window.messages)
      ensures window.pos == old(window.pos)
    {
      total := slideMinutes * 60;
      remaining := total;
      window.UpdateDisplay(remaining);
    }

    /** `start_countdown`: the minutes argument of the common interface is ignored. */
    method StartCountdown(slideMinutes: int)
      modifies this, window
      ensures State() == Start(old(State()), slideMinutes)
      ensures window.display == Plain(DisplayText(slideMinutes * 60))
      ensures window.styles == old(window.styles) && window.messages == old(window.messages)
      ensures window.pos == old(window.pos)
    {
      Reload(slideMinutes);
      running := true;
      ticking := true;
    }

    /** Construction starts the countdown at once. */
    constructor (w: Window, slideMinutes: int)
      modifies w
      ensures State() == Initial(slideMinutes) && window == w
      ensures w.display == Plain(DisplayText(slideMinutes * 60))
      ensures w.styles == old(w.styles) && w.messages == old(w.messages) && w.pos == old(w.pos)
    {
      total, remaining, running, ticking, pid := 0, 0, false, false, None;
      window := w;
      new;
      StartCountdown(slideMinutes);
    }

    /** `update_countdown` with the detector's answer for this poll. */
    method UpdateCountdown(detected: Option<nat>, slideMinutes: int)
      modifies this, window
      ensures State() == Tick(old(State()), detected, slideMinutes)
      ensures window.display ==
                if Detect(old(State()), detected, slideMinutes).running then Plain(DisplayText(remaining))
                else if Reloads(old(State()), detected) then Plain(DisplayText(slideMinutes * 60))
                else old(window.display)
      ensures window.styles == old(window.styles) + if Flashes(old(State()), detected, slideMinutes) then Renderer.FlashFrom(0) else []
      ensures window.messages == old(window.messages) && window.pos == old(window.pos)
    {
      if Present(detected) && !Present(pid) {
        pid := detected;
        running := true;
      } else if !Present(detected) && Present(pid) {
        Reload(slideMinutes);
        pid := None;
        running := false;
      } else if !Present(detected) && !Present(pid) {
        Reload(slideMinutes);
        running := false;
      }
      if running {
        if remaining == 0 {
          window.FlashAlert();
        }
        remaining := remaining - 1;
        window.UpdateDisplay(remaining);
      }
    }

    /** `reset`: stops polling, zeroes the countdown and forgets the show. */
    method Reset()
      modifies this
      ensures State() == ResetState(old(State()))
    {
      ticking := false;
      running := false;
      remaining := 0;
      total := 0;
      pid := None;
    }
  }
}
