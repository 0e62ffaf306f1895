/**
 * The floating window (ui/main_window.py, class CountdownBall) as far as the
 * timers see it: the text of its time label, the styles written to that label
 * by flash alerts, the message boxes it is asked to show, and its position on
 * screen.
 */
module MainWindow {
  import opened Wrappers
  import opened Text
  import opened TimerBase
  import Renderer

  /** What the time label shows: a text, or the earnings for some worked seconds
      (the currency formatting of earnings is floating point and not modelled). */
  datatype Label = Plain(text: string) | Earnings(workedSeconds: int)

  datatype Point = Point(x: int, y: int)

  /** `update_display`: "MM:SS" of |remaining|, with a leading '-' when the countdown has overrun. */
  function DisplayText(remaining: int): string
  {
    if remaining < 0 then "-" + Clock(-remaining) else Clock(remaining)
  }

  /** A non-negative value reads back from the window text as the seconds left. */
  lemma DisplayRoundTrip(remaining: nat)
    ensures ClockShaped(DisplayText(remaining)) && ParseClock(DisplayText(remaining)) == Some(remaining)
  {
    ClockRoundTrip(remaining);
  }

  lemma DisplayZero()
    ensures DisplayText(0) == "00:00"
  {
  }

  /** An overrun of r seconds reads as the text for r with a '-' in front. */
  lemma DisplayOverrun(r: int)
    requires r > 0
    ensures DisplayText(-r) == "-" + DisplayText(r)
  {
  }

  /** For positive values the window text and the timer's own formatted time agree. */
  lemma DisplayAgreesWithFormattedTime(r: int)
    requires r > 0
    ensures DisplayText(r) == FormattedTime(r)
  {
  }

  class Window {
    var display: Label
    var styles: seq<string>
    var messages: seq<string>
    var pos: Point

    constructor (at: Point)
      ensures display == Plain("00:00") && styles == [] && messages == [] && pos == at
    {
      display := Plain("00:00");
      styles := [];
      messages := [];
      pos := at;
    }

    /** `update_display(remaining)`. */
    method UpdateDisplay(remaining: int)
      modifies this
      ensures display == Plain(DisplayText(remaining))
      ensures styles == old(styles) && messages == old(messages) && pos == old(pos)
    {
      display := Plain(DisplayText(remaining));
    }

    /** `time_label.setText(text)`. */
    method SetLabel(l: Label)
      modifies this
      ensures display == l
      ensures styles == old(styles) && messages == old(messages) && pos == old(pos)
    {
      display := l;
    }

    /** `flash_alert`: the renderer's flash writes its sequence of label styles. */
    method FlashAlert()
      modifies this
      ensures styles == old(styles) + Renderer.FlashFrom(0)
      ensures display == old(display) && messages == old(messages) && pos == old(pos)
    {
      styles := styles + Renderer.FlashFrom(0);
    }

    /** A blocking message box with the given text. */
    method MessageBox(text: string)
      modifies this
      ensures messages == old(messages) + [text]
      ensures display == old(display) && styles == old(styles) && pos == old(pos)
    {
      messages := messages + [text];
    }

    /** `move(p)`. */
    method Move(p: Point)
      modifies this
      ensures pos == p
      ensures display == old(display) && styles == old(styles) && messages == old(messages)
    {
      pos := p;
    }
  }
}
