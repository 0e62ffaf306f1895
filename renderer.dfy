/**
 * The decisions the painter of the ball takes (core/display/renderer.py,
 * class TimerRenderer): the fill gradient chosen from the remaining time and
 * the two thresholds, the pulse ring, the progress arc, the pause/run
 * indicator in the top-right corner (which the mouse handler hit-tests), and
 * the sequence of label styles a flash alert writes.
 */
module Renderer {
  import opened Wrappers
  import opened Env
  import opened Text
  import opened TimerBase

  // ---------------------------------------------------------------------------
  // Integer helpers for the source's float expressions
  // ---------------------------------------------------------------------------

  function Min(a: int, b: int): int { if a <= b then a else b }

  // ---------------------------------------------------------------------------
  // Fill gradient
  // ---------------------------------------------------------------------------

  datatype Band = NormalBand | WarningBand | CriticalBand

  /** The colour band for the remaining time: an exact zero is drawn normal, an overrun
      or anything up to the critical threshold critical, then warning up to the
      warning threshold, and normal above both. */
  function FillBand(remaining: int, warning: int, critical: int): (b: Band)
    ensures b == NormalBand <==> remaining == 0 || (remaining > 0 && remaining > critical && remaining > warning)
    ensures b == CriticalBand <==> remaining != 0 && (remaining < 0 || remaining <= critical)
    ensures b == WarningBand <==> remaining > 0 && critical < remaining <= warning
  {
    if remaining == 0 then NormalBand
    else if remaining < 0 || remaining <= critical then CriticalBand
    else if remaining <= warning then WarningBand
    else NormalBand
  }

  /** `max(0, c - amount)` on each channel. */
  function Darken(c: Rgb, amount: nat): (d: Rgb)
    ensures d.r == Max(0, c.r - amount) && d.g == Max(0, c.g - amount) && d.b == Max(0, c.b - amount)
    ensures ValidRgb(c) ==> ValidRgb(d) && d.r <= c.r && d.g <= c.g && d.b <= c.b
  {
    Rgb(Max(0, c.r - amount), Max(0, c.g - amount), Max(0, c.b - amount))
  }

  /** The radial gradient of the ball, from its centre colour to its rim colour. */
  datatype Gradient = Gradient(centre: Rgb, rim: Rgb)

  /** The gradient for the band: the configured pair when normal, otherwise the band's
      colour fading to that colour darkened by 50. */
  function FillGradient(remaining: int, cfg: AppConfig): (g: Gradient)
    ensures FillBand(remaining, cfg.warningThreshold, cfg.criticalThreshold) == NormalBand ==>
              g == Gradient(cfg.colorNormal, cfg.colorGradientBottom)
    ensures FillBand(remaining, cfg.warningThreshold, cfg.criticalThreshold) == WarningBand ==>
              g.centre == cfg.colorWarning && g.rim == Darken(cfg.colorWarning, 50)
    ensures FillBand(remaining, cfg.warningThreshold, cfg.criticalThreshold) == CriticalBand ==>
              g.centre == cfg.colorCritical && g.rim == Darken(cfg.colorCritical, 50)
  {
    match FillBand(remaining, cfg.warningThreshold, cfg.criticalThreshold)
    case NormalBand => Gradient(cfg.colorNormal, cfg.colorGradientBottom)
    case CriticalBand => Gradient(cfg.colorCritical, Darken(cfg.colorCritical, 50))
    case WarningBand => Gradient(cfg.colorWarning, Darken(cfg.colorWarning, 50))
  }

  /** With the default thresholds (warning 60 s, critical 30 s) 31 seconds is drawn as a
      warning and 30 seconds as critical: the critical bound is inclusive. */
  lemma DefaultBandBoundary()
    ensures FillBand(31, 60, 30) == WarningBand
    ensures FillBand(30, 60, 30) == CriticalBand
    ensures FillBand(61, 60, 30) == NormalBand && FillBand(60, 60, 30) == WarningBand
    ensures FillBand(0, 60, 30) == NormalBand && FillBand(-1, 60, 30) == CriticalBand
  {
  }

  // ---------------------------------------------------------------------------
  // Pulse ring
  // ---------------------------------------------------------------------------

  /** A pulse ring: its colour, the alpha it reaches at the crest of the pulse, and
      its pen width. */
  datatype Ring = Ring(color: Rgb, peakAlpha: int, width: int)

  const Gold := Ring(Rgb(255, 200, 0), 180, 5)
  const Green := Ring(Rgb(0, 255, 0), 100, 4)
  const Red := Ring(Rgb(255, 0, 0), 100, 4)
  const Amber := Ring(Rgb(255, 200, 0), 150, 6)

  /** Whether the timer has `time_or_income` and it is false (the earnings sub-mode). */
  predicate ShowsIncome(v: TimerView)
  {
    v.timeOrIncome == Some(false)
  }

  /** The ring drawn around the ball: gold in the earnings sub-mode whatever the state;
      otherwise, for a timer with a duration, green while running, red once stopped at
      or past zero, amber while paused with time left; no ring without a duration. */
  function PulseRing(v: TimerView): (r: Option<Ring>)
    ensures ShowsIncome(v) ==> r == Some(Gold)
    ensures !ShowsIncome(v) ==> (r.Some? <==> v.total > 0)
    ensures !ShowsIncome(v) && v.total > 0 && v.running ==> r == Some(Green)
    ensures !ShowsIncome(v) && v.total > 0 && !v.running && v.remaining <= 0 ==> r == Some(Red)
    ensures !ShowsIncome(v) && v.total > 0 && !v.running && v.remaining > 0 ==> r == Some(Amber)
  {
    if ShowsIncome(v) then Some(Gold)
    else if v.total > 0 then
      if v.running then Some(Green)
      else if v.remaining <= 0 then Some(Red)
      else Some(Amber)
    else None
  }

  /** A rectangle with Qt's conventions: top-left corner and size. */
  datatype Rect = Rect(x: int, y: int, w: int, h: int)

  /** Where the ring is drawn: a square 10 pixels smaller than the shorter side,
      centred with floor division. */
  function RingRect(width: int, height: int): (r: Rect)
    ensures r.w == r.h == Min(width, height) - 10
    ensures 2 * r.x + r.w <= width <= 2 * r.x + r.w + 1
    ensures 2 * r.y + r.h <= height <= 2 * r.y + r.h + 1
  {
    var size := Min(width, height) - 10;
    Rect((width - size) / 2, (height - size) / 2, size, size)
  }

  // ---------------------------------------------------------------------------
  // Progress arc
  // ---------------------------------------------------------------------------

  /** The arc's span in sixteenths of a degree, `int((1 - r / t) * 360 * 16)`, drawn only
      while there is a duration and time left. */
  function ArcSpan(remaining: int, total: int): (span: Option<int>)
    ensures span.Some? <==> total > 0 && remaining > 0
    ensures span.Some? && remaining <= total ==>
              0 <= span.value < 5760
              && span.value * total <= (total - remaining) * 5760 < (span.value + 1) * total
    ensures span.Some? && remaining > total ==> span.value <= 0
  {
    if total > 0 && remaining > 0 then
      var q := TruncDiv((total - remaining) * 5760, total);
      Some(q)
    else None
  }

  /** A fresh countdown shows no progress, and at zero no arc is drawn at all. */
  lemma ArcEnds(total: int)
    requires total > 0
    ensures ArcSpan(total, total) == Some(0)
    ensures ArcSpan(0, total) == None
  {
  }

  // ---------------------------------------------------------------------------
  // Status indicator
  // ---------------------------------------------------------------------------

  /** The indicator square in the top-right corner: shown only for a normal timer with a
      duration; its side is 8% of the shorter side (at least 8) and its margin 3% (at
      least 5), so it touches neither edge. */
  function IndicatorRect(v: TimerView, width: int, height: int): (r: Option<Rect>)
    ensures r.Some? <==> v.total > 0 && v.status == "normal"
    ensures r.Some? ==>
              var size := Min(width, height);
              && r.value.w == r.value.h == Max(8, TruncDiv(size * 8, 100))
              && r.value.w >= 8 && r.value.y >= 5
              && r.value.x + r.value.w + r.value.y == width
              && r.value.y == Max(5, TruncDiv(size * 3, 100))
  {
    if v.total > 0 && v.status == "normal" then
      var size := Min(width, height);
      var side := Max(8, TruncDiv(size * 8, 100));
      var margin := Max(5, TruncDiv(size * 3, 100));
      Some(Rect(width - margin - side, margin, side, side))
    else None
  }

  /** `QRect.contains(p)`: inclusive on all four sides, the right edge being x + w - 1. */
  predicate Contains(r: Rect, px: int, py: int)
  {
    r.x <= px <= r.x + r.w - 1 && r.y <= py <= r.y + r.h - 1
  }

  /** On the default 120-pixel ball the indicator is the 9-pixel square at (106, 5). */
  lemma DefaultIndicator(v: TimerView)
    requires v.total > 0 && v.status == "normal"
    ensures IndicatorRect(v, 120, 120) == Some(Rect(106, 5, 9, 9))
    ensures Contains(Rect(106, 5, 9, 9), 114, 13) && !Contains(Rect(106, 5, 9, 9), 115, 13)
  {
  }

  // ---------------------------------------------------------------------------
  // Flash alert
  // ---------------------------------------------------------------------------

  /** The bold style of flash step `step`: red on even steps, white on odd ones. */
  function FlashStyle(step: nat): string
  {
    if step % 2 == 0 then "color: red; font-weight: bold;" else "color: white; font-weight: bold;"
  }

  const SettledStyle := "color: white; font-weight: normal;"

  /** `_flash(step)`: the label styles written from `step` on, one bold style per step
      below 6 and then the settled style. */
  function FlashFrom(step: nat): (styles: seq<string>)
    decreases if step < 6 then 6 - step else 0
  {
    if step < 6 then [FlashStyle(step)] + FlashFrom(step + 1) else [SettledStyle]
  }

  /** A flash alert writes seven styles: red, white, red, white, red, white in bold, then
      plain white. */
  lemma FlashAlertStyles()
    ensures FlashFrom(0) == [FlashStyle(0), FlashStyle(1), FlashStyle(2), FlashStyle(3),
                             FlashStyle(4), FlashStyle(5), SettledStyle]
    ensures FlashStyle(0) == FlashStyle(2) == FlashStyle(4) == "color: red; font-weight: bold;"
    ensures FlashStyle(1) == FlashStyle(3) == FlashStyle(5) == "color: white; font-weight: bold;"
  {
    assert FlashFrom(6) == [SettledStyle];
    assert FlashFrom(5) == [FlashStyle(5)] + FlashFrom(6);
    assert FlashFrom(4) == [FlashStyle(4)] + FlashFrom(5);
    assert FlashFrom(3) == [FlashStyle(3)] + FlashFrom(4);
    assert FlashFrom(2) == [FlashStyle(2)] + FlashFrom(3);
    assert FlashFrom(1) == [FlashStyle(1)] + FlashFrom(2);
  }

  // ---------------------------------------------------------------------------
  // The renderer object
  // ---------------------------------------------------------------------------

  /** What one `paint_timer` call draws. */
  datatype Frame = Frame(fill: Gradient, ring: Option<Ring>, ringRect: Rect, arc: Option<int>, indicator: Option<Rect>)

  class TimerRenderer {
    /** The last indicator square painted, which the mouse handler hit-tests. */
    var indicator: Option<Rect>

    constructor ()
      ensures indicator == None
    {
      indicator := None;
    }

    /** `paint_timer` on a `width` x `height` window: records the indicator square (or
        clears it) and returns what is drawn. */
    method PaintTimer(v: TimerView, width: int, height: int, cfg: AppConfig) returns (f: Frame)
      modifies this
      ensures indicator == IndicatorRect(v, width, height)
      ensures f == Frame(FillGradient(v.remaining, cfg), PulseRing(v), RingRect(width, height),
                         ArcSpan(v.remaining, v.total), indicator)
    {
      var fill := FillGradient(v.remaining, cfg);
      var ring := PulseRing(v);
      var arc := ArcSpan(v.remaining, v.total);
      indicator := IndicatorRect(v, width, height);
      f := Frame(fill, ring, RingRect(width, height), arc, indicator);
    }
  }
}
