/**
 * The countdown settings dialog (ui/settings_dialog.py, class CountdownDialog)
 * without its widgets: the duration spin box (1 to 120 minutes), the warning
 * and critical sliders (0 to 100 percent of the duration), the rule that keeps
 * the critical slider at or below the warning slider, the "{m}分{s}秒" texts
 * beside the sliders, and what `update_config` writes into the in-memory
 * configuration.
 */
module SettingsDialog {
  import opened Wrappers
  import opened Text
  import opened Env

  function Abs(x: int): nat { if x < 0 then -x else x }

  function Clamp(v: int, lo: int, hi: int): int
    requires lo <= hi
  {
    if v < lo then lo else if v > hi then hi else v
  }

  /** Python's `round(n / d)` for d > 0: the nearest integer, ties to the even one. */
  function RoundHalfEven(n: int, d: int): (q: int)
    requires d > 0
    ensures 2 * Abs(n - q * d) <= d
    ensures 2 * Abs(n - q * d) == d ==> q % 2 == 0
  {
    var f, r := n / d, n % d;
    assert n == f * d + r && 0 <= r < d;
    if 2 * r < d then f
    else if 2 * r > d then
      assert n - (f + 1) * d == r - d;
      f + 1
    else if f % 2 == 0 then f
    else
      assert n - (f + 1) * d == r - d;
      f + 1
  }

  lemma MulLe(a: int, b: int, d: int)
    requires a <= b && d >= 0
    ensures a * d <= b * d
  {
    var k := b - a;
    assert b * d == a * d + k * d;
  }

  /** Rounding keeps a lower bound the exact quotient has ... */
  lemma RoundAtLeast(n: int, d: int, lo: int)
    requires d > 0 && lo * d <= n
    ensures lo <= RoundHalfEven(n, d)
  {
    var q := RoundHalfEven(n, d);
    if q < lo {
      MulLe(q, lo - 1, d);
    }
  }

  /** ... and an upper bound. */
  lemma RoundAtMost(n: int, d: int, hi: int)
    requires d > 0 && n <= hi * d
    ensures RoundHalfEven(n, d) <= hi
  {
    var q := RoundHalfEven(n, d);
    if q > hi {
      MulLe(hi + 1, q, d);
    }
  }

  lemma PercentBounds(sec: int, total: int)
    requires total > 0
    ensures 0 <= sec <= total ==> 0 <= RoundHalfEven(sec * 100, total) <= 100
    ensures sec <= 0 ==> RoundHalfEven(sec * 100, total) <= 0
    ensures sec >= total ==> RoundHalfEven(sec * 100, total) >= 100
  {
    if sec >= 0 {
      RoundAtLeast(sec * 100, total, 0);
    }
    if sec <= total {
      RoundAtMost(sec * 100, total, 100);
    }
    if sec <= 0 {
      RoundAtMost(sec * 100, total, 0);
    }
    if sec >= total {
      RoundAtLeast(sec * 100, total, 100);
    }
  }

  /** `sec_to_percent(sec, total)`: 50 without a duration, else the rounded percentage,
      clamped to 0..100. */
  function SecToPercent(sec: int, total: int): (p: int)
    ensures 0 <= p <= 100
    ensures total <= 0 ==> p == 50
    ensures total > 0 && 0 <= sec <= total ==> 2 * Abs(sec * 100 - p * total) <= total
    ensures total > 0 && sec <= 0 ==> p == 0
    ensures total > 0 && sec >= total ==> p == 100
  {
    if total <= 0 then 50
    else
      var pct := RoundHalfEven(sec * 100, total);
      PercentBounds(sec, total);
      Clamp(pct, 0, 100)
  }

  /** The getters' `int(total_sec * (value / 100.0))`: the threshold in seconds for a slider value. */
  function ThresholdSeconds(minutes: int, pct: int): (r: int)
    requires 0 <= minutes && 0 <= pct <= 100
    ensures 0 <= r <= minutes * 60
    ensures r * 100 <= minutes * 60 * pct < (r + 1) * 100
  {
    var n := minutes * 60 * pct;
    assert n <= minutes * 60 * 100;
    TruncDiv(n, 100)
  }

  /** A larger slider value never gives a smaller threshold. */
  lemma ThresholdMonotone(minutes: int, p: int, q: int)
    requires 0 <= minutes && 0 <= p <= q <= 100
    ensures ThresholdSeconds(minutes, p) <= ThresholdSeconds(minutes, q)
  {
    var a, b := ThresholdSeconds(minutes, p), ThresholdSeconds(minutes, q);
    assert minutes * 60 * p <= minutes * 60 * q;
  }

  /** `_update_warn_display` / `_update_crit_display`: "{sec // 60}分{sec % 60}秒". */
  function DurationText(sec: nat): string
  {
    Decimal(sec / 60) + "分" + Decimal(sec % 60) + "秒"
  }

  /** The text reads back: the digits before '分' are the minutes, those between '分'
      and the final '秒' are the seconds below 60, and together they give `sec`. */
  lemma DurationTextReads(sec: nat)
    ensures var parts := Split(DurationText(sec), '分');
            && |parts| == 2 && |parts[1]| >= 1 && parts[1][|parts[1]| - 1] == '秒'
            && AllDigits(parts[0]) && AllDigits(parts[1][..|parts[1]| - 1])
            && ParseDigits(parts[1][..|parts[1]| - 1]) < 60
            && ParseDigits(parts[0]) * 60 + ParseDigits(parts[1][..|parts[1]| - 1]) == sec
  {
    var m, s := Decimal(sec / 60), Decimal(sec % 60);
    var b := s + "秒";
    DigitsExclude(m, '分');
    DigitsExclude(s, '分');
    assert DurationText(sec) == m + ['分'] + b;
    SplitPair(m, b, '分');
    assert b[..|b| - 1] == s;
    ParseDecimal(sec / 60);
    ParseDecimal(sec % 60);
  }

  class CountdownDialog {
    /** The mode the dialog was opened for. */
    const mode: string
    /** The duration spin box (and the slider tied to it), in minutes. */
    var minutes: int
    /** The warning and critical sliders, in percent of the duration. */
    var warn: int
    var crit: int
    /** The "弹窗提醒" check box. */
    var note: bool
    /** The texts beside the two sliders. */
    var warnText: string
    var critText: string

    /** The ranges of the widgets, and the critical slider at or below the warning one. */
    predicate Valid()
      reads this
    {
      1 <= minutes <= 120 && 0 <= crit <= warn <= 100
    }

    /** The threshold the warning slider stands for (`get_warning_threshold`). */
    function WarningThreshold(): (r: int)
      reads this
      requires Valid()
      ensures 0 <= r <= minutes * 60
    {
      ThresholdSeconds(minutes, warn)
    }

    /** The threshold the critical slider stands for (`get_critical_threshold`); never above
        the warning threshold. */
    function CriticalThreshold(): (r: int)
      reads this
      requires Valid()
      ensures 0 <= r <= WarningThreshold()
    {
      ThresholdMonotone(minutes, crit, warn);
      ThresholdSeconds(minutes, crit)
    }

    /** Opening the dialog: the duration is the mode's default (the spin box clamps it
        into 1..120); both sliders show the configured thresholds as percentages of the
        default duration; the critical one is lowered to the warning one if above it. */
    constructor (modeName: string, cfg: AppConfig)
      ensures Valid() && mode == modeName && !note
      ensures var d := if modeName == "slide" then cfg.slideMinutes else cfg.normalMinutes;
              && minutes == Clamp(d, 1, 120)
              && warn == SecToPercent(cfg.warningThreshold, d * 60)
              && crit == Min(SecToPercent(cfg.criticalThreshold, d * 60), warn)
      ensures warnText == DurationText(ThresholdSeconds(minutes, warn))
      ensures critText == DurationText(ThresholdSeconds(minutes, crit))
    {
      mode := modeName;
      var d := if modeName == "slide" then cfg.slideMinutes else cfg.normalMinutes;
      var m := Clamp(d, 1, 120);
      minutes := m;
      var w := SecToPercent(cfg.warningThreshold, d * 60);
      var c := SecToPercent(cfg.criticalThreshold, d * 60);
      if c > w {
        c := w;
      }
      warn, crit, note := w, c, false;
      warnText := DurationText(ThresholdSeconds(m, w));
      critText := DurationText(ThresholdSeconds(m, c));
    }

    /** `_enforce_order`: the critical slider is pulled down to the warning slider when it
        is above it (its text follows); otherwise nothing happens. */
    method EnforceOrder()
      requires 1 <= minutes <= 120 && 0 <= crit <= 100 && 0 <= warn <= 100
      modifies this
      ensures Valid()
      ensures warn == old(warn) && minutes == old(minutes) && note == old(note) && warnText == old(warnText)
      ensures crit == Min(old(crit), warn)
      ensures old(crit) <= warn ==> critText == old(critText)
      ensures old(crit) > warn ==> critText == DurationText(ThresholdSeconds(minutes, crit))
    {
      if crit > warn {
        crit := warn;
        critText := DurationText(ThresholdSeconds(minutes, crit));
      }
    }

    /** Moving the warning slider to `v` (the slider keeps it in 0..100). As with any Qt
        slider, nothing happens when the value does not change; otherwise its text is
        updated, then the order is enforced. */
    method SetWarn(v: int)
      requires Valid()
      modifies this
      ensures Valid()
      ensures warn == Clamp(v, 0, 100) && crit == Min(old(crit), warn)
      ensures minutes == old(minutes) && note == old(note)
      ensures warn == old(warn) ==> warnText == old(warnText) && critText == old(critText)
      ensures warn != old(warn) ==> warnText == DurationText(ThresholdSeconds(minutes, warn))
      ensures old(crit) <= warn ==> critText == old(critText)
      ensures old(crit) > warn ==> critText == DurationText(ThresholdSeconds(minutes, crit))
    {
      var w := Clamp(v, 0, 100);
      if w != warn {
        warn := w;
        warnText := DurationText(ThresholdSeconds(minutes, warn));
        EnforceOrder();
      }
    }

    /** Moving the critical slider to `v`: nothing when the value does not change;
        otherwise clamped into 0..100, its text updated, and pulled down to the warning
        slider when above it. */
    method SetCrit(v: int)
      requires Valid()
      modifies this
      ensures Valid()
      ensures crit == Min(Clamp(v, 0, 100), warn)
      ensures warn == old(warn) && minutes == old(minutes) && note == old(note) && warnText == old(warnText)
      ensures Clamp(v, 0, 100) == old(crit) ==> critText == old(critText)
      ensures Clamp(v, 0, 100) != old(crit) ==> critText == DurationText(ThresholdSeconds(minutes, crit))
    {
      var c := Clamp(v, 0, 100);
      if c != crit {
        crit := c;
        critText := DurationText(ThresholdSeconds(minutes, crit));
        EnforceOrder();
      }
    }

    /** Changing the duration (spin box or slider, clamped into 1..120). The slider texts
        are not connected to it and keep what they showed. */
    method SetMinutes(v: int)
      requires Valid()
      modifies this
      ensures Valid()
      ensures minutes == Clamp(v, 1, 120)
      ensures warn == old(warn) && crit == old(crit) && note == old(note)
      ensures warnText == old(warnText) && critText == old(critText)
    {
      minutes := Clamp(v, 1, 120);
    }

    /** Ticking the reminder check box. */
    method SetNote(b: bool)
      modifies this
      ensures note == b
      ensures minutes == old(minutes) && warn == old(warn) && crit == old(crit)
      ensures warnText == old(warnText) && critText == old(critText)
    {
      note := b;
    }

    /** The in-memory part of `update_config`: the default duration of the dialog's mode
        becomes the chosen minutes and both thresholds the slider values in seconds; the
        rest of the configuration is untouched. */
    function UpdateConfig(cfg: AppConfig): (r: AppConfig)
      reads this
      requires Valid()
      ensures mode == "slide" ==> r.slideMinutes == minutes && r.normalMinutes == cfg.normalMinutes
      ensures mode != "slide" ==> r.normalMinutes == minutes && r.slideMinutes == cfg.slideMinutes
      ensures 0 <= r.criticalThreshold <= r.warningThreshold <= minutes * 60
      ensures r.warningThreshold * 100 <= minutes * 60 * warn < (r.warningThreshold + 1) * 100
      ensures r.criticalThreshold * 100 <= minutes * 60 * crit < (r.criticalThreshold + 1) * 100
      ensures r.(slideMinutes := cfg.slideMinutes, normalMinutes := cfg.normalMinutes,
                 warningThreshold := cfg.warningThreshold, criticalThreshold := cfg.criticalThreshold) == cfg
    {
      var c := cfg.(warningThreshold := WarningThreshold(), criticalThreshold := CriticalThreshold());
      if mode == "slide" then c.(slideMinutes := minutes) else c.(normalMinutes := minutes)
    }

    /** The file part of `update_config`: the `set_key` calls write the mode's default
        duration and the two thresholds into the entries of the `.env` file, each as the
        text `str` gives; the other entries stay. */
    function SaveEntries(file: map<string, string>): (r: map<string, string>)
      reads this
      requires Valid()
      ensures r.Keys == file.Keys + SavedKeys(mode)
      ensures forall k :: k in file && k !in SavedKeys(mode) ==> r[k] == file[k]
    {
      SavedKeysDistinct(mode);
      file[DurationKey(mode) := FormatInt(minutes)]
          ["COLOR_WARNING_THRESHOLD" := FormatInt(WarningThreshold())]
          ["COLOR_CRITICAL_THRESHOLD" := FormatInt(CriticalThreshold())]
    }
  }

  /** Every text `update_config` saves reads back as the value it saved. */
  lemma SavedTextsReadBack(d: CountdownDialog, file: map<string, string>)
    requires d.Valid()
    ensures var r := d.SaveEntries(file);
      && ParseInt(r[DurationKey(d.mode)]) == Some(d.minutes)
      && ParseInt(r["COLOR_WARNING_THRESHOLD"]) == Some(d.WarningThreshold())
      && ParseInt(r["COLOR_CRITICAL_THRESHOLD"]) == Some(d.CriticalThreshold())
  {
    SavedKeysDistinct(d.mode);
    var r := d.SaveEntries(file);
    assert r[DurationKey(d.mode)] == FormatInt(d.minutes);
    assert r["COLOR_WARNING_THRESHOLD"] == FormatInt(d.WarningThreshold());
    assert r["COLOR_CRITICAL_THRESHOLD"] == FormatInt(d.CriticalThreshold());
    ParseFormatInt(d.minutes);
    ParseFormatInt(d.WarningThreshold());
    ParseFormatInt(d.CriticalThreshold());
  }

  /** The variable holding the default duration of a mode. */
  function DurationKey(mode: string): string
  {
    if mode == "slide" then "SLIDE_MODE_DEFAULT_DURATION" else "NORMAL_MODE_DEFAULT_DURATION"
  }

  /** The variables `update_config` writes. */
  function SavedKeys(mode: string): set<string>
  {
    {DurationKey(mode), "COLOR_WARNING_THRESHOLD", "COLOR_CRITICAL_THRESHOLD"}
  }

  lemma SavedKeysDistinct(mode: string)
    ensures DurationKey(mode) != "COLOR_WARNING_THRESHOLD" && DurationKey(mode) != "COLOR_CRITICAL_THRESHOLD"
    ensures "COLOR_WARNING_THRESHOLD" != "COLOR_CRITICAL_THRESHOLD"
  {
    assert "COLOR_WARNING_THRESHOLD"[6] != "COLOR_CRITICAL_THRESHOLD"[6];
    assert DurationKey(mode)[0] != "COLOR_WARNING_THRESHOLD"[0];
  }

  function Min(a: int, b: int): int { if a <= b then a else b }

  /** The dialog lets both sliders sit at the same value, and then saves equal thresholds.
      The configuration's own cross-check (critical strictly below warning) refuses them, so
      loading the saved file again fails and falls back to the defaults for every field. */
  lemma {:induction false} EqualSlidersSaveEqualThresholds(d: CountdownDialog, cfg: AppConfig, file: map<string, string>)
    requires d.Valid() && d.crit == d.warn
    ensures d.UpdateConfig(cfg).criticalThreshold == d.UpdateConfig(cfg).warningThreshold
    ensures forall c: CountdownConfig ::
              (c.criticalThreshold == d.UpdateConfig(cfg).criticalThreshold
               && c.warningThreshold == d.UpdateConfig(cfg).warningThreshold) ==> CheckThresholds(c).Err?
    ensures Build(d.SaveEntries(file)).Err?
    ensures LoadConfig(d.SaveEntries(file)) == Defaults()
  {
    var saved := d.SaveEntries(file);
    SavedTextsReadBack(d, file);
    SavedThresholdsBuildEqual(saved, d.WarningThreshold());
  }

  /** Equal threshold texts reading as the same number never build: either one is out of its
      field's range, or the cross-check refuses critical == warning. */
  lemma SavedThresholdsBuildEqual(env: map<string, string>, w: int)
    requires "COLOR_WARNING_THRESHOLD" in env && "COLOR_CRITICAL_THRESHOLD" in env
    requires ParseInt(env["COLOR_WARNING_THRESHOLD"]) == Some(w)
    requires ParseInt(env["COLOR_CRITICAL_THRESHOLD"]) == Some(w)
    ensures Build(env).Err?
  {
    var warn := IntField(env, "COLOR_WARNING_THRESHOLD", 60, Some(0), Some(3600));
    var crit := IntField(env, "COLOR_CRITICAL_THRESHOLD", 30, Some(0), Some(3600));
    assert warn.Ok? ==> warn.value == w;
    assert crit.Ok? ==> crit.value == w;
    BuildReadsThresholds(env);
  }
}
