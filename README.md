# CountdownBall in Dafny

CountdownBall is a small always-on-top desktop widget: a round "ball" that shows a
countdown. It has three timer modes:
- **normal**: a plain countdown with pause and an optional one-shot warning box;
- **slide**: a countdown that runs only while a presentation is being shown, and may run below zero;
- **cow**: the time left until lunch or the end of the workday, read from the wall clock, with an earnings sub-mode.

Around the timers sit:
- the mode manager, which keeps exactly one timer active;
- the renderer, which derives the colours, rings, progress arc, pause indicator and expiry flash from the timer's state;
- the mouse handler;
- the main window's `MM:SS` label;
- the `.env` configuration validators;
- the colour-line rewrite;
- the settings dialog's sliders;
- the `path|category|alias` shortcut file and the context menu that groups it.

This project models that core and proves properties of it.

## Modelling conventions

- **Classes.** Each object that the program mutates is a class: the three timers, `ModeManager`, `MouseHandler`, `TimerRenderer`, the settings dialog, the shortcut dialog and the main window. Each method states its whole new state.
- **Paired state functions.** Each timer class is paired with a value `…State` datatype and pure step functions (`Tick`, `Detect`, `Countdown`, `ResetState`, …). A method's `ensures` ties its new state to the step function of its old state. Properties over many ticks are lemmas about `Run`, which applies the step function repeatedly.
- **Tick source.** A `QTimer` is a `ticking` flag. A tick only has an effect while the flag is set.
- **Window.** The window is the class `MainWindow.Window`. It has four fields:
  - `display`: the label text, or the number of seconds worked that the earnings label is computed from;
  - `styles`: the log of stylesheets written by the flash;
  - `messages`: the log of message boxes shown;
  - `pos`: the position.
- **Time and detection.** The wall clock is an input `nowUs`, in microseconds since midnight. A cow tick takes one reading per connected handler, because each handler calls `datetime.now()` itself and a message box shown by one handler holds the next back until it is closed. The ISO week number and the presentation detector's answer are also inputs.
- **Configuration.** The shared `APP_CONFIG` singleton is the record `Env.AppConfig`, passed as a parameter.
- **Python semantics.** Python's truthiness of a process id (0 is false), `round` (half to even), `int()` of a float (toward zero) and string ordering are written out exactly.
- **Floats.** Expressions of the form `int(a * (p / 100.0))` are modelled as exact integer division. This matters only where float rounding differs, which is listed under "Left out".

## Details of the code's behaviour

- `CowTimer.reset` (core/timer/cow_timer.py:68-73) stops and zeroes the countdown but keeps the lunch and leaving times (`CowTimers.ResetKeepsTimes`).
- A normal countdown of `m` minutes reaches `00:00` on tick `m*60` and is still running then. Expiry, the stop and the flash happen on tick `m*60 + 1`, not on tick `m*60` (core/timer/normal_timer.py:24-32, `NormalTimers.ExpiresOnce`).
- `get_formatted_time` returns `"00:00"` for every `remaining <= 0` (core/timer/timerbase.py:35-36). The `-MM:SS` form exists only in the main window's `update_display`.
- The flash sequence has no guard against a mode switch in the middle of it. Its styles are written to the window whatever timer is current by then.

## Observations proved about the code

- **The settings dialog can save a configuration that is later refused.** When the warning and critical sliders are equal, the saved thresholds are equal. The loader refuses `crit >= warn` (`Env.CheckThresholds`). So loading the saved file fails, and `load_config` falls back to the defaults for every field (`SettingsDialog.EqualSlidersSaveEqualThresholds`).
- **Switching to cow mode can fail half-way.** `get_cow_income` divides the monthly income by working days times working seconds per day (core/timer/cow_timer.py:78-92).
  - The income field's default is the text `"3000"`, which pydantic does not validate (config/env.py:127). So whenever the variable is unset or loading falls back to the defaults, the income is text (`Env.LoadedIncomeIsText`), and the division raises `TypeError`.
  - A whole income with equal morning and leaving times raises `ZeroDivisionError` (`CowTimers.IncomeRate`).
  - `set_mode` has already reset the old timer and recorded `cow` when the constructor raises (core/mode.py:25-30). The manager is left with mode `cow`, the old timer current and stopped, and the display unchanged. A later `set_mode("cow")` does nothing (`Mode.ModeManager.SetMode`).
  - The equal-sliders fallback above therefore also makes cow mode unusable.
- **Accepting the dialog in slide mode restarts from the old duration.** `SlideTimer.start_countdown` ignores its argument and reloads the configured slide duration. The dialog's new default is stored only afterwards. So `remaining` starts from the previous default while `total_seconds` is set to the new minutes (`Mouse.MouseHandler.DoubleClick`).
- **A `|` in a shortcut's path splits differently when read back.** The extra field moves into the category, and the category's tail moves into the alias (`Shortcuts.PipeInPathMisreads`). The add dialog does not refuse such a path.

## Model

| member | source | states |
|---|---|---|
| TimerBase.FormattedTime | core/timer/timerbase.py:33-38 | `"00:00"` for every remaining ≤ 0, negatives included; for remaining > 0 a zero-padded `MM:SS` text that parses back to exactly `remaining`, 5 characters long below 6000 |
| TimerBase.ClockRoundTrip | core/timer/timerbase.py:37-38 | the `divmod` text of any seconds count is two-or-more digits, ':' and two digits under 60, and minutes*60+seconds read back from it gives the count |
| TimerBase.ClockLength | core/timer/timerbase.py:38 | below 6000 seconds the clock text is exactly 5 characters |
| NormalTimers.Tick | core/timer/normal_timer.py:23-38 | a tick on a positive count takes exactly one second off and leaves total, note and the run flags alone; a tick at or below zero stops the tick source, clears running and pins remaining to 0; remaining is never negative afterwards |
| NormalTimers.ResetIdempotent | core/timer/normal_timer.py:40-45 | reset stops the tick source, clears running and zeroes remaining and total, and resetting twice equals resetting once |
| NormalTimers.RunNonNegative | core/timer/normal_timer.py:24-32 | from a non-negative count, no number of ticks makes remaining negative |
| NormalTimers.RunStopped | core/timer/normal_timer.py:24-27 | once the tick source is stopped, further timeouts change nothing and flash nothing |
| NormalTimers.CountsDown | core/timer/normal_timer.py:16-32 | after `start_countdown(m)`, k ≤ m*60 ticks leave remaining at m*60-k, still running, with no flash — so the display reaches 00:00 on tick m*60 with the timer still running |
| NormalTimers.ExpiresOnce | core/timer/normal_timer.py:16-32 | any n > m*60 ticks after `start_countdown(m)` end stopped at 0 with exactly one flash |
| NormalTimers.FlashesExactlyOnce | core/timer/normal_timer.py:24-29 | after `start_countdown(m)` the flash count is 1 exactly when more than m*60 ticks arrived, else 0 |
| NormalTimers.WarnsOnce | core/timer/normal_timer.py:30-38 | the warning box is shown at most once per run: exactly once iff note is on, 0 ≤ warning < m*60 and enough ticks arrived to reach it, never otherwise |
| NormalTimers.NormalTimer.constructor | core/timer/normal_timer.py:10-14 | a new timer has total 0, remaining 0, not running, tick source stopped, note off |
| NormalTimers.NormalTimer.StartCountdown | core/timer/normal_timer.py:16-21 | total = remaining = minutes*60, running, tick source started, display shows minutes*60, nothing else in the window changes |
| NormalTimers.NormalTimer.UpdateCountdown | core/timer/normal_timer.py:23-38 | the new state is one `Tick` of the old; the display shows the new remaining; the flash's styles are appended exactly when the tick expires; the warning text is appended exactly when note is on and the new remaining equals the warning threshold |
| NormalTimers.NormalTimer.Reset | core/timer/normal_timer.py:40-45 | the new state is the reset of the old (stopped and zeroed, note kept) |
| SlideTimers.DetectCases | core/timer/slide_timer.py:26-38 | none→some records the pid and runs without reloading; some→none reloads to the full duration, clears the pid and stops; none→none reloads and stops; some→some changes nothing, even for a different pid |
| SlideTimers.ResetIdempotent | core/timer/slide_timer.py:53-58 | reset stops the tick source, clears running, zeroes remaining and total and forgets the pid; twice equals once |
| SlideTimers.RunStep | core/timer/slide_timer.py:22-45 | running one more poll appends one tick to the run |
| SlideTimers.ShowExample | core/timer/slide_timer.py:9-45 | from a fresh timer with total T, detector answers [none, id, id, none] give running [false, true, true, false] and remaining [T, T-1, T-2, T] |
| SlideTimers.DuringShow | core/timer/slide_timer.py:41-45 | while a show is running, each poll takes one second off unconditionally, going below zero, and the flash fires once exactly when the polls outnumber the seconds left |
| SlideTimers.NoShow | core/timer/slide_timer.py:30-38 | with no show detected the timer sits reloaded at the full duration, not running, and never flashes |
| SlideTimers.SlideTimer.constructor | core/timer/slide_timer.py:9-14 | a new timer is reloaded to the configured slide duration, running flag set, tick source started, no pid, and the display shows the full duration |
| SlideTimers.SlideTimer.StartCountdown | core/timer/slide_timer.py:16-19 | reload, running set, tick source started |
| SlideTimers.SlideTimer.Reload | core/timer/slide_timer.py:47-50 | total = remaining = slide minutes*60 and the display shows it; nothing else changes |
| SlideTimers.SlideTimer.UpdateCountdown | core/timer/slide_timer.py:22-45 | the new state is one `Tick` of the old for the detector's answer; the flash's styles are appended exactly when a running poll starts at 0; the display shows the latest reload or count |
| SlideTimers.SlideTimer.Reset | core/timer/slide_timer.py:53-58 | the new state is the reset of the old |
| CowTimers.LunchFor | core/timer/cow_timer.py:29-31 | odd ISO weeks use the odd-week lunch time, even weeks the even-week one |
| CowTimers.CowCountdown | core/timer/cow_timer.py:54-66 | before lunch: whole seconds to lunch (at least 0) with the lunch tip; before leaving: whole seconds to leaving with the overtime tip; otherwise -1 with the off tip; the result is ≥ -1 and is -1 exactly when now is past both times |
| CowTimers.AtLunch | core/timer/cow_timer.py:57-64 | at the lunch instant exactly the second branch is taken: the result is the time to leaving, not 0 |
| CowTimers.ZeroOnlyInLastSecond | core/timer/cow_timer.py:57-64 | the countdown reads 0 only within the last second before lunch or leaving |
| CowTimers.CountdownLabel | core/timer/cow_timer.py:43-50 | 0 shows `"00:00"`, a positive value an `MM:SS` text that parses back to it, a negative value `"下班"` |
| CowTimers.CountdownLabelAgrees | core/timer/cow_timer.py:46-48 | for positive values the cow label, the base formatter and the window's text are the same string |
| CowTimers.WorkedSeconds | core/timer/cow_timer.py:109-114 | inside the working window the whole seconds since the start; outside it the whole length of the window |
| CowTimers.SubscriptChar | core/timer/cow_timer.py:97-101 | an ASCII digit maps to the subscript digit of the same value; any other character is kept |
| CowTimers.ToSubscript | core/timer/cow_timer.py:95-101 | length is preserved and each character is mapped on its own |
| CowTimers.SubscriptRoundTrip | core/timer/cow_timer.py:95-101 | mapping subscripts back recovers the original text |
| CowTimers.ResetKeepsTimes | core/timer/cow_timer.py:68-73 | reset stops the tick source and zeroes running, remaining and total but keeps the lunch and leaving times and the connected handlers; reset is idempotent |
| CowTimers.ZeroIffLastSecond | core/timer/cow_timer.py:54-66 | the countdown reads 0 exactly when the reading lies in the last second before lunch, or, lunch passed, before leaving |
| CowTimers.AlertsPerHandler | core/timer/cow_timer.py:38-45 | one message box per countdown handler whose own clock reading lies in the last second before lunch or leaving, none for the other handlers, each box holding a tip |
| CowTimers.AlertsAtOneInstant | core/timer/cow_timer.py:38-45 | when every handler reads the same instant, there is a box per countdown handler if the countdown reads 0 then, and no box otherwise |
| CowTimers.ModalBoxDelaysLaterHandlers | core/timer/cow_timer.py:38-63 | with handlers countdown, earnings, countdown, a first reading half a second before a 12:00 lunch and a box closed at 12:01, exactly one lunch box appears and the label ends at the 21540 seconds to an 18:00 leaving time |
| CowTimers.CowTimer.constructor | core/timer/cow_timer.py:12-26 | when the income computation raises, `raised` holds its exception, the state is the unstarted base state and the window is untouched; otherwise the initial state picks the week's lunch time, computes the countdown once (showing its label and any zero alert), starts the tick source and connects one countdown handler with the time sub-mode on |
| CowTimers.CowTimer.Begin | core/timer/cow_timer.py:20-26 | from the unstarted state: `start_countdown`, then the time sub-mode with one countdown handler; the label shows the countdown and the only messages are the zero alert |
| CowTimers.IncomeRate | core/timer/cow_timer.py:78-92 | raises `TypeError` exactly when the income is text; a whole income raises `ZeroDivisionError` exactly when there are no working days or the morning and leaving times are equal; otherwise the rate times working days times seconds per day is the monthly income |
| CowTimers.CowTimer.StartCountdown | core/timer/cow_timer.py:28-36 | lunch and leaving times from the week parity and config, running, one countdown computed and shown, tick source started |
| CowTimers.CowTimer.UpdateCountdown | core/timer/cow_timer.py:38-52 | total = remaining = the computed countdown, running, the matching label shown and the tip appended exactly when it is 0 |
| CowTimers.CowTimer.UpdateIncomeDisplay | core/timer/cow_timer.py:103-122 | the label becomes the earnings for the clamped worked seconds; the timer state does not change |
| CowTimers.CowTimer.Tick | core/timer/cow_timer.py:21-26 | every connected handler runs in connection order with its own clock reading: the state is the countdown at the last countdown handler's reading, the alerts of all of them are appended, and the last handler's label at its reading is shown |
| CowTimers.CowTimer.Reset | core/timer/cow_timer.py:68-73 | the new state is the reset of the old |
| Mode.StatusIsKnown | core/timer/normal_timer.py:47-48 | each timer reports its own status (`normal`, `slide`, `cow`), and the status identifies the kind |
| Mode.ViewOf | core/mode.py:36-37 | the read-only view of the current timer carries its status, and a time/income flag exactly for the cow timer |
| Mode.ModeManager.constructor | core/mode.py:7-17 | mode is `normal` and the current timer is a fresh normal timer in its initial state |
| Mode.ModeManager.GetMode | core/mode.py:39-40 | the mode is one of the three known names, and it equals the current timer's status exactly when the manager is consistent (true after construction and after every switch that built its timer, false after a failed cow switch) |
| Mode.ModeManager.View | core/mode.py:36-37 | the view carries the current timer's status, which is the manager's mode exactly when the manager is consistent |
| Mode.ModeManager.SetMode | core/mode.py:19-33 | an unknown name fails with `不支持的模式: <name>` and changes nothing; the current mode is a no-op; otherwise the old timer is reset and stopped and the mode becomes the new name; then either the fresh timer is built in its initial state, installed, consistent, and the display shows 0, or (cow only) the constructor's exception is returned, the old timer stays current, the display and messages stay, and a consistent manager becomes inconsistent |
| Mode.ModeManager.Switch | core/mode.py:25-33 | reset the old timer and record the new name, then build the new timer; on success install it and show 0, on failure return the constructor's exception with the old timer current and the display untouched |
| Mode.ModeManager.ResetCurrent | core/mode.py:25-26 | the current timer is left stopped and zeroed |
| Mode.NewTimer | core/mode.py:29-30 | fails exactly for the cow timer whose income computation raises, with that exception and the window untouched; otherwise a fresh timer of the named kind in its initial state, attached to the window, where only the cow timer may show a message as it is built |
| MainWindow.DisplayRoundTrip | ui/main_window.py:53-61 | for remaining ≥ 0 the text is `MM:SS` whose seconds field is under 60 and which reads back as `remaining` |
| MainWindow.DisplayZero | ui/main_window.py:55-60 | 0 shows `"00:00"` |
| MainWindow.DisplayOverrun | ui/main_window.py:57-60 | for r > 0, the text for -r is `"-"` followed by the text for r |
| MainWindow.DisplayAgreesWithFormattedTime | ui/main_window.py:53-61 | for positive counts the window's text equals the timer's own formatted time |
| MainWindow.Window.constructor | ui/main_window.py:30-34 | the label starts as `"00:00"` with no flash styles and no message boxes |
| MainWindow.Window.UpdateDisplay | ui/main_window.py:53-61 | the label becomes the `[-]MM:SS` text of remaining; nothing else changes |
| MainWindow.Window.SetLabel | core/timer/cow_timer.py:43-50 | the label is replaced; nothing else changes |
| MainWindow.Window.FlashAlert | ui/main_window.py:68-69 | the whole flash sequence is appended to the style log; nothing else changes |
| MainWindow.Window.MessageBox | core/timer/normal_timer.py:35-38 | the text is appended to the message log; nothing else changes |
| MainWindow.Window.Move | core/input/mouse.py:28-30 | the position becomes the given point; nothing else changes |
| Renderer.FillBand | core/display/renderer.py:52-66 | exactly one band: normal iff remaining is 0 or above both thresholds, critical iff remaining is non-zero and negative or at most the critical threshold, warning iff positive, above critical and at most warning |
| Renderer.DefaultBandBoundary | core/display/renderer.py:53-63 | with thresholds 60/30: 31 is warning and 30 critical, 61 normal and 60 warning, 0 normal and -1 critical |
| Renderer.Darken | core/display/renderer.py:59 | each channel becomes max(0, c - amount) and stays within [0, c] |
| Renderer.FillGradient | core/display/renderer.py:52-66 | normal band: normal colour to the gradient bottom; warning or critical band: that colour to itself darkened by 50 |
| Renderer.PulseRing | core/display/renderer.py:74-101 | the cow timer's income view always gets the gold ring; otherwise a ring exists iff total > 0, green when running, red when stopped at or below 0, amber when paused above 0 |
| Renderer.RingRect | core/display/renderer.py:46-49 | the ring is a square of side min(w, h) - 10 centred with floor division |
| Renderer.ArcSpan | core/display/renderer.py:107-116 | the arc is drawn iff total > 0 and remaining > 0; its span lies in [0, 5760) when remaining ≤ total and is the truncated elapsed fraction of 5760 |
| Renderer.ArcEnds | core/display/renderer.py:108-110 | a fresh countdown draws a zero-length arc, and at zero no arc is drawn |
| Renderer.IndicatorRect | core/display/renderer.py:118-139 | the indicator exists iff total > 0 and the status is `normal`; its size is at least 8, its margin at least 5, it touches the right edge less the margin and sits the margin below the top |
| Renderer.DefaultIndicator | core/display/renderer.py:120-124 | on the default 120-pixel ball the indicator is the 9×9 square at (106, 5) |
| Renderer.FlashAlertStyles | core/display/renderer.py:27-36 | the flash writes 7 styles: red on even steps, white on odd steps for 6 steps, then the normal white style |
| Renderer.TimerRenderer.constructor | core/display/renderer.py:9-12 | no indicator is recorded yet |
| Renderer.TimerRenderer.PaintTimer | core/display/renderer.py:38-139 | the frame holds the fill gradient, pulse ring, ring square, arc and indicator derived from the timer's view, and the recorded indicator is the one just computed (None when not shown) |
| Mouse.Toggled | core/input/mouse.py:59-70 | with total ≤ 0 nothing changes; otherwise running flips and the tick source follows it; counts and note are untouched |
| Mouse.ToggleTwice | core/input/mouse.py:65-69 | toggling twice restores the running flag (and the whole state when the tick source agreed with it) |
| Mouse.Shifted | core/input/mouse.py:72-82 | the time/income flag flips and exactly one handler for the new sub-mode is appended; earlier handlers stay connected; nothing else changes |
| Mouse.ShiftTwice | core/input/mouse.py:72-82 | shifting twice restores the sub-mode but leaves two more handlers connected |
| Mouse.MouseHandler.constructor | core/input/mouse.py:8-11 | no drag offset is recorded |
| Mouse.MouseHandler.TogglePause | core/input/mouse.py:59-70 | on the normal timer the state becomes its toggle; any other timer is untouched |
| Mouse.MouseHandler.Press | core/input/mouse.py:14-26 | a right press opens the menu; a left press on the indicator toggles pause without recording a drag offset; any other left press records the offset from the window corner and changes no timer |
| Mouse.MouseHandler.Move | core/input/mouse.py:28-30 | the window moves to the pointer less the drag offset only when the left button is held and an offset exists |
| Mouse.MouseHandler.ShiftCowTimeOrIncome | core/input/mouse.py:72-82 | on the cow timer the state becomes its shift; any other timer is untouched |
| Mouse.MouseHandler.DoubleClick | core/input/mouse.py:32-55 | accepted left double click on the normal timer: note taken from the dialog and the countdown restarted with the dialog's minutes; on the slide timer: reloaded to the previously configured duration, then total set to the dialog's minutes*60; in both the returned config is the dialog's update; cancelled or other buttons change nothing; a left double click on the cow timer shifts the sub-mode |
| Mouse.AcceptedDialogSetsDefault | core/input/mouse.py:42-46 | accepting the dialog makes the current mode's configured default duration the dialog's minutes |
| SettingsDialog.RoundHalfEven | ui/settings_dialog.py:135 | the result is within half a unit of n/d, and on an exact half it is even |
| SettingsDialog.PercentBounds | ui/settings_dialog.py:135-136 | rounding the percentage keeps it in [0, 100] for 0 ≤ sec ≤ total, at most 0 below and at least 100 above |
| SettingsDialog.SecToPercent | ui/settings_dialog.py:132-136 | 50 when total ≤ 0; otherwise within [0, 100], the nearest whole percentage inside the range, 0 at or below 0 and 100 at or above total |
| SettingsDialog.ThresholdSeconds | ui/settings_dialog.py:311-317 | the whole seconds of pct percent of the duration, within [0, minutes*60] |
| SettingsDialog.ThresholdMonotone | ui/settings_dialog.py:311-317 | a higher slider never gives a lower threshold |
| SettingsDialog.DurationTextReads | ui/settings_dialog.py:294-306 | the text splits at `分` into the minutes and a seconds part under 60 whose values recombine to the seconds shown |
| SettingsDialog.CountdownDialog.constructor | ui/settings_dialog.py:119-143 | duration from the mode's default; slider percentages from the configured thresholds, critical pulled down to warning; both texts from the sliders; note off |
| SettingsDialog.CountdownDialog.WarningThreshold | ui/settings_dialog.py:311-313 | the warning threshold lies in [0, minutes*60] |
| SettingsDialog.CountdownDialog.CriticalThreshold | ui/settings_dialog.py:315-317 | the critical threshold lies in [0, warning threshold] |
| SettingsDialog.CountdownDialog.EnforceOrder | ui/settings_dialog.py:287-292 | warning unchanged; critical becomes min(critical, warning); a no-op when already in order, otherwise the critical text follows |
| SettingsDialog.CountdownDialog.SetWarn | ui/settings_dialog.py:278-299 | the warning slider takes the clamped value and critical is pulled down to it; texts change only when the value did |
| SettingsDialog.CountdownDialog.SetCrit | ui/settings_dialog.py:279-306 | the critical slider takes the clamped value but never above warning; its text changes only when the value did |
| SettingsDialog.CountdownDialog.SetMinutes | ui/settings_dialog.py:276-277 | spin box and slider agree on the clamped minutes; sliders and texts stay |
| SettingsDialog.CountdownDialog.SetNote | ui/settings_dialog.py:350-352 | the note checkbox takes the given value; nothing else changes |
| SettingsDialog.CountdownDialog.UpdateConfig | ui/settings_dialog.py:319-335 | only the current mode's default duration and the two thresholds change; the thresholds are the sliders' whole seconds and 0 ≤ critical ≤ warning ≤ minutes*60 |
| SettingsDialog.EqualSlidersSaveEqualThresholds | ui/settings_dialog.py:311-344 | equal sliders save equal thresholds; the cross-check refuses every configuration holding them; loading the saved file fails and gives the defaults |
| SettingsDialog.CountdownDialog.SaveEntries | ui/settings_dialog.py:337-344 | the file gains exactly the mode's duration key and the two threshold keys, and every other entry stays |
| SettingsDialog.SavedTextsReadBack | ui/settings_dialog.py:339-344 | each text `update_config` saves reads back as the minutes or threshold it saved |
| SettingsDialog.SavedThresholdsBuildEqual | config/env.py:149-170 | two threshold texts reading as the same number never build: a range check or the cross-check refuses them |
| Env.Preprocess | config/env.py:53-55 | every `：` becomes `:` and every `，` becomes `,`, nothing else changes, length is preserved |
| Env.PreprocessIdempotent | config/env.py:53-55 | normalising twice equals normalising once |
| Env.PreprocessKeepsAscii | config/env.py:53-55 | text without full-width separators is unchanged |
| Env.ParseFormatInt | config/env.py:69 | `int(str(v)) == v` for every integer |
| Env.ValidateIntRange | config/env.py:67-76 | true iff the text parses as an integer within the given bounds, each bound optional |
| Env.ValidateFormattedInt | config/env.py:67-76 | a printed integer passes the range check iff it lies within the bounds |
| Env.RgbFromString | config/env.py:95-100 | success only with three channels, each in [0, 255] |
| Env.RgbValidatorAgreesWithModel | config/env.py:79-103 | the RGB validator accepts exactly the strings `RGBColor.from_string` accepts, and `to_tuple` gives the three parsed values in order |
| Env.RgbRoundTrip | config/env.py:79-103 | a valid colour written as `r,g,b` is accepted and reads back as itself |
| Env.GetTimeValue | config/env.py:177-180 | a successful result is a valid time of day |
| Env.ValidTimeHasValue | config/env.py:177-180 | every text the time validator accepts converts, to the hour and minute written in it |
| Env.TimeRoundTrip | config/env.py:59-64 | a valid time written as `H:MM` passes the validator and converts back to itself |
| Env.CheckThresholds | config/env.py:149-170 | accepted iff critical < warning, warning < max(slide, normal)*60 and critical < max(slide, normal)*60; an accepted config is returned unchanged |
| Env.DefaultsAreValid | config/env.py:106-131 | the default configuration is within every field bound, passes the cross-check (30 < 60 < 480) and has well-formed times |
| Env.DefaultTimesWellFormed | config/env.py:122-125 | the four default times are `H:MM` texts the validator accepts |
| Env.IntField | config/env.py:114-131 | an absent key gives the default; a present key succeeds iff the range check passes, and a success lies within the bounds |
| Env.TimeField | config/env.py:134-146 | an absent key gives the default; a present key succeeds iff the time validator accepts it, and a success is well formed |
| Env.Build | config/env.py:106-170 | a built configuration is within every bound, passes the cross-check and has well-formed times |
| Env.LoadConfig | config/env.py:183-193 | never fails: the built configuration when it validates, the defaults otherwise; either way valid |
| Env.IncomeField | config/env.py:127 | an unset variable gives the unvalidated default text `"3000"`; a set one gives a whole number exactly when it validates |
| Env.LoadedIncomeIsText | config/env.py:127-193 | the loaded income is text exactly when the variable is unset or loading falls back to the defaults, and a whole number otherwise |
| Env.EmptyEnvironmentLoadsDefaults | config/env.py:183-193 | with no variables set the defaults load |
| Color.GradientBottom | core/display/color.py:19-20 | each channel becomes max(0, c - 32) and stays within [0, c] |
| Color.RewriteLines | core/display/color.py:39-52 | every `COLOR_NORMAL=` line becomes the new normal line, every other `COLOR_GRADIENT_BOTTOM=` line the new bottom line, all other lines stay in place; a missing normal then a missing bottom line are appended, growing the file by exactly the missing count |
| Color.UpdateEnvFile | core/display/color.py:29-55 | the rewrite loop with its `updated` set produces exactly `RewriteLines` |
| Color.KeysOfLines | core/display/color.py:40-45 | the written lines start with their own keys, and the bottom line not with the normal key |
| Color.RewriteIdempotent | core/display/color.py:39-52 | rewriting an already rewritten file with the same colour changes nothing |
| Color.LinesReadBack | core/display/color.py:40-45 | the values written for both keys read back through the RGB parser as the chosen colour and its gradient bottom |
| Shortcuts.ParseLineBars | ui/shortcut_dialog.py:26-27 | a line is kept iff it contains at least two `\|` |
| Shortcuts.ParseLineBody | ui/shortcut_dialog.py:26-29 | a parsed line's fields rejoin with `\|` to the line, and path and category contain no `\|` |
| Shortcuts.WellFormedSaves | ui/shortcut_dialog.py:23-39 | an entry whose path and category have no `\|`, no field a `\n`, path no leading and alias no trailing whitespace is saved in a form that reads back |
| Shortcuts.SerialiseAppend | ui/shortcut_dialog.py:37-39 | saving a list writes one `path\|category\|alias` line per entry, in order |
| Shortcuts.LoadCons | ui/shortcut_dialog.py:23-30 | reading proceeds line by line, keeping each parsed line in order |
| Shortcuts.LoadEmpty | ui/shortcut_dialog.py:23-30 | an empty file reads as no entries |
| Shortcuts.SerialiseLoads | ui/shortcut_dialog.py:23-39 | saving then loading returns the same list for entries that save faithfully |
| Shortcuts.PipeInPathMisreads | ui/shortcut_dialog.py:23-39 | a path containing `\|` reads back as a different entry |
| Shortcuts.LoadedSaves | ui/shortcut_dialog.py:23-30 | every entry that was read saves faithfully |
| Shortcuts.ReloadIsStable | ui/shortcut_dialog.py:23-39 | saving what was read and reading it again gives the same list |
| Shortcuts.EntryWellFormed | ui/shortcut_dialog.py:97-102 | the add dialog's entry from texts without `\|` and `\n` saves faithfully |
| Shortcuts.DefaultsWellFormed | ui/shortcut_dialog.py:101-102 | defaulting the category to `未分类` and the alias to the path keeps the entry well formed |
| Shortcuts.Remove | ui/shortcut_dialog.py:173-176 | an entry survives iff it does not match both path and category |
| Shortcuts.RemoveAbsent | ui/shortcut_dialog.py:173-176 | removing a pair that is not there keeps the list as it is |
| Shortcuts.RemoveDrops | ui/shortcut_dialog.py:173-176 | after removal no entry matches the pair |
| Shortcuts.AddedReadsBack | ui/shortcut_dialog.py:104-111 | after adding a well-formed entry the file reads back as the old list plus that entry at the end |
| Shortcuts.DeletedReadsBack | ui/shortcut_dialog.py:171-177 | after deleting, the file reads back as the filtered list, with no entry left for the pair |
| Shortcuts.ShortcutDialog.constructor | ui/shortcut_dialog.py:14-16 | the dialog is bound to the shortcuts file's contents (None when missing) |
| Shortcuts.ShortcutDialog.LoadShortcuts | ui/shortcut_dialog.py:18-33 | the loop returns exactly the parsed entries, none for a missing file |
| Shortcuts.ShortcutDialog.SaveShortcuts | ui/shortcut_dialog.py:35-41 | the file becomes the serialised list |
| Shortcuts.ShortcutDialog.HandleOk | ui/shortcut_dialog.py:96-112 | an empty stripped path is refused and a duplicate (path, category) is refused, both leaving the file; otherwise exactly the new entry is appended and saved |
| Shortcuts.ShortcutDialog.DeleteSelected | ui/shortcut_dialog.py:159-180 | without a selection or a confirmation nothing changes; otherwise the file becomes the list without that path and category |
| Shortcuts.CategoryColumn | ui/shortcut_dialog.py:66 | the categories of the entries, in order |
| Shortcuts.Categories | ui/shortcut_dialog.py:66 | strictly sorted (so duplicate-free), and containing exactly the categories in use |
| Shortcuts.OpenTarget | ui/shortcut_dialog.py:130-137 | opened as a URL iff it starts with `http://` or `https://`, else as a local file, with the text unchanged |
| Shortcuts.OpenTargetExamples | ui/shortcut_dialog.py:132-135 | the test is case-sensitive and needs both slashes |
| Menu.ModeItemsCheckCurrent | ui/menu.py:14-18 | three mode actions with known names; each is checked iff it is the current mode, so at most one is checked and one is exactly when the mode is known |
| Menu.GroupAppend | ui/menu.py:39-40 | one more shortcut extends only its own category's group, at the end |
| Menu.GroupContains | ui/menu.py:39-40 | every shortcut appears in its category's group |
| Menu.GroupFrom | ui/menu.py:39-40 | every action in a group comes from a shortcut of that category |
| Menu.GroupAbsent | ui/menu.py:39-40 | a category nobody uses has an empty group |
| Menu.GroupNonEmpty | ui/menu.py:38-42 | a group is non-empty iff some shortcut has that category |
| Menu.GroupByCategory | ui/menu.py:38-40 | the loop's map has exactly the used categories as keys, each mapped to its group in load order |
| Menu.ShortcutMenuSorted | ui/menu.py:42-50 | no shortcuts give one disabled placeholder; otherwise only submenus, in strictly increasing category order |
| Menu.ShortcutMenuListsEvery | ui/menu.py:38-47 | every shortcut is listed under the submenu of its category |
| Menu.ShortcutMenuEntries | ui/menu.py:42-47 | one submenu per sorted category with its group is the menu |
| Menu.BuildShortcutMenu | ui/menu.py:36-50 | the loop over sorted categories builds exactly the grouped menu |

## Left out

- Qt widgets, layouts, stylesheets other than the flash, and painting calls are not modelled. The renderer's decisions are returned as a `Frame` value instead.
- `QTimer` scheduling and `QTimer.singleShot` are not modelled. A tick source is a flag and each timeout is a method call. The 300 ms flash chain is appended to the window's style log in one step, so its timing and any interleaving with other writes are not captured.
- The pulse factor `abs(sin(phase))*0.5+0.5` and the momentary alpha `int(peak*pulse)` it gives are not modelled, because they are floating point. The rings' peak alphas and pen widths are modelled (`Renderer.Ring`).
- CowTimers.IncomeRate: the income per second is an exact fraction, not a float, and it is not stored on the timer, because the `%.2f` money text that reads it is not modelled (floating point).
- CowTimers.CowTimer.UpdateIncomeDisplay: the label holds the clamped worked seconds the earnings are computed from, not the formatted money text.
- Renderer.ArcSpan: the float expression `int((1 - r/t)*360*16)` is computed with exact rationals. Results can differ by one where float rounding crosses an integer.
- Renderer.IndicatorRect: `int(size*0.08)`, `int(size*0.03)` and the pause-bar sizes are computed exactly, not in floating point.
- SettingsDialog.SecToPercent: `round(sec / total * 100)` is rounded half-even on the exact quotient, not on its float value.
- SettingsDialog.ThresholdSeconds: `int(total * (p / 100.0))` truncates the exact product, not its float value.
- SettingsDialog.CountdownDialog.constructor: the mode name is stored as given, not lower-cased. Every caller passes `normal` or `slide`.
- Env.ParseInt: Python `int()`'s underscores and non-ASCII digits are not accepted.
- Env.ValidateTimeFormat: `strptime` is modelled only as one- or two-digit hour 0-23, ':' and one- or two-digit minute 0-59.
- Pydantic coercion details (bools, floats) are not modelled. Integer fields are read with `int()`, colours and texts are kept as text.
- `.env` creation, `load_dotenv`, `reset_config` and `CountdownBall.reset_timer` are not modelled, because they are file I/O. Only the text transforms are modelled. `set_key` is modelled as an update of the file's entries (`SettingsDialog.CountdownDialog.SaveEntries`); its quoting and its failure path, a printed message, are not.
- Shortcuts.Load: the shortcuts file is a string, or None when missing. Lines are split on `\n` only, so a lone `\r` is not a line break. The read-failure message box is not modelled.
- Shortcuts.ShortcutDialog.SaveShortcuts: the write-failure message box is not modelled.
- The rest of `add_shortcut` and `manage_shortcuts` is not modelled, because it is widget plumbing around `HandleOk` and `DeleteSelected`.
- config/settings.py is not part of this model. The configuration is the record `Env.AppConfig`, passed as a parameter; its income is an `Env.Income` because the loaded value is copied as it is, and `get_color_tuple` is `Env.RgbFromString` with `Env.ToTuple`.
- `datetime.now()` and `isocalendar()` are parameters: microseconds since midnight and the ISO week number. Day boundaries are not modelled.
- The presentation detector (core/system/powerpoint.py) is not part of this model. Its answer is a per-poll `Option<nat>` parameter.
- core/system/autostart.py, core/system/tray.py, utils/Dialog.py, app_start.py, ui/config_dialog.py and ui/ballsize_dialog.py are not part of this model. They are registry, tray, logging, start-up and widget code.
- `set_ball_size`, `center_on_screen`, the about box and `open_color_dialog`'s colour picker are not modelled, because they are widget and I/O code.
- Mode.ModeManager.SetMode: the exception of a failed switch is returned as `Err` with Python's message text. Its traceback, the global exception hook that receives it (utils/Dialog.py) and the unstarted `QTimer` the failed constructor created are not modelled.
- `print` calls and the `win32api.MessageBox` title and flags are not modelled. Only the message text is logged.
