/**
 * Configuration text checks and the configuration model (config/env.py):
 * punctuation normalisation, integer / RGB / time-of-day validators, the
 * bounds and the threshold-versus-duration cross-check of the configuration,
 * and loading it from environment variables with a fallback to the defaults.
 */
module Env {
  import opened Wrappers
  import opened Text

  // ---------------------------------------------------------------------------
  // preprocess_str
  // ---------------------------------------------------------------------------

  function NormalizeChar(c: char): char
  {
    if c == '：' then ':' else if c == '，' then ',' else c
  }

  /** `preprocess_str`: every full-width colon becomes ':' and every full-width comma ','. */
  function Preprocess(text: string): (r: string)
    ensures |r| == |text|
    ensures forall i :: 0 <= i < |text| ==> r[i] == NormalizeChar(text[i])
    ensures '：' !in r && '，' !in r
  {
    if text == [] then [] else [NormalizeChar(text[0])] + Preprocess(text[1..])
  }

  lemma PreprocessIdempotent(text: string)
    ensures Preprocess(Preprocess(text)) == Preprocess(text)
  {
  }

  /** Text without full-width punctuation is left as it is. */
  lemma PreprocessKeepsAscii(text: string)
    requires '：' !in text && '，' !in text
    ensures Preprocess(text) == text
  {
  }

  // ---------------------------------------------------------------------------
  // Integers
  // ---------------------------------------------------------------------------

  /** The value of an optionally signed run of ASCII digits. */
  function ParseSigned(t: string): Option<int>
  {
    if |t| >= 2 && (t[0] == '-' || t[0] == '+') && AllDigits(t[1..]) then
      Some(if t[0] == '-' then -(ParseDigits(t[1..]) as int) else ParseDigits(t[1..]))
    else if |t| >= 1 && AllDigits(t) then Some(ParseDigits(t))
    else None
  }

  /** Python's `int(text)` on ASCII decimal text: surrounding whitespace, an optional sign, then digits. */
  function ParseInt(text: string): Option<int>
  {
    ParseSigned(Strip(text))
  }

  /** Python's `str(v)`. */
  function FormatInt(v: int): string
  {
    if v < 0 then "-" + Decimal(-v) else Decimal(v)
  }

  /** A non-empty run of digits reads as its value. */
  lemma ParseDigitRun(s: string)
    requires AllDigits(s) && |s| >= 1
    ensures ParseInt(s) == Some(ParseDigits(s))
  {
    DigitsStripped(s);
    ParseSignedDigits(s);
  }

  lemma DigitsStripped(s: string)
    requires AllDigits(s) && |s| >= 1
    ensures Strip(s) == s
  {
    DigitsUnpadded(s);
    StripUnpadded(s);
  }

  lemma ParseSignedDigits(s: string)
    requires AllDigits(s) && |s| >= 1
    ensures ParseSigned(s) == Some(ParseDigits(s))
  {
    assert s[0] != '-' && s[0] != '+';
  }

  lemma {:induction false} ParseFormatInt(v: int)
    ensures ParseInt(FormatInt(v)) == Some(v)
  {
    var s := FormatInt(v);
    if v < 0 {
      var d := Decimal(-v);
      ParseDecimal(-v);
      assert s == "-" + d;
      assert s[0] == '-' && s[1..] == d && s[|s| - 1] == d[|d| - 1];
      NotSpace('-');
      NotSpace(d[|d| - 1]);
      StripUnpadded(s);
      assert ParseSigned(s) == Some(-(ParseDigits(d) as int));
    } else {
      ParseDecimal(v);
      ParseDigitRun(s);
    }
  }

  /** `validate_int_range`: the text is an integer within the bounds that are given. */
  function ValidateIntRange(value: string, min: Option<int>, max: Option<int>): (ok: bool)
    ensures ok <==> ParseInt(value).Some?
                    && (min.Some? ==> min.value <= ParseInt(value).value)
                    && (max.Some? ==> ParseInt(value).value <= max.value)
  {
    match ParseInt(value)
    case None => false
    case Some(v) =>
      if min.Some? && v < min.value then false
      else if max.Some? && v > max.value then false
      else true
  }

  /** On the text of a number, the range check is exactly the bounds check on that number. */
  lemma ValidateFormattedInt(v: int, lo: int, hi: int)
    ensures ValidateIntRange(FormatInt(v), Some(lo), Some(hi)) <==> lo <= v <= hi
  {
    ParseFormatInt(v);
  }

  // ---------------------------------------------------------------------------
  // RGB strings
  // ---------------------------------------------------------------------------

  datatype Rgb = Rgb(r: int, g: int, b: int)

  predicate IsByte(c: int) { 0 <= c <= 255 }

  predicate ValidRgb(c: Rgb) { IsByte(c.r) && IsByte(c.g) && IsByte(c.b) }

  /** `int(x.strip())` of one piece. */
  function ParsePiece(piece: string): Option<int>
  {
    ParseInt(Strip(piece))
  }

  /** `[int(x.strip()) for x in pieces]`; None when one piece is not an integer. */
  function ParseAll(pieces: seq<string>): Option<seq<int>>
  {
    ParseEach(pieces, ParsePiece)
  }

  /** Every piece read by `parse`, or None when one of them does not read. */
  function ParseEach(pieces: seq<string>, parse: string -> Option<int>): Option<seq<int>>
  {
    if forall k :: 0 <= k < |pieces| ==> parse(pieces[k]).Some? then
      Some(seq(|pieces|, k requires 0 <= k < |pieces| => parse(pieces[k]).value))
    else None
  }

  /** Pieces that read as the given numbers parse to exactly those numbers. */
  lemma ParseEachOf(pieces: seq<string>, values: seq<int>, parse: string -> Option<int>)
    requires |pieces| == |values|
    requires forall k :: 0 <= k < |pieces| ==> parse(pieces[k]) == Some(values[k])
    ensures ParseEach(pieces, parse) == Some(values)
  {
    var parsed := seq(|pieces|, k requires 0 <= k < |pieces| => parse(pieces[k]).value);
    assert parsed == values;
  }

  lemma ParseEachThree(a: string, b: string, c: string, x: int, y: int, z: int, parse: string -> Option<int>)
    requires parse(a) == Some(x) && parse(b) == Some(y) && parse(c) == Some(z)
    ensures ParseEach([a, b, c], parse) == Some([x, y, z])
  {
    var pieces, values := [a, b, c], [x, y, z];
    forall k | 0 <= k < 3
      ensures parse(pieces[k]) == Some(values[k])
    {
      if k == 0 { assert pieces[k] == a; } else if k == 1 { assert pieces[k] == b; } else { assert pieces[k] == c; }
    }
    ParseEachOf(pieces, values, parse);
  }

  /** The integers of a comma-separated text after normalising its punctuation. */
  function RgbParts(value: string): Option<seq<int>>
  {
    ParseAll(Split(Preprocess(value), ','))
  }

  /** `validate_rgb_string`. */
  function ValidateRgbString(value: string): bool
  {
    match RgbParts(value)
    case None => false
    case Some(ps) => |ps| == 3 && IsByte(ps[0]) && IsByte(ps[1]) && IsByte(ps[2])
  }

  /** `RGBColor.from_string`: the three channels, or the error it raises. */
  function RgbFromString(value: string): (r: Result<Rgb, string>)
    ensures r.Ok? ==> ValidRgb(r.value)
  {
    match RgbParts(value)
    case None => Err("invalid literal for int()")
    case Some(ps) =>
      if |ps| != 3 then Err("RGB值必须包含3个数字")
      else if !(IsByte(ps[0]) && IsByte(ps[1]) && IsByte(ps[2])) then Err("channel out of range")
      else Ok(Rgb(ps[0], ps[1], ps[2]))
  }

  /** `RGBColor.to_tuple`. */
  function ToTuple(c: Rgb): (int, int, int)
  {
    (c.r, c.g, c.b)
  }

  /** The validator accepts exactly the strings the colour model accepts, and on success
      the tuple holds the three numbers of the text, in order. */
  lemma RgbValidatorAgreesWithModel(value: string)
    ensures ValidateRgbString(value) <==> RgbFromString(value).Ok?
    ensures RgbFromString(value).Ok? ==>
      var ps := RgbParts(value).value;
      ToTuple(RgbFromString(value).value) == (ps[0], ps[1], ps[2])
  {
  }

  /** The "r,g,b" text the configuration file stores. */
  function FormatRgb(c: Rgb): string
  {
    FormatInt(c.r) + "," + FormatInt(c.g) + "," + FormatInt(c.b)
  }

  lemma FormattedIntHasNoComma(v: int)
    ensures ',' !in FormatInt(v) && '：' !in FormatInt(v) && '，' !in FormatInt(v)
    ensures FormatInt(v) != [] && Unpadded(FormatInt(v))
  {
    var s := FormatInt(v);
    var d := Decimal(if v < 0 then -v else v);
    assert s[|s| - 1] == d[|d| - 1];
    NotSpace(s[0]);
    NotSpace(d[|d| - 1]);
  }

  /** One written channel reads back as itself. */
  lemma ParsePieceFormat(v: int)
    ensures ParsePiece(FormatInt(v)) == Some(v)
  {
    FormattedIntHasNoComma(v);
    StripUnpadded(FormatInt(v));
    ParseFormatInt(v);
  }

  /** The three written channels read back as the three channels. */
  lemma ParseFormattedChannels(c: Rgb)
    ensures ParseAll([FormatInt(c.r), FormatInt(c.g), FormatInt(c.b)]) == Some([c.r, c.g, c.b])
  {
    ParsePieceFormat(c.r);
    ParsePieceFormat(c.g);
    ParsePieceFormat(c.b);
    ParseEachThree(FormatInt(c.r), FormatInt(c.g), FormatInt(c.b), c.r, c.g, c.b, ParsePiece);
  }

  /** Writing a colour and reading it back gives the same colour. */
  lemma RgbRoundTrip(c: Rgb)
    requires ValidRgb(c)
    ensures ValidateRgbString(FormatRgb(c))
    ensures RgbFromString(FormatRgb(c)) == Ok(c)
  {
    var r, g, b := FormatInt(c.r), FormatInt(c.g), FormatInt(c.b);
    FormattedIntHasNoComma(c.r);
    FormattedIntHasNoComma(c.g);
    FormattedIntHasNoComma(c.b);
    var text := FormatRgb(c);
    assert text == r + [','] + g + [','] + b;
    PreprocessKeepsAscii(text);
    SplitTriple(r, g, b, ',');
    ParseFormattedChannels(c);
  }

  // ---------------------------------------------------------------------------
  // Times of day ("%H:%M")
  // ---------------------------------------------------------------------------

  datatype TimeOfDay = TimeOfDay(hour: int, minute: int)

  predicate ValidTimeOfDay(t: TimeOfDay) { 0 <= t.hour < 24 && 0 <= t.minute < 60 }

  function SecondsOfDay(t: TimeOfDay): int { t.hour * 3600 + t.minute * 60 }

  /** The hour field `strptime`'s "%H" accepts: one digit, or two digits from 00 to 23. */
  predicate HourField(h: string)
  {
    && AllDigits(h)
    && (|h| == 1 || (|h| == 2 && (h[0] <= '1' || (h[0] == '2' && h[1] <= '3'))))
  }

  /** The minute field "%M" accepts: one digit, or two digits from 00 to 59. */
  predicate MinuteField(m: string)
  {
    && AllDigits(m)
    && (|m| == 1 || (|m| == 2 && m[0] <= '5'))
  }

  /** `datetime.strptime(text, "%H:%M")` succeeds: the whole text is hour, ':' and minute. */
  predicate MatchesHourMinute(text: string)
  {
    var parts := Split(text, ':');
    |parts| == 2 && HourField(parts[0]) && MinuteField(parts[1])
  }

  /** `validate_time_format`. */
  function ValidateTimeFormat(value: string): bool
  {
    MatchesHourMinute(Preprocess(value))
  }

  /** `get_time_value`: `hour, minute = map(int, text.split(':'))` then `time(hour, minute)`. */
  function GetTimeValue(text: string): (r: Result<TimeOfDay, string>)
    ensures r.Ok? ==> ValidTimeOfDay(r.value)
  {
    var parts := Split(text, ':');
    if |parts| != 2 then Err("wrong number of values to unpack")
    else
      var hour, minute := ParseInt(parts[0]), ParseInt(parts[1]);
      if hour.None? || minute.None? then Err("invalid literal for int()")
      else if !(0 <= hour.value < 24) then Err("hour must be in 0..23")
      else if !(0 <= minute.value < 60) then Err("minute must be in 0..59")
      else Ok(TimeOfDay(hour.value, minute.value))
  }

  /** An hour field is a run of digits worth less than 24. */
  lemma HourValue(h: string)
    requires HourField(h)
    ensures AllDigits(h) && 1 <= |h| && ParseDigits(h) < 24 && ':' !in h
  {
    if |h| == 2 {
      ParseTwoDigits(h);
    }
  }

  /** A minute field is a run of digits worth less than 60. */
  lemma MinuteValue(m: string)
    requires MinuteField(m)
    ensures AllDigits(m) && 1 <= |m| && ParseDigits(m) < 60 && ':' !in m
  {
    if |m| == 2 {
      ParseTwoDigits(m);
    }
  }

  /** A hour field, ':' and a minute field make a text `strptime` accepts. */
  lemma MatchesFields(h: string, m: string)
    requires HourField(h) && MinuteField(m)
    ensures MatchesHourMinute(h + ":" + m)
  {
    HourValue(h);
    MinuteValue(m);
    SplitPair(h, m, ':');
  }

  /** `get_time_value` on a text whose two fields read as an hour and a minute. */
  lemma GetTimeValueOfFields(text: string, h: string, m: string, hour: int, minute: int)
    requires Split(text, ':') == [h, m]
    requires ParseInt(h) == Some(hour) && ParseInt(m) == Some(minute)
    requires 0 <= hour < 24 && 0 <= minute < 60
    ensures GetTimeValue(text) == Ok(TimeOfDay(hour, minute))
  {
  }

  /** `get_time_value` on a text the field check accepted always yields a time of day,
      made of the two fields of the text. */
  lemma ValidTimeHasValue(text: string)
    requires MatchesHourMinute(text)
    ensures GetTimeValue(text).Ok?
    ensures var parts := Split(text, ':');
            GetTimeValue(text).value == TimeOfDay(ParseDigits(parts[0]), ParseDigits(parts[1]))
  {
    var parts := Split(text, ':');
    assert parts == [parts[0], parts[1]];
    HourValue(parts[0]);
    MinuteValue(parts[1]);
    ParseDigitRun(parts[0]);
    ParseDigitRun(parts[1]);
    GetTimeValueOfFields(text, parts[0], parts[1], ParseDigits(parts[0]), ParseDigits(parts[1]));
  }

  /** "H:MM", the way the default configuration writes times ("8:30"). */
  function FormatTime(t: TimeOfDay): string
    requires ValidTimeOfDay(t)
  {
    Decimal(t.hour) + ":" + Pad2(t.minute)
  }

  /** The two digits of a number from 10 to 99. */
  lemma DecimalTwoDigits(n: nat)
    requires 10 <= n < 100
    ensures Decimal(n) == [DigitChar(n / 10), DigitChar(n % 10)]
  {
  }

  lemma HourFieldOfHour(hour: nat)
    requires hour < 24
    ensures HourField(Decimal(hour))
  {
    if hour >= 10 { DecimalTwoDigits(hour); }
  }

  lemma MinuteFieldOfMinute(minute: nat)
    requires minute < 60
    ensures MinuteField(Pad2(minute))
  {
    if minute >= 10 { DecimalTwoDigits(minute); }
  }

  /** Every valid time of day written as "H:MM" passes the check and reads back unchanged. */
  lemma TimeRoundTrip(t: TimeOfDay)
    requires ValidTimeOfDay(t)
    ensures ValidateTimeFormat(FormatTime(t))
    ensures GetTimeValue(FormatTime(t)) == Ok(t)
  {
    var h, m := Decimal(t.hour), Pad2(t.minute);
    var text := FormatTime(t);
    HourFieldOfHour(t.hour);
    MinuteFieldOfMinute(t.minute);
    MatchesFields(h, m);
    HourValue(h);
    MinuteValue(m);
    PreprocessKeepsAscii(text);
    SplitPair(h, m, ':');
    ParseDecimal(t.hour);
    ParseDigitRun(h);
    ParseDigitRun(m);
    GetTimeValueOfFields(text, h, m, t.hour, t.minute);
  }

  // ---------------------------------------------------------------------------
  // The configuration model
  // ---------------------------------------------------------------------------

  /** `CountdownConfig`: colours as "r,g,b" text, thresholds in seconds, durations in
      minutes, times as "H:MM" text. */
  datatype CountdownConfig = CountdownConfig(
    colorNormal: string, colorGradientBottom: string, colorWarning: string, colorCritical: string,
    warningThreshold: int, criticalThreshold: int,
    slideMinutes: int, normalMinutes: int,
    oddWeekLunch: string, evenWeekLunch: string, afternoonOff: string, morningOn: string,
    incomePerMonth: Income, workingDays: int, ballSize: int)

  /** The monthly income as the configuration holds it. A value read from the environment is
      coerced to a whole number, but the field's default is the text "3000", and pydantic does
      not validate defaults, so the default stays a string. */
  datatype Income = Whole(amount: int) | Unvalidated(text: string)

  /** The field defaults (the same values `DEFAULT_ENV` writes to a fresh file). */
  function Defaults(): CountdownConfig
  {
    CountdownConfig("208,208,208", "176,176,176", "255,160,80", "255,100,100",
                    60, 30, 8, 5, "11:40", "11:55", "20:00", "8:30", Unvalidated("3000"), 25, 120)
  }

  /** The per-field bounds of the model. */
  predicate WithinBounds(c: CountdownConfig)
  {
    && 0 <= c.warningThreshold <= 3600 && 0 <= c.criticalThreshold <= 3600
    && 1 <= c.slideMinutes <= 120 && 1 <= c.normalMinutes <= 120
    && 1 <= c.workingDays <= 31 && 1 <= c.ballSize <= 500
  }

  function Max(a: int, b: int): int { if a >= b then a else b }

  /** `validate_thresholds_vs_durations`: the first rule broken, in the order the source checks them. */
  function CheckThresholds(c: CountdownConfig): (r: Result<CountdownConfig, string>)
    ensures r.Ok? <==> c.criticalThreshold < c.warningThreshold
                       && c.warningThreshold < Max(c.slideMinutes, c.normalMinutes) * 60
                       && c.criticalThreshold < Max(c.slideMinutes, c.normalMinutes) * 60
    ensures r.Ok? ==> r.value == c
  {
    var maxDuration := Max(c.slideMinutes, c.normalMinutes) * 60;
    if c.criticalThreshold >= c.warningThreshold then Err("临界阈值必须小于警告阈值")
    else if c.warningThreshold >= maxDuration then Err("警告阈值必须小于最大倒计时时长")
    else if c.criticalThreshold >= maxDuration then Err("临界阈值必须小于最大倒计时时长")
    else Ok(c)
  }

  /** Whether every time field holds "%H:%M" text. */
  predicate TimesWellFormed(c: CountdownConfig)
  {
    && MatchesHourMinute(c.oddWeekLunch) && MatchesHourMinute(c.evenWeekLunch)
    && MatchesHourMinute(c.afternoonOff) && MatchesHourMinute(c.morningOn)
  }

  /** The defaults lie within bounds, pass the cross-check (30 < 60 < 480) and hold well-formed times. */
  lemma DefaultsAreValid()
    ensures WithinBounds(Defaults()) && CheckThresholds(Defaults()).Ok? && TimesWellFormed(Defaults())
  {
    var d := Defaults();
    assert d.warningThreshold == 60 && d.criticalThreshold == 30;
    assert d.slideMinutes == 8 && d.normalMinutes == 5;
    DefaultTimesWellFormed();
  }

  /** The four default times match "%H:%M". */
  lemma DefaultTimesWellFormed()
    ensures TimesWellFormed(Defaults())
  {
    OddWeekLunchDefault();
    EvenWeekLunchDefault();
    AfternoonOffDefault();
    MorningOnDefault();
  }

  lemma OddWeekLunchDefault() ensures MatchesHourMinute(Defaults().oddWeekLunch) { LiteralTime("11", "40", "11:40"); }
  lemma EvenWeekLunchDefault() ensures MatchesHourMinute(Defaults().evenWeekLunch) { LiteralTime("11", "55", "11:55"); }
  lemma AfternoonOffDefault() ensures MatchesHourMinute(Defaults().afternoonOff) { LiteralTime("20", "00", "20:00"); }
  lemma MorningOnDefault() ensures MatchesHourMinute(Defaults().morningOn) { LiteralTime("8", "30", "8:30"); }

  lemma LiteralTime(h: string, m: string, t: string)
    requires HourField(h) && MinuteField(m) && t == h + ":" + m
    ensures MatchesHourMinute(t)
  {
    MatchesFields(h, m);
  }

  /** An integer field: its default when the variable is unset, else the coerced value within bounds. */
  function IntField(env: map<string, string>, key: string, default: int, lo: Option<int>, hi: Option<int>): (r: Result<int, string>)
    requires lo.Some? ==> lo.value <= default
    requires hi.Some? ==> default <= hi.value
    ensures r.Ok? ==> (lo.Some? ==> lo.value <= r.value) && (hi.Some? ==> r.value <= hi.value)
    ensures key !in env ==> r == Ok(default)
    ensures key in env ==> (r.Ok? <==> ValidateIntRange(env[key], lo, hi))
  {
    if key !in env then Ok(default)
    else if ValidateIntRange(env[key], lo, hi) then Ok(ParseInt(env[key]).value)
    else Err(key)
  }

  /** A time field: its default when unset, else the normalised text if it matches "%H:%M". */
  function TimeField(env: map<string, string>, key: string, default: string): (r: Result<string, string>)
    requires MatchesHourMinute(default)
    ensures r.Ok? ==> MatchesHourMinute(r.value)
    ensures key !in env ==> r == Ok(default)
    ensures key in env ==> (r.Ok? <==> ValidateTimeFormat(env[key]))
  {
    if key !in env then Ok(default)
    else if MatchesHourMinute(Preprocess(env[key])) then Ok(Preprocess(env[key]))
    else Err(key)
  }

  /** The income field: the unvalidated default text when the variable is unset, else the
      coerced whole number. */
  function IncomeField(env: map<string, string>): (r: Result<Income, string>)
    ensures "COW_INCOME_PER_MONTH" !in env ==> r == Ok(Unvalidated("3000"))
    ensures "COW_INCOME_PER_MONTH" in env ==>
              (r.Ok? <==> ValidateIntRange(env["COW_INCOME_PER_MONTH"], None, None)) && (r.Ok? ==> r.value.Whole?)
  {
    var n := IntField(env, "COW_INCOME_PER_MONTH", 0, None, None);
    if "COW_INCOME_PER_MONTH" !in env then Ok(Defaults().incomePerMonth)
    else if n.Err? then Err(n.error)
    else Ok(Whole(n.value))
  }

  function TextField(env: map<string, string>, key: string, default: string): string
  {
    if key in env then env[key] else default
  }

  /** Builds the model from the variables named after its fields, or reports the first failure. */
  function Build(env: map<string, string>): (r: Result<CountdownConfig, string>)
    ensures r.Ok? ==> WithinBounds(r.value) && CheckThresholds(r.value).Ok? && TimesWellFormed(r.value)
  {
    DefaultsAreValid();
    var d := Defaults();
    var warn := IntField(env, "COLOR_WARNING_THRESHOLD", d.warningThreshold, Some(0), Some(3600));
    var crit := IntField(env, "COLOR_CRITICAL_THRESHOLD", d.criticalThreshold, Some(0), Some(3600));
    var slide := IntField(env, "SLIDE_MODE_DEFAULT_DURATION", d.slideMinutes, Some(1), Some(120));
    var normal := IntField(env, "NORMAL_MODE_DEFAULT_DURATION", d.normalMinutes, Some(1), Some(120));
    var odd := TimeField(env, "COW_MODE_ODD_WEEK_LUNCH_TIME", d.oddWeekLunch);
    var even := TimeField(env, "COW_MODE_EVEN_WEEK_LUNCH_TIME", d.evenWeekLunch);
    var off := TimeField(env, "COW_MODE_AFTERNOON_OFF_TIME", d.afternoonOff);
    var on := TimeField(env, "COW_MODE_MOONING_ON_TIME", d.morningOn);
    var income := IncomeField(env);
    var days := IntField(env, "COW_WORKING_DAYS_PER_MONTH", d.workingDays, Some(1), Some(31));
    var ball := IntField(env, "BALL_SIZE", d.ballSize, Some(1), Some(500));
    if warn.Err? then Err(warn.error)
    else if crit.Err? then Err(crit.error)
    else if slide.Err? then Err(slide.error)
    else if normal.Err? then Err(normal.error)
    else if odd.Err? then Err(odd.error)
    else if even.Err? then Err(even.error)
    else if off.Err? then Err(off.error)
    else if on.Err? then Err(on.error)
    else if income.Err? then Err(income.error)
    else if days.Err? then Err(days.error)
    else if ball.Err? then Err(ball.error)
    else
      CheckThresholds(CountdownConfig(
        TextField(env, "COLOR_NORMAL", d.colorNormal),
        TextField(env, "COLOR_GRADIENT_BOTTOM", d.colorGradientBottom),
        TextField(env, "COLOR_WARNING", d.colorWarning),
        TextField(env, "COLOR_CRITICAL", d.colorCritical),
        warn.value, crit.value, slide.value, normal.value,
        odd.value, even.value, off.value, on.value,
        income.value, days.value, ball.value))
  }

  /** `load_config`: never fails; whatever the environment holds, the result is within bounds,
      passes the cross-check and has well-formed times, and it is the defaults whenever
      building from the environment fails. */
  function LoadConfig(env: map<string, string>): (c: CountdownConfig)
    ensures WithinBounds(c) && CheckThresholds(c).Ok? && TimesWellFormed(c)
    ensures Build(env).Ok? ==> c == Build(env).value
    ensures Build(env).Err? ==> c == Defaults()
  {
    DefaultsAreValid();
    match Build(env)
    case Ok(c) => c
    case Err(_) => Defaults()
  }

  /** The loaded income is the default text exactly when the variable is unset or loading falls
      back to the defaults; otherwise it is a whole number. */
  lemma {:induction false} LoadedIncomeIsText(env: map<string, string>)
    ensures LoadConfig(env).incomePerMonth.Unvalidated? <==>
              Build(env).Err? || "COW_INCOME_PER_MONTH" !in env
    ensures Build(env).Ok? && "COW_INCOME_PER_MONTH" in env ==> LoadConfig(env).incomePerMonth.Whole?
  {
    if Build(env).Ok? {
      BuildKeepsIncome(env);
    }
  }

  /** A successful build carries the income field as read. */
  lemma BuildKeepsIncome(env: map<string, string>)
    requires Build(env).Ok?
    ensures IncomeField(env).Ok? && Build(env).value.incomePerMonth == IncomeField(env).value
  {
  }

  /** A successful build carries the two thresholds as their fields read them. */
  lemma BuildReadsThresholds(env: map<string, string>)
    ensures Build(env).Ok? ==>
              && IntField(env, "COLOR_WARNING_THRESHOLD", 60, Some(0), Some(3600)).Ok?
              && IntField(env, "COLOR_CRITICAL_THRESHOLD", 30, Some(0), Some(3600)).Ok?
              && Build(env).value.warningThreshold
                 == IntField(env, "COLOR_WARNING_THRESHOLD", 60, Some(0), Some(3600)).value
              && Build(env).value.criticalThreshold
                 == IntField(env, "COLOR_CRITICAL_THRESHOLD", 30, Some(0), Some(3600)).value
  {
  }

  /** An empty environment loads the defaults. */
  lemma EmptyEnvironmentLoadsDefaults()
    ensures LoadConfig(map[]) == Defaults()
  {
    DefaultsAreValid();
  }

  // ---------------------------------------------------------------------------
  // The configuration the running program reads (APP_CONFIG)
  // ---------------------------------------------------------------------------

  /** The values the components read at run time, with colours and times already parsed. */
  datatype AppConfig = AppConfig(
    colorNormal: Rgb, colorGradientBottom: Rgb, colorWarning: Rgb, colorCritical: Rgb,
    warningThreshold: int, criticalThreshold: int,
    slideMinutes: int, normalMinutes: int,
    oddWeekLunch: TimeOfDay, evenWeekLunch: TimeOfDay, afternoonOff: TimeOfDay, morningOn: TimeOfDay,
    incomePerMonth: Income, workingDays: int, ballSize: int)
}
