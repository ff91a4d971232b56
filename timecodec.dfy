/** Times of day as the alignment code uses them: `datetime.time` values
    read with `time.fromisoformat`, turned into microsecond counts, and the
    midpoint of a segment (ytutils/Concatenate.py, calculateTimestamps). */
module TimeCodec {
  import opened Wrappers

  const MicrosPerSecond: nat := 1_000_000
  const MicrosPerDay: nat := 24 * 3600 * MicrosPerSecond

  /** A `datetime.time` without time zone. */
  datatype Time = Time(hour: nat, minute: nat, second: nat, microsecond: nat)

  /** The ranges `datetime.time(...)` accepts. */
  predicate Valid(t: Time) {
    t.hour < 24 && t.minute < 60 && t.second < 60 && t.microsecond < MicrosPerSecond
  }

  /** The `ValueError` raised by `fromisoformat` or by `time(...)`. */
  datatype TimeError = MalformedTimestamp

  /** `(hour * 3600 + minute * 60 + second) * 10**6 + microsecond`. */
  function ToMicros(t: Time): (us: nat)
    requires Valid(t)
    ensures us < MicrosPerDay
  {
    (t.hour * 3600 + t.minute * 60 + t.second) * MicrosPerSecond + t.microsecond
  }

  /** The `divmod` chain that turns a microsecond count back into a time. */
  function FromMicros(us: nat): (t: Time)
    requires us < MicrosPerDay
    ensures Valid(t) && ToMicros(t) == us
  {
    var hours := us / (3600 * MicrosPerSecond);
    var rem := us % (3600 * MicrosPerSecond);
    var minutes := rem / (60 * MicrosPerSecond);
    var rem' := rem % (60 * MicrosPerSecond);
    Time(hours, minutes, rem' / MicrosPerSecond, rem' % MicrosPerSecond)
  }

  /** Decomposing the microsecond count of a valid time gives the time back. */
  lemma FromToMicros(t: Time)
    requires Valid(t)
    ensures FromMicros(ToMicros(t)) == t
  {
    var us := ToMicros(t);
    var r := t.minute * 60 * MicrosPerSecond + t.second * MicrosPerSecond + t.microsecond;
    assert us == t.hour * (3600 * MicrosPerSecond) + r;
    assert r < 3600 * MicrosPerSecond;
    var r' := t.second * MicrosPerSecond + t.microsecond;
    assert r == t.minute * (60 * MicrosPerSecond) + r';
  }

  /** Python compares naive times field by field. */
  predicate TimeLe(a: Time, b: Time) {
    a.hour < b.hour
    || (a.hour == b.hour && (a.minute < b.minute
    || (a.minute == b.minute && (a.second < b.second
    || (a.second == b.second && a.microsecond <= b.microsecond)))))
  }

  /** Comparing times is comparing their microsecond counts, which is why
      the model keeps scene and segment instants as counts. */
  lemma TimeLeIffMicros(a: Time, b: Time)
    requires Valid(a) && Valid(b)
    ensures TimeLe(a, b) <==> ToMicros(a) <= ToMicros(b)
  {
    var sa := (a.hour * 3600 + a.minute * 60 + a.second);
    var sb := (b.hour * 3600 + b.minute * 60 + b.second);
    assert ToMicros(a) == sa * MicrosPerSecond + a.microsecond;
    assert ToMicros(b) == sb * MicrosPerSecond + b.microsecond;
    assert sa < sb ==> ToMicros(a) < ToMicros(b);
    assert sb < sa ==> ToMicros(b) < ToMicros(a);
  }

  // ---------------------------------------------------------------------
  // Reading `HH[:MM[:SS[.fff[fff]]]]`

  predicate IsDigit(c: char) { '0' <= c <= '9' }

  predicate AllDigits(s: string) {
    forall i :: 0 <= i < |s| ==> IsDigit(s[i])
  }

  /** `int(s)` for a string of ASCII digits. */
  function DigitsValue(s: string): (n: nat)
    requires AllDigits(s)
    ensures n < Pow10(|s|)
    decreases |s|
  {
    if s == [] then 0
    else DigitsValue(s[..|s| - 1]) * 10 + (s[|s| - 1] as int - '0' as int)
  }

  function Pow10(k: nat): (p: nat)
    ensures p >= 1
  {
    if k == 0 then 1 else 10 * Pow10(k - 1)
  }

  /** `datetime.time(h, m, s, us)`, which raises on out-of-range fields. */
  function MakeTime(h: nat, m: nat, s: nat, us: nat): (r: Result<Time, TimeError>)
    ensures r.Ok? <==> Valid(Time(h, m, s, us))
    ensures r.Ok? ==> r.value == Time(h, m, s, us)
  {
    if Valid(Time(h, m, s, us)) then Ok(Time(h, m, s, us)) else Err(MalformedTimestamp)
  }

  /** `time.fromisoformat(s)` for strings without a time-zone suffix: two
      digits of hour, then optionally `:` and two digits of minute, then
      optionally `:` and two digits of second, then optionally `.` and
      exactly three or six digits of fraction (three digits are
      milliseconds). Anything else raises `ValueError`. The reading goes
      field by field, one function per optional part. */
  function Parse(s: string): (r: Result<Time, TimeError>)
    ensures r.Ok? ==> Valid(r.value)
  {
    if |s| < 2 || !AllDigits(s[..2]) then Err(MalformedTimestamp)
    else ParseMinute(DigitsValue(s[..2]), s[2..])
  }

  /** What may follow the hour: nothing, or `:MM` and what follows it. */
  function ParseMinute(h: nat, rest: string): (r: Result<Time, TimeError>)
    ensures r.Ok? ==> Valid(r.value)
  {
    if rest == [] then MakeTime(h, 0, 0, 0)
    else if rest[0] != ':' || |rest| < 3 || !AllDigits(rest[1..3]) then Err(MalformedTimestamp)
    else ParseSecond(h, DigitsValue(rest[1..3]), rest[3..])
  }

  /** What may follow the minute: nothing, or `:SS` and what follows it. */
  function ParseSecond(h: nat, m: nat, rest: string): (r: Result<Time, TimeError>)
    ensures r.Ok? ==> Valid(r.value)
  {
    if rest == [] then MakeTime(h, m, 0, 0)
    else if rest[0] != ':' || |rest| < 3 || !AllDigits(rest[1..3]) then Err(MalformedTimestamp)
    else ParseFraction(h, m, DigitsValue(rest[1..3]), rest[3..])
  }

  /** What may follow the second: nothing, `.fff` or `.ffffff`. */
  function ParseFraction(h: nat, m: nat, sec: nat, rest: string): (r: Result<Time, TimeError>)
    ensures r.Ok? ==> Valid(r.value)
  {
    if rest == [] then MakeTime(h, m, sec, 0)
    else if rest[0] != '.' then Err(MalformedTimestamp)
    else
      var f := rest[1..];
      if |f| == 3 && AllDigits(f) then MakeTime(h, m, sec, DigitsValue(f) * 1000)
      else if |f| == 6 && AllDigits(f) then MakeTime(h, m, sec, DigitsValue(f))
      else Err(MalformedTimestamp)
  }

  // ---------------------------------------------------------------------
  // Writing times back (`time.isoformat()`), the partner of Parse

  function DigitChar(d: nat): (c: char)
    requires d < 10
    ensures IsDigit(c) && c as int - '0' as int == d
  {
    ('0' as int + d) as char
  }

  /** `n` written with exactly `k` digits, leading zeros included. */
  function Pad(n: nat, k: nat): (s: string)
    requires n < Pow10(k)
    ensures |s| == k && AllDigits(s) && DigitsValue(s) == n
    decreases k
  {
    if k == 0 then []
    else
      var s := Pad(n / 10, k - 1) + [DigitChar(n % 10)];
      assert s[..|s| - 1] == Pad(n / 10, k - 1);
      s
  }

  /** A string of digits is the padded rendering of its own value. */
  lemma {:induction false} PadDigits(d: string)
    requires AllDigits(d)
    ensures Pad(DigitsValue(d), |d|) == d
    decreases |d|
  {
    if d != [] {
      var init := d[..|d| - 1];
      var n := DigitsValue(d);
      PadDigits(init);
      assert n / 10 == DigitsValue(init) && n % 10 == d[|d| - 1] as int - '0' as int;
      assert DigitChar(n % 10) == d[|d| - 1];
      assert init + [d[|d| - 1]] == d;
    }
  }

  /** `time.isoformat()`: `HH:MM:SS`, followed by `.ffffff` when the
      microsecond field is not zero. */
  function Format(t: Time): (s: string)
    requires Valid(t)
    ensures |s| == 8 || |s| == 15
  {
    var hms := Pad(t.hour, 2) + ":" + Pad(t.minute, 2) + ":" + Pad(t.second, 2);
    if t.microsecond == 0 then hms else hms + "." + Pad(t.microsecond, 6)
  }

  /** The five ways `fromisoformat` accepts a time to be written. */
  datatype Shape = HourOnly | HourMinute | Seconds | Millis | Micros

  /** The fields a shape leaves out are zero (three fraction digits are
      whole milliseconds). */
  predicate Fits(t: Time, shape: Shape) {
    match shape
    case HourOnly => t.minute == 0 && t.second == 0 && t.microsecond == 0
    case HourMinute => t.second == 0 && t.microsecond == 0
    case Seconds => t.microsecond == 0
    case Millis => t.microsecond % 1000 == 0
    case Micros => true
  }

  /** `HH`, `HH:MM`, `HH:MM:SS`, `HH:MM:SS.fff` or `HH:MM:SS.ffffff`. */
  function Render(t: Time, shape: Shape): (s: string)
    requires Valid(t)
    ensures 2 <= |s| <= 15
  {
    Pad(t.hour, 2) + MinuteText(t, shape)
  }

  function MinuteText(t: Time, shape: Shape): (s: string)
    requires Valid(t)
    ensures |s| <= 13
  {
    if shape == HourOnly then "" else ":" + Pad(t.minute, 2) + SecondText(t, shape)
  }

  function SecondText(t: Time, shape: Shape): (s: string)
    requires Valid(t)
    ensures |s| <= 10
  {
    if shape == HourOnly || shape == HourMinute then "" else ":" + Pad(t.second, 2) + FractionText(t, shape)
  }

  function FractionText(t: Time, shape: Shape): (s: string)
    requires Valid(t)
    ensures |s| <= 7
  {
    match shape
    case Millis => "." + Pad(t.microsecond / 1000, 3)
    case Micros => "." + Pad(t.microsecond, 6)
    case _ => ""
  }

  /** `isoformat` writes the seconds shape or the microseconds shape. */
  lemma FormatIsRender(t: Time)
    requires Valid(t)
    ensures Format(t) == Render(t, if t.microsecond == 0 then Seconds else Micros)
  {
    var shape := if t.microsecond == 0 then Seconds else Micros;
    var hh, mm, ss, frac := Pad(t.hour, 2), Pad(t.minute, 2), Pad(t.second, 2), FractionText(t, shape);
    MinuteTextUnfold(t, shape);
    SecondTextUnfold(t, shape);
    assert Render(t, shape) == hh + MinuteText(t, shape);
    Regroup(hh, mm, ss, frac);
    if t.microsecond == 0 {
      assert hh + ":" + mm + ":" + ss + frac == hh + ":" + mm + ":" + ss;
    }
  }

  lemma Regroup(hh: string, mm: string, ss: string, frac: string)
    ensures hh + (":" + mm + (":" + ss + frac)) == hh + ":" + mm + ":" + ss + frac
  {
  }

  /** Reading a field: `sep`, two digits, and the rest. */
  lemma ReadField(sep: char, n: nat, rest: string)
    requires n < 100
    ensures var s := [sep] + Pad(n, 2) + rest;
      |s| >= 3 && s[0] == sep && s[1..3] == Pad(n, 2) && s[3..] == rest
  {
  }

  lemma FractionTextParse(t: Time, shape: Shape)
    requires Valid(t) && Fits(t, shape)
    ensures ParseFraction(t.hour, t.minute, t.second, FractionText(t, shape)) == Ok(t)
  {
    var f := FractionText(t, shape);
    if shape == Millis {
      assert f[1..] == Pad(t.microsecond / 1000, 3);
    } else if shape == Micros {
      assert f[1..] == Pad(t.microsecond, 6);
    }
  }

  lemma SecondTextParse(t: Time, shape: Shape)
    requires Valid(t) && Fits(t, shape)
    ensures ParseSecond(t.hour, t.minute, SecondText(t, shape)) == Ok(t)
  {
    if shape != HourOnly && shape != HourMinute {
      ReadField(':', t.second, FractionText(t, shape));
      FractionTextParse(t, shape);
    }
  }

  lemma MinuteTextParse(t: Time, shape: Shape)
    requires Valid(t) && Fits(t, shape)
    ensures ParseMinute(t.hour, MinuteText(t, shape)) == Ok(t)
  {
    if shape != HourOnly {
      ReadField(':', t.minute, SecondText(t, shape));
      SecondTextParse(t, shape);
    }
  }

  /** Every rendering of a time reads back as that time. */
  lemma RenderParse(t: Time, shape: Shape)
    requires Valid(t) && Fits(t, shape)
    ensures Parse(Render(t, shape)) == Ok(t)
  {
    var s := Render(t, shape);
    assert s[..2] == Pad(t.hour, 2) && s[2..] == MinuteText(t, shape);
    MinuteTextParse(t, shape);
  }

  /** Reading what `isoformat` wrote gives the same time, so the same
      microsecond instant. */
  lemma FormatParse(t: Time)
    requires Valid(t)
    ensures Parse(Format(t)) == Ok(t)
    ensures ToMicros(Parse(Format(t)).value) == ToMicros(t)
  {
    FormatIsRender(t);
    RenderParse(t, if t.microsecond == 0 then Seconds else Micros);
  }

  /** The fraction that was read is the one its shape writes. */
  lemma FractionTextOfParse(h: nat, m: nat, sec: nat, rest: string) returns (shape: Shape)
    requires ParseFraction(h, m, sec, rest).Ok?
    ensures var t := ParseFraction(h, m, sec, rest).value;
      t.hour == h && t.minute == m && t.second == sec
      && shape != HourOnly && shape != HourMinute && Fits(t, shape) && rest == FractionText(t, shape)
  {
    var t := ParseFraction(h, m, sec, rest).value;
    if rest == [] {
      shape := Seconds;
    } else {
      var f := rest[1..];
      PadDigits(f);
      assert rest == "." + f;
      if |f| == 3 {
        assert t.microsecond / 1000 == DigitsValue(f);
        shape := Millis;
      } else {
        shape := Micros;
      }
    }
  }

  lemma FieldText(rest: string, field: string, after: string)
    requires |rest| >= 3 && rest[0] == ':' && field == rest[1..3] && after == rest[3..]
    ensures rest == ":" + field + after
  {
  }

  lemma MinuteTextUnfold(t: Time, shape: Shape)
    requires Valid(t) && shape != HourOnly
    ensures MinuteText(t, shape) == ":" + Pad(t.minute, 2) + SecondText(t, shape)
  {
  }

  lemma SecondTextUnfold(t: Time, shape: Shape)
    requires Valid(t) && shape != HourOnly && shape != HourMinute
    ensures SecondText(t, shape) == ":" + Pad(t.second, 2) + FractionText(t, shape)
  {
  }

  lemma SecondTextOfParse(h: nat, m: nat, rest: string) returns (shape: Shape)
    requires ParseSecond(h, m, rest).Ok?
    ensures var t := ParseSecond(h, m, rest).value;
      t.hour == h && t.minute == m && shape != HourOnly && Fits(t, shape) && rest == SecondText(t, shape)
  {
    if rest == [] {
      shape := HourMinute;
    } else {
      var field := rest[1..3];
      var sec := DigitsValue(field);
      assert ParseSecond(h, m, rest) == ParseFraction(h, m, sec, rest[3..]);
      shape := FractionTextOfParse(h, m, sec, rest[3..]);
      var t := ParseFraction(h, m, sec, rest[3..]).value;
      assert Valid(t) && t.second == sec;
      PadDigits(field);
      FieldText(rest, field, FractionText(t, shape));
      SecondTextUnfold(t, shape);
    }
  }

  lemma MinuteTextOfParse(h: nat, rest: string) returns (shape: Shape)
    requires ParseMinute(h, rest).Ok?
    ensures var t := ParseMinute(h, rest).value;
      t.hour == h && Fits(t, shape) && rest == MinuteText(t, shape)
  {
    if rest == [] {
      shape := HourOnly;
    } else {
      var field := rest[1..3];
      var m := DigitsValue(field);
      assert ParseMinute(h, rest) == ParseSecond(h, m, rest[3..]);
      shape := SecondTextOfParse(h, m, rest[3..]);
      var t := ParseSecond(h, m, rest[3..]).value;
      assert Valid(t) && t.minute == m;
      PadDigits(field);
      FieldText(rest, field, SecondText(t, shape));
      MinuteTextUnfold(t, shape);
    }
  }

  /** The converse of RenderParse: the strings `fromisoformat` accepts are
      exactly the five renderings of valid times, and every other string
      raises. */
  lemma ParseIsRender(s: string)
    requires Parse(s).Ok?
    ensures exists shape :: Fits(Parse(s).value, shape) && s == Render(Parse(s).value, shape)
  {
    var shape := MinuteTextOfParse(DigitsValue(s[..2]), s[2..]);
    PadDigits(s[..2]);
    assert s == s[..2] + s[2..];
    assert s == Render(Parse(s).value, shape);
  }

  // ---------------------------------------------------------------------
  // calculateTimestamps

  datatype Timestamps =
    | StartEnd(start: Time, end: Time)
    | StartEndMid(start: Time, end: Time, mid: Time)

  /** The midpoint instant: `(start_us + end_us) / 2` in Python is a float
      division, which is exact below 2^53; the `divmod` chain and the `int`
      truncation that follow round it down to a whole microsecond. */
  function Midpoint(start: Time, end: Time): (mid: Time)
    requires Valid(start) && Valid(end)
    ensures Valid(mid)
    ensures ToMicros(mid) == (ToMicros(start) + ToMicros(end)) / 2
    ensures ToMicros(start) <= ToMicros(end) ==> ToMicros(start) <= ToMicros(mid) <= ToMicros(end)
  {
    FromMicros((ToMicros(start) + ToMicros(end)) / 2)
  }

  /** `calculateTimestamps(row, mid_timestamp)`: reads both times (start
      first, so a bad start is reported even when the end is bad too) and,
      when asked, adds the midpoint. */
  function CalculateTimestamps(startTime: string, endTime: string, midTimestamp: bool)
    : (r: Result<Timestamps, TimeError>)
    ensures r.Ok? <==> Parse(startTime).Ok? && Parse(endTime).Ok?
    ensures r.Ok? ==> r.value.start == Parse(startTime).value && r.value.end == Parse(endTime).value
    ensures r.Ok? ==> (r.value.StartEndMid? <==> midTimestamp)
    ensures r.Ok? && midTimestamp ==> Valid(r.value.mid)
    ensures r.Ok? && midTimestamp ==>
      2 * ToMicros(r.value.mid) <= ToMicros(r.value.start) + ToMicros(r.value.end) <= 2 * ToMicros(r.value.mid) + 1
  {
    match Parse(startTime)
    case Err(e) => Err(e)
    case Ok(start) =>
      match Parse(endTime)
      case Err(e) => Err(e)
      case Ok(end) =>
        if !midTimestamp then Ok(StartEnd(start, end))
        else Ok(StartEndMid(start, end, Midpoint(start, end)))
  }

  /** A segment's midpoint lies between its start and its end. */
  lemma MidpointBetween(startTime: string, endTime: string)
    requires CalculateTimestamps(startTime, endTime, true).Ok?
    ensures var ts := CalculateTimestamps(startTime, endTime, true).value;
      ToMicros(ts.start) <= ToMicros(ts.end) ==>
        ToMicros(ts.start) <= ToMicros(ts.mid) <= ToMicros(ts.end)
  {
  }
}
