/** Python `datetime` values and the three renderings the application uses:
    `strftime('%Y年%m月%d日 %H:%M')`, `strftime('%Y年%m月%d日')` and
    `isoformat()`. Parsing with `strptime` is not modelled here: callers
    receive it as a parameter that may fail. */
module DateTimes {
  import opened Text
  import opened Wrappers

  /** The fields of a Python `datetime` (naive, as the application stores them). */
  datatype DateTimeFields = DateTimeFields(
    year: int, month: int, day: int,
    hour: int, minute: int, second: int, microsecond: int)

  predicate IsLeapYear(y: int) {
    y % 4 == 0 && (y % 100 != 0 || y % 400 == 0)
  }

  function DaysInMonth(y: int, m: int): int {
    if m == 2 then (if IsLeapYear(y) then 29 else 28)
    else if m == 4 || m == 6 || m == 9 || m == 11 then 30
    else 31
  }

  /** The range checks Python's `datetime` constructor enforces. */
  predicate ValidFields(f: DateTimeFields) {
    && 1 <= f.year <= 9999
    && 1 <= f.month <= 12
    && 1 <= f.day <= DaysInMonth(f.year, f.month)
    && 0 <= f.hour < 24
    && 0 <= f.minute < 60
    && 0 <= f.second < 60
    && 0 <= f.microsecond < 1000000
  }

  /** A Python `datetime`: it cannot hold out-of-range fields. */
  type DateTime = f: DateTimeFields | ValidFields(f)
    witness DateTimeFields(1, 1, 1, 0, 0, 0, 0)

  function Pow10(k: nat): (p: nat)
    ensures p >= 1
  {
    if k == 0 then 1 else 10 * Pow10(k - 1)
  }

  /** A number below `10^k` has at most `k` digits. */
  lemma {:induction false} NatDigitsFit(n: nat, k: nat)
    requires 1 <= k && n < Pow10(k)
    ensures |NatDigits(n)| <= k
  {
    if n >= 10 {
      assert Pow10(1) == 10;
      assert k != 1;
      assert n / 10 < Pow10(k - 1);
      NatDigitsFit(n / 10, k - 1);
    }
  }

  /** Padding a number that fits in `width` digits gives exactly `width` characters. */
  lemma PadExact(n: nat, width: nat)
    requires 1 <= width && n < Pow10(width)
    ensures |Pad(n, width)| == width
  {
    NatDigitsFit(n, width);
  }

  /** `%Y年%m月%d日`: eleven characters, every number zero-padded (CPython
      3.12.5 and later pad `%Y` to four digits on every platform). */
  function FormatJaDate(dt: DateTime): (r: string)
    ensures |r| == 11
    ensures r[..4] == Pad(dt.year, 4) && r[4] == '年'
    ensures r[5..7] == Pad(dt.month, 2) && r[7] == '月'
    ensures r[8..10] == Pad(dt.day, 2) && r[10] == '日'
  {
    PadExact(dt.year, 4);
    PadExact(dt.month, 2);
    PadExact(dt.day, 2);
    Pad(dt.year, 4) + "年" + Pad(dt.month, 2) + "月" + Pad(dt.day, 2) + "日"
  }

  /** `%Y年%m月%d日 %H:%M`: the day rendering, a space and the time of day,
      seventeen characters. */
  function FormatJaMinute(dt: DateTime): (r: string)
    ensures |r| == 17 && r[..11] == FormatJaDate(dt) && r[11] == ' '
    ensures r[12..14] == Pad(dt.hour, 2) && r[14] == ':' && r[15..] == Pad(dt.minute, 2)
  {
    PadExact(dt.hour, 2);
    PadExact(dt.minute, 2);
    FormatJaDate(dt) + " " + Pad(dt.hour, 2) + ":" + Pad(dt.minute, 2)
  }

  /** The date rendering can be read back: its digits give the year, month
      and day. */
  lemma FormatJaDateReadBack(dt: DateTime)
    ensures var r := FormatJaDate(dt);
      DigitsValue(r[..4]) == dt.year && DigitsValue(r[5..7]) == dt.month
      && DigitsValue(r[8..10]) == dt.day
  {
    PadValue(dt.year, 4);
    PadValue(dt.month, 2);
    PadValue(dt.day, 2);
  }

  /** `YYYY-MM-DD`, ten characters. */
  function IsoDate(dt: DateTime): (r: string)
    ensures |r| == 10
    ensures r[..4] == Pad(dt.year, 4) && r[4] == '-' && r[5..7] == Pad(dt.month, 2)
    ensures r[7] == '-' && r[8..] == Pad(dt.day, 2)
  {
    PadExact(dt.year, 4);
    PadExact(dt.month, 2);
    PadExact(dt.day, 2);
    Pad(dt.year, 4) + "-" + Pad(dt.month, 2) + "-" + Pad(dt.day, 2)
  }

  /** `HH:MM:SS`, eight characters. */
  function IsoTime(dt: DateTime): (r: string)
    ensures |r| == 8
    ensures r[..2] == Pad(dt.hour, 2) && r[2] == ':' && r[3..5] == Pad(dt.minute, 2)
    ensures r[5] == ':' && r[6..] == Pad(dt.second, 2)
  {
    PadExact(dt.hour, 2);
    PadExact(dt.minute, 2);
    PadExact(dt.second, 2);
    Pad(dt.hour, 2) + ":" + Pad(dt.minute, 2) + ":" + Pad(dt.second, 2)
  }

  /** Python's `datetime.isoformat()`: `YYYY-MM-DDTHH:MM:SS`, followed by
      `.ffffff` only when the microsecond is not zero. */
  function IsoFormat(dt: DateTime): (r: string)
    ensures |r| == (if dt.microsecond == 0 then 19 else 26)
  {
    PadExact(dt.microsecond, 6);
    IsoDate(dt) + "T" + IsoTime(dt)
      + (if dt.microsecond == 0 then "" else "." + Pad(dt.microsecond, 6))
  }

  /** The digits at `s[from..from + len]`, when they are all digits. */
  function DigitField(s: string, from: nat, len: nat): Option<nat> {
    if from + len <= |s| && forall i :: from <= i < from + len ==> IsDigit(s[i])
    then Some(DigitsValue(s[from..from + len]))
    else None
  }

  /** The separators of the two layouts `isoformat()` writes. */
  predicate IsoShape(s: string) {
    && (|s| == 19 || |s| == 26)
    && s[4] == '-' && s[7] == '-' && s[10] == 'T' && s[13] == ':' && s[16] == ':'
    && (|s| == 26 ==> s[19] == '.')
  }

  /** The numeric fields of an ISO-shaped string, when every field is digits. */
  function IsoFields(s: string): Option<DateTimeFields>
    requires IsoShape(s)
  {
    var us := if |s| == 26 then DigitField(s, 20, 6) else Some(0);
    match (DigitField(s, 0, 4), DigitField(s, 5, 2), DigitField(s, 8, 2))
    case (Some(y), Some(mo), Some(d)) =>
      (match (DigitField(s, 11, 2), DigitField(s, 14, 2), DigitField(s, 17, 2), us)
       case (Some(h), Some(mi), Some(se), Some(u)) => Some(DateTimeFields(y, mo, d, h, mi, se, u))
       case _ => None)
    case _ => None
  }

  /** Python's `datetime.fromisoformat` on the two layouts `isoformat()` writes. */
  function FromIsoFormat(s: string): Option<DateTime> {
    if !IsoShape(s) then None
    else match IsoFields(s)
      case Some(f) => if ValidFields(f) then Some(f) else None
      case None => None
  }

  /** Reading back a padded field of `s`. */
  lemma FieldAt(s: string, from: nat, n: nat, width: nat)
    requires 1 <= width && n < Pow10(width)
    requires from + width <= |s| && s[from..from + width] == Pad(n, width)
    ensures DigitField(s, from, width) == Some(n)
  {
    PadValue(n, width);
    forall i | from <= i < from + width
      ensures IsDigit(s[i])
    {
      assert s[i] == s[from..from + width][i - from];
    }
  }

  /** The layout of an `isoformat()` string, character position by position. */
  lemma IsoLayout(dt: DateTime)
    ensures var s := IsoFormat(dt);
      && s[..19] == IsoDate(dt) + "T" + IsoTime(dt)
      && s[0..4] == Pad(dt.year, 4) && s[5..7] == Pad(dt.month, 2) && s[8..10] == Pad(dt.day, 2)
      && s[11..13] == Pad(dt.hour, 2) && s[14..16] == Pad(dt.minute, 2) && s[17..19] == Pad(dt.second, 2)
      && s[4] == '-' && s[7] == '-' && s[10] == 'T' && s[13] == ':' && s[16] == ':'
      && (dt.microsecond != 0 ==> s[19] == '.' && s[20..26] == Pad(dt.microsecond, 6))
  {
    var s := IsoFormat(dt);
    var date, time := IsoDate(dt), IsoTime(dt);
    var frac := if dt.microsecond == 0 then "" else "." + Pad(dt.microsecond, 6);
    assert s == (date + "T" + time) + frac;
    assert s[..19] == date + "T" + time;
    HeadSlices(s, date, time);
    if dt.microsecond != 0 {
      PadExact(dt.microsecond, 6);
      assert s[19..] == frac;
      assert s[20..26] == frac[1..];
    }
  }

  /** The fields of `date + "T" + time`, read at their positions in `s`. */
  lemma HeadSlices(s: string, date: string, time: string)
    requires |date| == 10 && |time| == 8 && |s| >= 19
    requires s[..19] == date + "T" + time
    ensures s[0..4] == date[..4] && s[4] == date[4] && s[5..7] == date[5..7] && s[7] == date[7] && s[8..10] == date[8..]
    ensures s[11..13] == time[..2] && s[13] == time[2] && s[14..16] == time[3..5] && s[16] == time[5]
    ensures s[17..19] == time[6..]
  {
    var head := date + "T" + time;
    assert s[..10] == head[..10] == date;
    assert s[11..19] == head[11..19] == time;
  }

  /** `fromisoformat` inverts `isoformat`: the ISO strings the API returns
      identify the stored datetime exactly. */
  lemma IsoRoundTrip(dt: DateTime)
    ensures FromIsoFormat(IsoFormat(dt)) == Some(dt)
  {
    var s := IsoFormat(dt);
    IsoDateFields(dt);
    IsoTimeFields(dt);
    IsoFieldsOf(s, dt);
  }

  /** The date fields of an `isoformat()` string read back, and its shape. */
  lemma IsoDateFields(dt: DateTime)
    ensures var s := IsoFormat(dt);
      && IsoShape(s)
      && DigitField(s, 0, 4) == Some(dt.year) && DigitField(s, 5, 2) == Some(dt.month)
      && DigitField(s, 8, 2) == Some(dt.day)
  {
    var s := IsoFormat(dt);
    IsoFormatShape(dt);
    assert s[0..4] == Pad(dt.year, 4) && s[5..7] == Pad(dt.month, 2) && s[8..10] == Pad(dt.day, 2) by {
      IsoLayout(dt);
    }
    assert Pow10(2) == 100;
    assert Pow10(4) == 10000;
    FieldAt(s, 0, dt.year, 4);
    FieldAt(s, 5, dt.month, 2);
    FieldAt(s, 8, dt.day, 2);
  }

  /** An `isoformat()` string has the separators `fromisoformat` expects. */
  lemma IsoFormatShape(dt: DateTime)
    ensures IsoShape(IsoFormat(dt))
  {
    IsoLayout(dt);
  }

  /** The time fields of an `isoformat()` string read back. */
  lemma IsoTimeFields(dt: DateTime)
    ensures var s := IsoFormat(dt);
      && DigitField(s, 11, 2) == Some(dt.hour) && DigitField(s, 14, 2) == Some(dt.minute)
      && DigitField(s, 17, 2) == Some(dt.second)
      && if |s| == 26 then DigitField(s, 20, 6) == Some(dt.microsecond) else dt.microsecond == 0
  {
    IsoClockFields(dt);
    if dt.microsecond != 0 {
      IsoMicroField(dt);
    }
  }

  lemma IsoClockFields(dt: DateTime)
    ensures var s := IsoFormat(dt);
      && DigitField(s, 11, 2) == Some(dt.hour) && DigitField(s, 14, 2) == Some(dt.minute)
      && DigitField(s, 17, 2) == Some(dt.second)
  {
    var s := IsoFormat(dt);
    IsoLayout(dt);
    assert Pow10(2) == 100;
    FieldAt(s, 11, dt.hour, 2);
    FieldAt(s, 14, dt.minute, 2);
    FieldAt(s, 17, dt.second, 2);
  }

  lemma IsoMicroField(dt: DateTime)
    requires dt.microsecond != 0
    ensures var s := IsoFormat(dt); |s| == 26 && DigitField(s, 20, 6) == Some(dt.microsecond)
  {
    var s := IsoFormat(dt);
    IsoLayout(dt);
    assert Pow10(6) == 1000000 by {
      assert Pow10(2) == 100;
      assert Pow10(4) == 10000;
    }
    FieldAt(s, 20, dt.microsecond, 6);
  }

  /** `IsoFields` from the seven fields read one by one. */
  lemma IsoFieldsOf(s: string, f: DateTimeFields)
    requires IsoShape(s)
    requires DigitField(s, 0, 4) == Some(f.year) && DigitField(s, 5, 2) == Some(f.month)
    requires DigitField(s, 8, 2) == Some(f.day) && DigitField(s, 11, 2) == Some(f.hour)
    requires DigitField(s, 14, 2) == Some(f.minute) && DigitField(s, 17, 2) == Some(f.second)
    requires if |s| == 26 then DigitField(s, 20, 6) == Some(f.microsecond) else f.microsecond == 0
    ensures IsoFields(s) == Some(f)
  {
  }

  /** Chronological order: `a` is strictly earlier than `b`, as Python
      compares naive datetimes (field by field, most significant first). */
  predicate Earlier(a: DateTime, b: DateTime) {
    if a.year != b.year then a.year < b.year
    else if a.month != b.month then a.month < b.month
    else if a.day != b.day then a.day < b.day
    else if a.hour != b.hour then a.hour < b.hour
    else if a.minute != b.minute then a.minute < b.minute
    else if a.second != b.second then a.second < b.second
    else a.microsecond < b.microsecond
  }

  /** `Earlier` is a strict total order. */
  lemma EarlierOrder(a: DateTime, b: DateTime, c: DateTime)
    ensures !Earlier(a, a)
    ensures a != b ==> Earlier(a, b) != Earlier(b, a)
    ensures Earlier(a, b) && Earlier(b, c) ==> Earlier(a, c)
  {
  }
}
