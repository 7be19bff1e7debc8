/**
 * Wall-clock time of day as the medicine pages handle it: a scheduled time is an
 * `HH:MM` string, the current time is a number of seconds since local midnight,
 * and `now` is printed as a zero-padded `HH:MM` label.
 */
module Clock {
  import opened Text

  /** Seconds since local midnight; `Date` values are reduced to this. */
  type SecondOfDay = n: int | 0 <= n < 86400

  predicate IsDigit(c: char) {
    '0' <= c <= '9'
  }

  function DigitValue(c: char): (d: nat)
    requires IsDigit(c)
    ensures d < 10
  {
    c as int - '0' as int
  }

  function DigitChar(d: nat): (c: char)
    requires d < 10
    ensures IsDigit(c) && DigitValue(c) == d
  {
    (d + '0' as int) as char
  }

  /** `n.toString().padStart(2, '0')` for `n < 100`. */
  function Pad2(n: nat): (s: string)
    requires n < 100
    ensures |s| == 2 && IsDigit(s[0]) && IsDigit(s[1])
    ensures DigitValue(s[0]) * 10 + DigitValue(s[1]) == n
  {
    [DigitChar(n / 10), DigitChar(n % 10)]
  }

  /**
   * The reminder's `currentTime` label: zero-padded hours, a colon, zero-padded minutes.
   * It is itself an accepted time, and its instant is the start of the current minute.
   */
  function FormatHHMM(nowSec: SecondOfDay): (s: string)
    ensures |s| == 5 && s[2] == ':'
    ensures IsTime(s) && ScheduledSec(s) == nowSec / 60 * 60
  {
    var h, m := nowSec / 3600, nowSec % 3600 / 60;
    var s := Pad2(h) + ":" + Pad2(m);
    assert s[0..2] == Pad2(h) && s[3..5] == Pad2(m);
    assert Hour(s) == h && Minute(s) == m;
    assert h * 3600 + m * 60 == nowSec / 60 * 60;
    s
  }

  predicate HourDigits(a: char, b: char) {
    ((a == '0' || a == '1') && IsDigit(b)) || (a == '2' && '0' <= b <= '3')
  }

  predicate MinuteDigits(a: char, b: char) {
    '0' <= a <= '5' && IsDigit(b)
  }

  /**
   * The medicine form's time pattern `^([01]?[0-9]|2[0-3]):[0-5][0-9]$`: a one-digit
   * hour or a two-digit hour up to 23, a colon, and a two-digit minute up to 59.
   */
  predicate IsTime(t: string) {
    || (|t| == 4 && IsDigit(t[0]) && t[1] == ':' && MinuteDigits(t[2], t[3]))
    || (|t| == 5 && HourDigits(t[0], t[1]) && t[2] == ':' && MinuteDigits(t[3], t[4]))
  }

  /** `Number` of the text before the colon. */
  function Hour(t: string): (h: nat)
    requires IsTime(t)
    ensures h < 24
  {
    if |t| == 4 then DigitValue(t[0]) else DigitValue(t[0]) * 10 + DigitValue(t[1])
  }

  /** `Number` of the text after the colon. */
  function Minute(t: string): (m: nat)
    requires IsTime(t)
    ensures m < 60
  {
    if |t| == 4 then DigitValue(t[2]) * 10 + DigitValue(t[3])
    else DigitValue(t[3]) * 10 + DigitValue(t[4])
  }

  /** `setHours(h, m, 0)` on today's date: the scheduled instant, on a whole minute of today. */
  function ScheduledSec(t: string): (s: SecondOfDay)
    requires IsTime(t)
    ensures s % 60 == 0
  {
    Hour(t) * 3600 + Minute(t) * 60
  }

  /** Formatting a padded time's scheduled instant gives the time back; an unpadded one gains a leading zero. */
  lemma {:induction false} FormatScheduled(t: string)
    requires IsTime(t)
    ensures |t| == 5 ==> FormatHHMM(ScheduledSec(t)) == t
    ensures |t| == 4 ==> FormatHHMM(ScheduledSec(t)) == "0" + t
  {
    var n := ScheduledSec(t);
    assert n / 3600 == Hour(t) && n % 3600 / 60 == Minute(t);
    var s := FormatHHMM(n);
    if |t| == 5 {
      assert s[0] == t[0] && s[1] == t[1] && s[3] == t[3] && s[4] == t[4];
      assert s == t;
    } else {
      assert s[0] == '0' && s[1] == t[0] && s[3] == t[2] && s[4] == t[3];
      assert s == "0" + t;
    }
  }

  /** `now` prints as `t` exactly when `t` is zero-padded and `now` lies in `t`'s minute. */
  lemma LabelMatchIff(t: string, nowSec: SecondOfDay)
    requires IsTime(t)
    ensures t == FormatHHMM(nowSec) <==> |t| == 5 && nowSec / 60 * 60 == ScheduledSec(t)
  {
    var n := nowSec / 60 * 60;
    assert FormatHHMM(n) == FormatHHMM(nowSec) by {
      assert n / 3600 == nowSec / 3600 && n % 3600 / 60 == nowSec % 3600 / 60;
    }
    FormatScheduled(t);
  }

  /** Examples of what the time pattern accepts and rejects. */
  lemma TimePatternExamples()
    ensures IsTime("8:00") && IsTime("08:00") && IsTime("23:59") && IsTime("0:05")
    ensures !IsTime("24:00") && !IsTime("7:60") && !IsTime(" 08:00") && !IsTime("08:00 ")
  {
  }

  /** An accepted time never counts as blank for the form's required-field check. */
  lemma TimeIsNotBlank(t: string)
    requires IsTime(t)
    ensures !IsBlank(t)
  {
    assert !IsWhitespace(t[0]);
  }
}
