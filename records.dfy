/**
 * The values held by one observation form: the calendar date, the uploaded
 * photograph and the field values the widgets of captura_foto.py bind into the
 * session, together with the text that Python's `str` gives a date (the first
 * column of a submitted row).
 */
module Records {

  datatype Option<+T> = None | Some(value: T)

  /** A calendar date with the fields of Python's `datetime.date`. */
  datatype CalendarDate = CalendarDate(year: nat, month: nat, day: nat)

  predicate IsLeapYear(year: nat) {
    year % 4 == 0 && (year % 100 != 0 || year % 400 == 0)
  }

  function DaysInMonth(year: nat, month: nat): (n: nat)
    requires 1 <= month <= 12
    ensures 28 <= n <= 31
  {
    if month == 2 then (if IsLeapYear(year) then 29 else 28)
    else if month == 4 || month == 6 || month == 9 || month == 11 then 30
    else 31
  }

  /** The dates `datetime.date` can hold: years 1 to 9999, real days only. */
  predicate IsDate(d: CalendarDate) {
    1 <= d.year <= 9999 && 1 <= d.month <= 12 && 1 <= d.day <= DaysInMonth(d.year, d.month)
  }

  type Date = d: CalendarDate | IsDate(d) witness CalendarDate(1, 1, 1)

  /** The uploaded file; the form only ever looks at its name. */
  datatype Photo = Photo(name: string)

  /**
   * The field values of one form, as the widgets leave them in the session:
   * the date picker and the number inputs start at None, the select boxes
   * (`index=None`) yield None until a choice is made, and the two free-text
   * species fields start as the empty string.
   */
  datatype Observation = Observation(
    date: Option<Date>,
    photo: Option<Photo>,
    observer: Option<string>,
    digitizer: Option<string>,
    sp1: string,
    sp2: string,
    inter: Option<string>,
    part: Option<string>,
    lat: Option<real>,
    lon: Option<real>)

  /** The values every widget of the form holds before the user touches it. */
  const EmptyForm: Observation :=
    Observation(None, None, None, None, "", "", None, None, None, None)

  // ----------------------------------------------------------------------
  // Decimal rendering of the date, as Python's `str(date)` does it
  // ----------------------------------------------------------------------

  function Pow10(width: nat): (p: nat)
    ensures p >= 1
  {
    if width == 0 then 1 else 10 * Pow10(width - 1)
  }

  predicate IsDigit(c: char) {
    '0' <= c <= '9'
  }

  function DigitChar(d: nat): (c: char)
    requires d < 10
    ensures IsDigit(c) && c as int - '0' as int == d
  {
    ('0' as int + d) as char
  }

  function DigitValue(c: char): (d: nat)
    requires IsDigit(c)
    ensures d < 10
  {
    c as int - '0' as int
  }

  /** `n` written in exactly `width` decimal digits, zero-padded (`%0<width>d`). */
  function Decimal(n: nat, width: nat): (s: string)
    requires n < Pow10(width)
  {
    if width == 0 then "" else Decimal(n / 10, width - 1) + [DigitChar(n % 10)]
  }

  /** The number a string of decimal digits stands for. */
  function DigitsValue(s: string): nat
    requires forall i :: 0 <= i < |s| ==> IsDigit(s[i])
  {
    if s == [] then 0
    else 10 * DigitsValue(s[..|s| - 1]) + DigitValue(s[|s| - 1])
  }

  /** Zero-padded rendering has the width asked for, only digits, and reads back as `n`. */
  lemma {:induction false} DecimalReadsBack(n: nat, width: nat)
    requires n < Pow10(width)
    ensures |Decimal(n, width)| == width
    ensures forall i :: 0 <= i < width ==> IsDigit(Decimal(n, width)[i])
    ensures DigitsValue(Decimal(n, width)) == n
  {
    if width > 0 {
      assert n / 10 < Pow10(width - 1);
      DecimalReadsBack(n / 10, width - 1);
      var s := Decimal(n, width);
      assert s[..|s| - 1] == Decimal(n / 10, width - 1);
      assert s[|s| - 1] == DigitChar(n % 10);
    }
  }

  /**
   * `str(d)`: `None` for a missing date, otherwise the ISO form
   * YYYY-MM-DD that `datetime.date.__str__` produces: ten characters with
   * dashes at positions 4 and 7.
   */
  function DateText(d: Option<Date>): (r: string)
    ensures d.None? ==> r == "None"
    ensures d.Some? ==> |r| == 10 && r[4] == '-' && r[7] == '-'
  {
    match d
    case None => "None"
    case Some(x) =>
      var y, m, dd := Decimal(x.year, 4), Decimal(x.month, 2), Decimal(x.day, 2);
      DecimalReadsBack(x.year, 4);
      DecimalReadsBack(x.month, 2);
      DecimalReadsBack(x.day, 2);
      DashedShape(y, m, dd);
      y + "-" + m + "-" + dd
  }

  /** Three fields of widths 4, 2 and 2 joined by dashes: the dashes sit at 4 and 7. */
  lemma DashedShape(y: string, m: string, d: string)
    requires |y| == 4 && |m| == 2 && |d| == 2
    ensures |y + "-" + m + "-" + d| == 10
    ensures (y + "-" + m + "-" + d)[4] == '-' && (y + "-" + m + "-" + d)[7] == '-'
  {
  }

  /** Two form dates give the same column text exactly when they are the same. */
  lemma DateTextInjective(a: Option<Date>, b: Option<Date>)
    ensures DateText(a) == DateText(b) <==> a == b
  {
    if DateText(a) == DateText(b) {
      match a
      case None =>
      case Some(x) =>
        if b.Some? {
          var y := b.value;
          var s := DateText(a);
          DecimalReadsBack(x.year, 4);
          DecimalReadsBack(x.month, 2);
          DecimalReadsBack(x.day, 2);
          DecimalReadsBack(y.year, 4);
          DecimalReadsBack(y.month, 2);
          DecimalReadsBack(y.day, 2);
          assert s[..4] == Decimal(x.year, 4) == Decimal(y.year, 4);
          assert s[5..7] == Decimal(x.month, 2) == Decimal(y.month, 2);
          assert s[8..] == Decimal(x.day, 2) == Decimal(y.day, 2);
        }
    }
  }
}
