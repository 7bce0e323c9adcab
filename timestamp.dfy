/** The two conversions of the weather row's `modified_timestamp`: parsing a
    provider local time in the format `YYYY-MM-DD HH:mm`, and emitting a date
    and time as `YYYY-MM-DD HH:mm:ss`. */
module Timestamp {
  import opened Outcomes
  import opened Decimal

  datatype DateTime = DateTime(year: nat, month: nat, day: nat, hour: nat, minute: nat, second: nat)

  predicate IsLeapYear(year: nat) {
    year % 4 == 0 && (year % 100 != 0 || year % 400 == 0)
  }

  function DaysInMonth(year: nat, month: nat): nat
    requires 1 <= month <= 12
  {
    if month == 2 then (if IsLeapYear(year) then 29 else 28)
    else if month == 4 || month == 6 || month == 9 || month == 11 then 30
    else 31
  }

  /** The dates and times a Python datetime can hold (years 1 to 9999). */
  predicate Valid(d: DateTime) {
    && 1 <= d.year <= 9999
    && 1 <= d.month <= 12
    && 1 <= d.day <= DaysInMonth(d.year, d.month)
    && d.hour < 24 && d.minute < 60 && d.second < 60
  }

  /** n as two digits, with a leading zero below 10. */
  function Pad2(n: nat): (s: string)
    requires n < 100
    ensures |s| == 2 && AllDigits(s)
  {
    [DigitChar(n / 10), DigitChar(n % 10)]
  }

  /** n as four digits, with leading zeros. */
  function Pad4(n: nat): (s: string)
    requires n < 10000
    ensures |s| == 4 && AllDigits(s)
  {
    Pad2(n / 100) + Pad2(n % 100)
  }

  /** `to_datetime_string()`. */
  function ToDateTimeString(d: DateTime): (s: string)
    requires Valid(d)
    ensures |s| == 19
  {
    Pad4(d.year) + "-" + Pad2(d.month) + "-" + Pad2(d.day) + " "
      + Pad2(d.hour) + ":" + Pad2(d.minute) + ":" + Pad2(d.second)
  }

  /** s is spelled `YYYY-MM-DD HH:mm`, every letter a decimal digit. */
  predicate MatchesFormat(s: string) {
    && |s| == 16
    && s[4] == '-' && s[7] == '-' && s[10] == ' ' && s[13] == ':'
    && AllDigits(s[0..4]) && AllDigits(s[5..7]) && AllDigits(s[8..10])
    && AllDigits(s[11..13]) && AllDigits(s[14..16])
  }

  /** The fields a string of that shape spells, with zero seconds. */
  function FieldsOf(s: string): DateTime
    requires MatchesFormat(s)
  {
    DateTime(DecimalValue(s[0..4]), DecimalValue(s[5..7]), DecimalValue(s[8..10]),
             DecimalValue(s[11..13]), DecimalValue(s[14..16]), 0)
  }

  lemma ValueOfTwo(s: string)
    requires |s| == 2 && AllDigits(s)
    ensures DecimalValue(s) == 10 * DigitValue(s[0]) + DigitValue(s[1])
  {
    var first := s[..1];
    assert first[..0] == [] && first[0] == s[0];
    assert DecimalValue(first) == DigitValue(s[0]);
    assert DecimalValue(s) == 10 * DecimalValue(first) + DigitValue(s[1]);
  }

  lemma ValueOfFour(s: string)
    requires |s| == 4 && AllDigits(s)
    ensures DecimalValue(s) == 100 * DecimalValue(s[..2]) + DecimalValue(s[2..])
  {
    ValueOfTwo(s[..2]);
    ValueOfTwo(s[2..]);
    assert s[..3][..2] == s[..2] && s[..3][2] == s[2];
  }

  lemma Pad2Digits(s: string)
    requires |s| == 2 && AllDigits(s)
    ensures DecimalValue(s) < 100 && Pad2(DecimalValue(s)) == s
  {
    ValueOfTwo(s);
    var a, b := DigitValue(s[0]), DigitValue(s[1]);
    assert (10 * a + b) / 10 == a && (10 * a + b) % 10 == b;
    assert DigitChar(a) == s[0] && DigitChar(b) == s[1];
  }

  lemma Pad4Digits(s: string)
    requires |s| == 4 && AllDigits(s)
    ensures DecimalValue(s) < 10000 && Pad4(DecimalValue(s)) == s
  {
    var hi, lo := s[..2], s[2..];
    ValueOfFour(s);
    Pad2Digits(hi);
    Pad2Digits(lo);
    var h, l := DecimalValue(hi), DecimalValue(lo);
    assert (100 * h + l) / 100 == h && (100 * h + l) % 100 == l;
    assert s == hi + lo;
  }

  lemma DigitsOfPad2(n: nat)
    requires n < 100
    ensures DecimalValue(Pad2(n)) == n
  {
    ValueOfTwo(Pad2(n));
  }

  lemma DigitsOfPad4(n: nat)
    requires n < 10000
    ensures DecimalValue(Pad4(n)) == n
  {
    var s := Pad4(n);
    ValueOfFour(s);
    assert s[..2] == Pad2(n / 100) && s[2..] == Pad2(n % 100);
    DigitsOfPad2(n / 100);
    DigitsOfPad2(n % 100);
  }

  /** Emitting what was parsed gives back the input with `:00` seconds appended. */
  lemma FieldsOfFormatted(s: string)
    requires MatchesFormat(s) && Valid(FieldsOf(s))
    ensures ToDateTimeString(FieldsOf(s)) == s + ":00"
  {
    Pad4Digits(s[0..4]);
    Pad2Digits(s[5..7]);
    Pad2Digits(s[8..10]);
    Pad2Digits(s[11..13]);
    Pad2Digits(s[14..16]);
    assert s == s[0..4] + "-" + s[5..7] + "-" + s[8..10] + " " + s[11..13] + ":" + s[14..16];
  }

  /** `pendulum.from_format(s, 'YYYY-MM-DD HH:mm')`: the date and time s
      spells, or None where the library raises. */
  function ParseLocalTime(s: string): (r: Option<DateTime>)
    ensures r.Some? <==> MatchesFormat(s) && Valid(FieldsOf(s))
    ensures r.Some? ==> Valid(r.value) && r.value.second == 0 && ToDateTimeString(r.value) == s + ":00"
  {
    if MatchesFormat(s) && Valid(FieldsOf(s)) then
      FieldsOfFormatted(s);
      Some(FieldsOf(s))
    else None
  }

  /** Every valid minute-precision date and time is accepted back from its
      own `YYYY-MM-DD HH:mm` spelling. */
  lemma ParseFormatted(d: DateTime)
    requires Valid(d) && d.second == 0
    ensures ParseLocalTime(ToDateTimeString(d)[..16]) == Some(d)
  {
    var s := ToDateTimeString(d)[..16];
    var head := Pad4(d.year) + "-" + Pad2(d.month) + "-" + Pad2(d.day) + " " + Pad2(d.hour) + ":" + Pad2(d.minute);
    assert ToDateTimeString(d) == head + ":" + Pad2(d.second);
    assert s == head;
    assert s[0..4] == Pad4(d.year);
    assert s[5..7] == Pad2(d.month);
    assert s[8..10] == Pad2(d.day);
    assert s[11..13] == Pad2(d.hour);
    assert s[14..16] == Pad2(d.minute);
    DigitsOfPad4(d.year);
    DigitsOfPad2(d.month);
    DigitsOfPad2(d.day);
    DigitsOfPad2(d.hour);
    DigitsOfPad2(d.minute);
    assert MatchesFormat(s);
    assert FieldsOf(s) == d;
  }
}
