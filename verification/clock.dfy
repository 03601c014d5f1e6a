/**
 * Clock readings (`datetime.now()` is taken as a parameter) and the two textual
 * forms the logger writes them in: the `strftime("%Y%m%d_%H%M%S")` file-name stamp
 * and `datetime.isoformat()` in the CSV timestamp column.
 */
module Clock {

  /** A naive `datetime` value. */
  datatype DateTime = DateTime(
    year: nat, month: nat, day: nat,
    hour: nat, minute: nat, second: nat, microsecond: nat)

  predicate IsLeapYear(y: nat) {
    (y % 4 == 0 && y % 100 != 0) || y % 400 == 0
  }

  function DaysInMonth(y: nat, m: nat): nat
    requires 1 <= m <= 12
  {
    if m == 2 then (if IsLeapYear(y) then 29 else 28)
    else if m == 4 || m == 6 || m == 9 || m == 11 then 30
    else 31
  }

  /** The field ranges Python's `datetime` enforces. */
  predicate Valid(t: DateTime) {
    && 1 <= t.year <= 9999
    && 1 <= t.month <= 12
    && 1 <= t.day <= DaysInMonth(t.year, t.month)
    && t.hour < 24 && t.minute < 60 && t.second < 60
    && t.microsecond < 1000000
  }

  /** A reading `datetime.now()` can return. */
  type Instant = t: DateTime | Valid(t) witness DateTime(1970, 1, 1, 0, 0, 0, 0)

  function Pow10(n: nat): (r: nat)
    ensures r >= 1
  {
    if n == 0 then 1 else 10 * Pow10(n - 1)
  }

  predicate IsDigit(c: char) {
    '0' <= c <= '9'
  }

  predicate AllDigits(s: string) {
    forall i :: 0 <= i < |s| ==> IsDigit(s[i])
  }

  function DigitChar(d: nat): (c: char)
    requires d < 10
    ensures IsDigit(c)
  {
    ('0' as int + d) as char
  }

  /** The number a string of decimal digits denotes. */
  function ValueOf(s: string): nat
    requires AllDigits(s)
  {
    if |s| == 0 then 0 else 10 * ValueOf(s[..|s| - 1]) + (s[|s| - 1] as int - '0' as int)
  }

  /** `n` written in exactly `width` decimal digits with leading zeros (`%0<width>d`). */
  function Pad(n: nat, width: nat): (r: string)
    requires n < Pow10(width)
    ensures |r| == width
    ensures AllDigits(r)
    ensures ValueOf(r) == n
  {
    if width == 0 then ""
    else
      var r := Pad(n / 10, width - 1) + [DigitChar(n % 10)];
      assert r[..|r| - 1] == Pad(n / 10, width - 1);
      r
  }

  /** `t.strftime("%Y%m%d_%H%M%S")`: date digits, an underscore, time digits. */
  function FileStamp(t: DateTime): (r: string)
    requires Valid(t)
    ensures |r| == 15 && r[8] == '_'
    ensures AllDigits(r[..8]) && AllDigits(r[9..])
  {
    var r := Pad(t.year, 4) + Pad(t.month, 2) + Pad(t.day, 2) + "_"
      + Pad(t.hour, 2) + Pad(t.minute, 2) + Pad(t.second, 2);
    assert r[..8] == Pad(t.year, 4) + Pad(t.month, 2) + Pad(t.day, 2);
    assert r[9..] == Pad(t.hour, 2) + Pad(t.minute, 2) + Pad(t.second, 2);
    r
  }

  /** Reads the six fields back out of a file-name stamp. */
  function ParseFileStamp(s: string): (nat, nat, nat, nat, nat, nat)
    requires |s| == 15 && AllDigits(s[..8]) && AllDigits(s[9..])
  {
    (ValueOf(s[0..4]), ValueOf(s[4..6]), ValueOf(s[6..8]),
     ValueOf(s[9..11]), ValueOf(s[11..13]), ValueOf(s[13..15]))
  }

  /** The file-name stamp loses nothing down to the second. */
  lemma FileStampRoundTrip(t: DateTime)
    requires Valid(t)
    ensures ParseFileStamp(FileStamp(t)) == (t.year, t.month, t.day, t.hour, t.minute, t.second)
  {
    var s := FileStamp(t);
    assert s[0..4] == Pad(t.year, 4);
    assert s[4..6] == Pad(t.month, 2);
    assert s[6..8] == Pad(t.day, 2);
    assert s[9..11] == Pad(t.hour, 2);
    assert s[11..13] == Pad(t.minute, 2);
    assert s[13..15] == Pad(t.second, 2);
  }

  /** `t.isoformat()`: `YYYY-MM-DDTHH:MM:SS`, then `.ffffff` only when the microseconds are not zero. */
  function IsoFormat(t: DateTime): (r: string)
    requires Valid(t)
    ensures |r| == (if t.microsecond == 0 then 19 else 26)
    ensures r[4] == '-' && r[7] == '-' && r[10] == 'T' && r[13] == ':' && r[16] == ':'
    ensures t.microsecond != 0 ==> r[19] == '.' && AllDigits(r[20..]) && ValueOf(r[20..]) == t.microsecond
  {
    var fraction := if t.microsecond == 0 then "" else "." + Pad(t.microsecond, 6);
    var r := Pad(t.year, 4) + "-" + Pad(t.month, 2) + "-" + Pad(t.day, 2) + "T"
      + Pad(t.hour, 2) + ":" + Pad(t.minute, 2) + ":" + Pad(t.second, 2) + fraction;
    assert t.microsecond != 0 ==> r[20..] == Pad(t.microsecond, 6);
    r
  }

  /** The stamp in a file name and the ISO timestamp of the same clock reading carry the same digits. */
  lemma FileStampAgreesWithIso(t: DateTime)
    requires Valid(t)
    ensures var iso := IsoFormat(t);
      FileStamp(t) == iso[0..4] + iso[5..7] + iso[8..10] + "_" + iso[11..13] + iso[14..16] + iso[17..19]
  {
    var iso := IsoFormat(t);
    assert iso[0..4] == Pad(t.year, 4);
    assert iso[5..7] == Pad(t.month, 2);
    assert iso[8..10] == Pad(t.day, 2);
    assert iso[11..13] == Pad(t.hour, 2);
    assert iso[14..16] == Pad(t.minute, 2);
    assert iso[17..19] == Pad(t.second, 2);
  }
}
