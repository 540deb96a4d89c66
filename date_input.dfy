/**
 * `formatDateInput`: a calendar date written as `${year}-${month}-${day}`
 * with the month and the day padded to two digits, the value an
 * `<input type="date">` holds. For years 1000 to 9999 this is the
 * extended calendar-date form YYYY-MM-DD of ISO 8601 (section 5.2.1.1 of
 * ISO 8601:2004). A reader of that form is given beside it so that the
 * round trip can be stated.
 */
module DateInput {
  import opened Wrappers
  import opened Civil

  // ---------------------------------------------------------------------------
  // Decimal digits

  predicate IsDigit(c: char) {
    '0' <= c <= '9'
  }

  predicate AllDigits(s: string) {
    forall i :: 0 <= i < |s| ==> IsDigit(s[i])
  }

  /** The character of a decimal digit. */
  function DigitChar(d: int): (c: char)
    requires 0 <= d < 10
    ensures IsDigit(c) && c as int - '0' as int == d
  {
    ('0' as int + d) as char
  }

  /** `String(n)` of a non-negative integer: its digits, most significant first, without leading zeros. */
  function NatToString(n: nat): (s: string)
    ensures 1 <= |s| && AllDigits(s)
    decreases n
  {
    if n < 10 then [DigitChar(n)] else NatToString(n / 10) + [DigitChar(n % 10)]
  }

  /** `String(n)` of any integer: a minus sign before the digits of a negative one. */
  function IntToString(n: int): string {
    if n < 0 then "-" + NatToString(-n) else NatToString(n)
  }

  /** The value of a string of decimal digits; the empty string is 0. */
  function DigitsValue(s: string): nat
    requires AllDigits(s)
    decreases |s|
  {
    if |s| == 0 then 0 else DigitsValue(s[..|s| - 1]) * 10 + (s[|s| - 1] as int - '0' as int)
  }

  /** `s.padStart(2, "0")`: zeros in front up to length 2; a longer string is unchanged. */
  function PadStart2(s: string): (r: string)
    ensures |s| >= 2 ==> r == s
    ensures |s| < 2 ==> |r| == 2 && r[2 - |s|..] == s && forall i :: 0 <= i < 2 - |s| ==> r[i] == '0'
  {
    if |s| == 0 then "00" else if |s| == 1 then "0" + s else s
  }

  function Pow10(k: nat): nat {
    if k == 0 then 1 else 10 * Pow10(k - 1)
  }

  /** Reading back the digits `String` writes gives the number. */
  lemma {:induction false} DigitsRoundTrip(n: nat)
    ensures DigitsValue(NatToString(n)) == n
    decreases n
  {
    if n >= 10 {
      var s := NatToString(n);
      assert s[..|s| - 1] == NatToString(n / 10);
      DigitsRoundTrip(n / 10);
    }
  }

  /** A number from `10^(k-1)` up to below `10^k` is written with exactly `k` digits. */
  lemma {:induction false} NatToStringLength(n: nat, k: nat)
    requires 1 <= k && Pow10(k - 1) <= n < Pow10(k)
    ensures |NatToString(n)| == k
    decreases k
  {
    if k > 1 {
      assert Pow10(k - 2) <= n / 10 < Pow10(k - 1);
      NatToStringLength(n / 10, k - 1);
    } else {
      assert n < 10;
    }
  }

  /** A leading zero does not change the value of a digit string. */
  lemma {:induction false} LeadingZero(s: string)
    requires AllDigits(s)
    ensures AllDigits("0" + s) && DigitsValue("0" + s) == DigitsValue(s)
    decreases |s|
  {
    if |s| > 0 {
      var t := "0" + s;
      assert t[..|t| - 1] == "0" + s[..|s| - 1];
      LeadingZero(s[..|s| - 1]);
    }
  }

  /** Padding to two digits keeps a digit string's value. */
  lemma PadKeepsValue(s: string)
    requires AllDigits(s)
    ensures AllDigits(PadStart2(s)) && DigitsValue(PadStart2(s)) == DigitsValue(s)
  {
    if |s| == 0 {
      assert DigitsValue("00") == DigitsValue("0") * 10;
      assert "0"[..0] == "";
    } else if |s| == 1 {
      LeadingZero(s);
    }
  }

  // ---------------------------------------------------------------------------
  // The date string

  /** `formatDateInput` of a date whose fields are `d`. */
  function FormatDate(d: Date): string
    requires ValidDate(d)
  {
    IntToString(d.year) + "-" + PadStart2(NatToString(d.month)) + "-" + PadStart2(NatToString(d.day))
  }

  /** `formatDateInput` of the `Date` whose local calendar day is day number `n`. */
  function FormatDateInput(n: int): string {
    FormatDate(CivilFromDays(n))
  }

  /**
   * A reader of `Y-MM-DD` with a year of one or more digits: the last two
   * characters are the day, the two before the second-last hyphen the
   * month, and everything before that hyphen the year.
   */
  function ParseDateInput(s: string): Option<Date> {
    if |s| >= 7 && s[|s| - 3] == '-' && s[|s| - 6] == '-'
       && AllDigits(s[..|s| - 6]) && AllDigits(s[|s| - 5..|s| - 3]) && AllDigits(s[|s| - 2..])
    then Some(Date(DigitsValue(s[..|s| - 6]), DigitsValue(s[|s| - 5..|s| - 3]), DigitsValue(s[|s| - 2..])))
    else None
  }

  /**
   * The month and the day always take two digits, so a date of a year
   * from 0 on reads back as itself; the years 1000 to 9999 give exactly
   * the ten characters YYYY-MM-DD.
   */
  lemma FormatDateRoundTrip(d: Date)
    requires ValidDate(d) && d.year >= 0
    ensures ParseDateInput(FormatDate(d)) == Some(d)
    ensures 1000 <= d.year <= 9999 ==> |FormatDate(d)| == 10
  {
    var y, m, dd := NatToString(d.year), PadStart2(NatToString(d.month)), PadStart2(NatToString(d.day));
    TwoDigits(d.month);
    TwoDigits(d.day);
    Fields(y, m, dd);
    DigitsRoundTrip(d.year);
    if 1000 <= d.year <= 9999 {
      NatToStringLength(d.year, 4);
    }
  }

  /** Where the reader finds the three fields of `y-m-dd` when the last two are two characters long. */
  lemma Fields(y: string, m: string, dd: string)
    requires |m| == 2 && |dd| == 2
    ensures var s := y + "-" + m + "-" + dd;
            && |s| == |y| + 6 && s[|s| - 3] == '-' && s[|s| - 6] == '-'
            && s[..|s| - 6] == y && s[|s| - 5..|s| - 3] == m && s[|s| - 2..] == dd
  {
  }

  /** A number below 100 padded to two digits is two digits worth the number. */
  lemma TwoDigits(n: nat)
    requires n < 100
    ensures |PadStart2(NatToString(n))| == 2 && AllDigits(PadStart2(NatToString(n)))
    ensures DigitsValue(PadStart2(NatToString(n))) == n
  {
    if n < 10 {
      assert |NatToString(n)| == 1;
    } else {
      NatToStringLength(n, 2);
    }
    PadKeepsValue(NatToString(n));
    DigitsRoundTrip(n);
  }

  /** Two dates written alike are the same date. */
  lemma FormatDateInjective(d: Date, e: Date)
    requires ValidDate(d) && ValidDate(e) && d.year >= 0 && e.year >= 0
    requires FormatDate(d) == FormatDate(e)
    ensures d == e
  {
    FormatDateRoundTrip(d);
    FormatDateRoundTrip(e);
  }
}
