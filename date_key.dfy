/**
 * The per-day key of the calendar site (`mmmDD.YYYY`, e.g. `jan01.2019`) and the
 * page URL built from it (scraper.py, `generate_date_string` and `scrape_date`).
 */
module DateKey {
  import opened Wrappers

  /** A calendar day handed to the formatter; the crawl only produces real dates. */
  datatype Day = Day(year: int, month: int, day: int)

  /** The days the formatter is modelled for (four-digit years, see README). */
  predicate InRange(d: Day) {
    1000 <= d.year <= 9999 && 1 <= d.month <= 12 && 1 <= d.day <= 31
  }

  /** `%b` in the C locale, lower-cased. */
  const MONTHS: seq<string> :=
    ["jan", "feb", "mar", "apr", "may", "jun", "jul", "aug", "sep", "oct", "nov", "dec"]

  predicate IsDigit(c: char) {
    '0' <= c <= '9'
  }

  function Digit(n: int): (c: char)
    requires 0 <= n <= 9
    ensures IsDigit(c)
  {
    (n + '0' as int) as char
  }

  function DigitValue(c: char): int {
    c as int - '0' as int
  }

  /** The value of a two-character decimal numeral. */
  function PairValue(hi: char, lo: char): int {
    DigitValue(hi) * 10 + DigitValue(lo)
  }

  /** `n` zero-padded to two digits, as `%d` prints a day of the month. */
  function TwoDigits(n: int): (s: string)
    requires 0 <= n <= 99
    ensures |s| == 2 && IsDigit(s[0]) && IsDigit(s[1])
    ensures PairValue(s[0], s[1]) == n
  {
    [Digit(n / 10), Digit(n % 10)]
  }

  /** `n` zero-padded to four digits, as `%Y` prints a year. */
  function FourDigits(n: int): (s: string)
    requires 0 <= n <= 9999
    ensures |s| == 4 && IsDigit(s[0]) && IsDigit(s[1]) && IsDigit(s[2]) && IsDigit(s[3])
    ensures PairValue(s[0], s[1]) * 100 + PairValue(s[2], s[3]) == n
  {
    TwoDigits(n / 100) + TwoDigits(n % 100)
  }

  /** The month number (1..12) of a lower-case abbreviation, 0 when it is none. */
  function MonthNumber(abbr: string): (m: int)
    ensures 0 <= m <= 12
    ensures m != 0 ==> MONTHS[m - 1] == abbr
    ensures m == 0 ==> abbr !in MONTHS
  {
    if abbr == "jan" then 1 else if abbr == "feb" then 2 else if abbr == "mar" then 3
    else if abbr == "apr" then 4 else if abbr == "may" then 5 else if abbr == "jun" then 6
    else if abbr == "jul" then 7 else if abbr == "aug" then 8 else if abbr == "sep" then 9
    else if abbr == "oct" then 10 else if abbr == "nov" then 11 else if abbr == "dec" then 12
    else 0
  }

  /** generate_date_string: month abbreviation, two-digit day, '.', four-digit year. */
  function GenerateDateString(d: Day): (key: string)
    requires InRange(d)
    ensures |key| == 10
    ensures key[..3] == MONTHS[d.month - 1]
    ensures key[5] == '.'
    ensures forall i :: 3 <= i < 10 && i != 5 ==> IsDigit(key[i])
    ensures PairValue(key[3], key[4]) == d.day
    ensures PairValue(key[6], key[7]) * 100 + PairValue(key[8], key[9]) == d.year
  {
    MONTHS[d.month - 1] + TwoDigits(d.day) + "." + FourDigits(d.year)
  }

  /** Reads a key back; the inverse of GenerateDateString on the days it formats. */
  function ParseDateKey(s: string): (d: Option<Day>)
    ensures d.Some? ==> InRange(d.value)
  {
    if |s| == 10 && s[5] == '.'
       && IsDigit(s[3]) && IsDigit(s[4])
       && IsDigit(s[6]) && IsDigit(s[7]) && IsDigit(s[8]) && IsDigit(s[9])
    then
      var month := MonthNumber(s[..3]);
      var day := PairValue(s[3], s[4]);
      var year := PairValue(s[6], s[7]) * 100 + PairValue(s[8], s[9]);
      if month != 0 && 1 <= day <= 31 && 1000 <= year then Some(Day(year, month, day)) else None
    else
      None
  }

  /** The page of one day: `base_url + "?day=" + key`. */
  function DayUrl(baseUrl: string, key: string): string {
    baseUrl + "?day=" + key
  }

  lemma MonthNumberOfAbbreviation(m: int)
    requires 1 <= m <= 12
    ensures MonthNumber(MONTHS[m - 1]) == m
  {
    if m == 1 {} else if m == 2 {} else if m == 3 {} else if m == 4 {}
    else if m == 5 {} else if m == 6 {} else if m == 7 {} else if m == 8 {}
    else if m == 9 {} else if m == 10 {} else if m == 11 {} else {}
  }

  lemma DigitRoundTrip(c: char)
    requires IsDigit(c)
    ensures 0 <= DigitValue(c) <= 9 && Digit(DigitValue(c)) == c
  {
  }

  /** Every formatted key reads back as the day it was made from. */
  lemma KeyRoundTrip(d: Day)
    requires InRange(d)
    ensures ParseDateKey(GenerateDateString(d)) == Some(d)
  {
    var key := GenerateDateString(d);
    MonthNumberOfAbbreviation(d.month);
    assert MonthNumber(key[..3]) == d.month;
  }

  /** Different days get different keys, so a key names exactly one day. */
  lemma DistinctDaysDistinctKeys(d: Day, e: Day)
    requires InRange(d) && InRange(e) && d != e
    ensures GenerateDateString(d) != GenerateDateString(e)
  {
    KeyRoundTrip(d);
    KeyRoundTrip(e);
  }

  /** Two digits re-formatted from their value are the same two digits. */
  lemma PairRoundTrip(hi: char, lo: char)
    requires IsDigit(hi) && IsDigit(lo)
    ensures 0 <= PairValue(hi, lo) <= 99 && TwoDigits(PairValue(hi, lo)) == [hi, lo]
  {
    DigitRoundTrip(hi);
    DigitRoundTrip(lo);
    var n := PairValue(hi, lo);
    assert n / 10 == DigitValue(hi) && n % 10 == DigitValue(lo);
  }

  /** Every key that reads back as a day is exactly the key of that day. */
  lemma ParsedKeyRoundTrip(s: string)
    requires ParseDateKey(s).Some?
    ensures GenerateDateString(ParseDateKey(s).value) == s
  {
    var d := ParseDateKey(s).value;
    PairRoundTrip(s[3], s[4]);
    PairRoundTrip(s[6], s[7]);
    PairRoundTrip(s[8], s[9]);
    var hi, lo := PairValue(s[6], s[7]), PairValue(s[8], s[9]);
    assert d.year / 100 == hi && d.year % 100 == lo;
    assert FourDigits(d.year) == s[6..];
    assert TwoDigits(d.day) == s[3..5];
    assert MONTHS[d.month - 1] == s[..3];
    assert s == s[..3] + s[3..5] + "." + s[6..];
  }

  /** The key of 2019-01-01, the crawl's first day. */
  lemma FirstDayKey()
    ensures GenerateDateString(Day(2019, 1, 1)) == "jan01.2019"
  {
  }

  /** The URL of a day ends in `?day=` and its key, from which the day can be read back. */
  lemma DayUrlNamesDay(baseUrl: string, d: Day)
    requires InRange(d)
    ensures var url := DayUrl(baseUrl, GenerateDateString(d));
      |url| == |baseUrl| + 15 && url[..|baseUrl|] == baseUrl
      && url[|baseUrl|..|baseUrl| + 5] == "?day="
      && ParseDateKey(url[|baseUrl| + 5..]) == Some(d)
  {
    var key := GenerateDateString(d);
    var url := DayUrl(baseUrl, key);
    assert url[|baseUrl| + 5..] == key;
    KeyRoundTrip(d);
  }
}
