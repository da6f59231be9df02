/** Calendar dates as the server handles them: `parse_date_string`
    (main.py), which accepts a date object or a text in the form
    `'%Y-%m-%d'` read by Python's `strptime`, and the ISO text a date is
    written back as. */
module Dates {
  import opened Wrappers
  import opened Text

  datatype Date = Date(year: int, month: int, day: int)

  predicate IsLeap(y: int) {
    y % 4 == 0 && (y % 100 != 0 || y % 400 == 0)
  }

  function DaysInMonth(y: int, m: int): (d: int)
    ensures 28 <= d <= 31
    ensures d == 29 <==> m == 2 && IsLeap(y)
  {
    if m == 2 then (if IsLeap(y) then 29 else 28)
    else if m == 4 || m == 6 || m == 9 || m == 11 then 30
    else 31
  }

  /** A date Python's `datetime.date` can represent (years 1 to 9999). */
  predicate Valid(d: Date) {
    1 <= d.year <= 9999 && 1 <= d.month <= 12 && 1 <= d.day <= DaysInMonth(d.year, d.month)
  }

  /** Strictly earlier in the calendar. */
  predicate Before(a: Date, b: Date) {
    a.year < b.year
    || (a.year == b.year && a.month < b.month)
    || (a.year == b.year && a.month == b.month && a.day < b.day)
  }

  /** Why `strptime` raised ValueError: the text does not match the format,
      text is left over after the match, or the fields are not a real date. */
  datatype DateError = NoMatch | UnconvertedData | OutOfRange | NotADate

  function DigitValue(c: char): int
    requires IsDigit(c)
  {
    c as int - '0' as int
  }

  predicate NonZeroDigit(c: char) { '1' <= c <= '9' }

  /** The `%m` field starting at `p`, which must be followed by the literal
      '-': one of `1[0-2]`, `0[1-9]`, `[1-9]`. At most one of the three can be
      followed by '-', so the regular expression's order does not matter here.
      Gives the month and the index just past the '-'. */
  function MonthAt(s: string, p: nat): (r: Option<(int, nat)>)
    ensures r.Some? ==> 1 <= r.value.0 <= 12 && p + 2 <= r.value.1 <= p + 3 && r.value.1 <= |s|
                        && s[r.value.1 - 1] == '-'
  {
    if p + 2 < |s| && s[p] == '1' && '0' <= s[p + 1] <= '2' && s[p + 2] == '-' then
      Some((10 + DigitValue(s[p + 1]), p + 3))
    else if p + 2 < |s| && s[p] == '0' && NonZeroDigit(s[p + 1]) && s[p + 2] == '-' then
      Some((DigitValue(s[p + 1]), p + 3))
    else if p + 1 < |s| && NonZeroDigit(s[p]) && s[p + 1] == '-' then
      Some((DigitValue(s[p]), p + 2))
    else None
  }

  /** The `%d` field starting at `q`: the first of `3[01]`, `[12][0-9]`,
      `0[1-9]`, `[1-9]`, ` [1-9]` that matches there. Gives the day and the
      index just past it. */
  function DayAt(s: string, q: nat): (r: Option<(int, nat)>)
    ensures r.Some? ==> 1 <= r.value.0 <= 31 && q + 1 <= r.value.1 <= q + 2 && r.value.1 <= |s|
  {
    if q + 1 < |s| && s[q] == '3' && (s[q + 1] == '0' || s[q + 1] == '1') then
      Some((30 + DigitValue(s[q + 1]), q + 2))
    else if q + 1 < |s| && (s[q] == '1' || s[q] == '2') && IsDigit(s[q + 1]) then
      Some((10 * DigitValue(s[q]) + DigitValue(s[q + 1]), q + 2))
    else if q + 1 < |s| && s[q] == '0' && NonZeroDigit(s[q + 1]) then
      Some((DigitValue(s[q + 1]), q + 2))
    else if q < |s| && NonZeroDigit(s[q]) then
      Some((DigitValue(s[q]), q + 1))
    else if q + 1 < |s| && s[q] == ' ' && NonZeroDigit(s[q + 1]) then
      Some((DigitValue(s[q + 1]), q + 2))
    else None
  }

  predicate YearPrefix(s: string) {
    |s| >= 5 && IsDigit(s[0]) && IsDigit(s[1]) && IsDigit(s[2]) && IsDigit(s[3]) && s[4] == '-'
  }

  function YearOf(s: string): int
    requires YearPrefix(s)
  {
    1000 * DigitValue(s[0]) + 100 * DigitValue(s[1]) + 10 * DigitValue(s[2]) + DigitValue(s[3])
  }

  /** `datetime.strptime(s, '%Y-%m-%d').date()` on ASCII text. */
  function ParseDate(s: string): (r: Result<Date, DateError>)
    ensures r.Ok? ==> Valid(r.value)
  {
    if !YearPrefix(s) then Err(NoMatch)
    else
      match MonthAt(s, 5)
      case None => Err(NoMatch)
      case Some((m, q)) =>
        match DayAt(s, q)
        case None => Err(NoMatch)
        case Some((d, e)) =>
          if e != |s| then Err(UnconvertedData)
          else if Valid(Date(YearOf(s), m, d)) then Ok(Date(YearOf(s), m, d))
          else Err(OutOfRange)
  }

  /** What `parse_date_string` may be handed: a date, a text, or anything else. */
  datatype DateArg = AsDate(d: Date) | AsText(s: string) | AsOther

  /** `parse_date_string` (main.py:64-70): a date is returned as it is, a text
      is parsed, anything else is a ValueError. */
  function ParseDateString(arg: DateArg): (r: Result<Date, DateError>)
    ensures arg.AsDate? ==> r == Ok(arg.d)
    ensures arg.AsOther? ==> r == Err(NotADate)
    ensures arg.AsText? && r.Ok? ==> Valid(r.value)
  {
    match arg
    case AsDate(d) => Ok(d)
    case AsText(s) => ParseDate(s)
    case AsOther => Err(NotADate)
  }

  /** Text that `strptime` accepted holds only digits, '-' and the space of a
      space-padded day, so in particular no letter. */
  lemma ParsedTextHasNoLetters(s: string)
    requires ParseDate(s).Ok?
    ensures forall i :: 0 <= i < |s| ==> IsDigit(s[i]) || s[i] == '-' || s[i] == ' '
  {
    var (m, q) := MonthAt(s, 5).value;
    var (d, e) := DayAt(s, q).value;
    assert e == |s|;
    forall i | 0 <= i < |s| ensures IsDigit(s[i]) || s[i] == '-' || s[i] == ' ' {
      if i >= q {
        assert i < q + 2;
      }
    }
  }

  function DigitChar(n: int): char
    requires 0 <= n <= 9
  {
    ('0' as int + n) as char
  }

  /** Two-digit zero-padded text of 0..99. */
  function Pad2(n: int): string
    requires 0 <= n <= 99
  {
    [DigitChar(n / 10), DigitChar(n % 10)]
  }

  /** Four-digit zero-padded text of 0..9999. */
  function Pad4(n: int): string
    requires 0 <= n <= 9999
  {
    [DigitChar(n / 1000), DigitChar(n / 100 % 10), DigitChar(n / 10 % 10), DigitChar(n % 10)]
  }

  /** `date.isoformat()`: "YYYY-MM-DD". */
  function IsoFormat(d: Date): (s: string)
    requires Valid(d)
    ensures |s| == 10
  {
    Pad4(d.year) + "-" + Pad2(d.month) + "-" + Pad2(d.day)
  }

  lemma FourDigits(n: int)
    requires 0 <= n <= 9999
    ensures 1000 * (n / 1000) + 100 * (n / 100 % 10) + 10 * (n / 10 % 10) + n % 10 == n
  {
    var a, b, c, e := n / 1000, n / 100 % 10, n / 10 % 10, n % 10;
    assert n / 10 == 10 * (n / 100) + c;
    assert n / 100 == 10 * (n / 1000) + b;
  }

  /** Writing a date in ISO form and parsing it back gives the same date. */
  lemma ParseIsoFormat(d: Date)
    requires Valid(d)
    ensures ParseDate(IsoFormat(d)) == Ok(d)
  {
    var s := IsoFormat(d);
    FourDigits(d.year);
    assert YearPrefix(s);
    assert YearOf(s) == d.year;
    assert s[5] == DigitChar(d.month / 10) && s[6] == DigitChar(d.month % 10) && s[7] == '-';
    assert MonthAt(s, 5) == Some((d.month, 8));
    assert s[8] == DigitChar(d.day / 10) && s[9] == DigitChar(d.day % 10);
    assert DayAt(s, 8) == Some((d.day, 10));
  }
}
