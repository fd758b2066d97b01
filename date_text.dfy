/** PHP's `date('d/m/Y', $t)` in UTC, and reading such a date back. */
module DateText {
  import opened Options
  import opened Decimal
  import opened CivilDate

  /** PHP's `Y`: at least four digits, with `-` in front of a year before year 0. */
  function YearText(y: int): string {
    if y < 0 then "-" + Padded(-y, 4) else Padded(y, 4)
  }

  /** `d/m/Y`: two-digit day, two-digit month, the year. */
  function FormatDmy(d: Date): string
    requires ValidDate(d)
  {
    Padded(d.day, 2) + "/" + Padded(d.month, 2) + "/" + YearText(d.year)
  }

  /** `date('d/m/Y', $t)` for a Unix timestamp `t`, in UTC. */
  function DmyOfTimestamp(t: int): string {
    CivilFromDaysCorrect(t / 86400);
    FormatDmy(DateOfTimestamp(t))
  }

  /** A `dd/mm/yyyy` text read back as a date; `None` for any other shape. */
  function ParseDmy(s: string): Option<Date> {
    if |s| == 10 && s[2] == '/' && s[5] == '/' && AllDigits(s[..2]) && AllDigits(s[3..5]) && AllDigits(s[6..])
    then Some(Date(DigitsValue(s[6..]), DigitsValue(s[3..5]), DigitsValue(s[..2])))
    else None
  }

  /** A number below `10^w` padded to `w` digits takes exactly `w` characters. */
  lemma PaddedExactly(n: nat, w: nat)
    requires 1 <= w && n < Pow10(w)
    ensures |Padded(n, w)| == w && AllDigits(Padded(n, w)) && DigitsValue(Padded(n, w)) == n
  {
    NatTextLength(n, w);
    PaddedValue(n, w);
  }

  /** Every date of a four-digit year is written in ten characters and reads back as itself. */
  lemma ParseFormatDmy(d: Date)
    requires ValidDate(d) && 0 <= d.year <= 9999
    ensures |FormatDmy(d)| == 10
    ensures ParseDmy(FormatDmy(d)) == Some(d)
  {
    assert Pow10(2) == 100 && Pow10(4) == 10000;
    PaddedExactly(d.day, 2);
    PaddedExactly(d.month, 2);
    PaddedExactly(d.year, 4);
    DmySlices(Padded(d.day, 2), Padded(d.month, 2), Padded(d.year, 4), FormatDmy(d));
  }

  lemma DmySlices(dd: string, mm: string, yy: string, s: string)
    requires |dd| == 2 && |mm| == 2 && |yy| == 4 && s == dd + "/" + mm + "/" + yy
    ensures |s| == 10 && s[2] == '/' && s[5] == '/'
    ensures s[..2] == dd && s[3..5] == mm && s[6..] == yy
  {
  }

  /** `d/m/Y` tells apart any two dates of four-digit years. */
  lemma FormatDmyInjective(d: Date, e: Date)
    requires ValidDate(d) && 0 <= d.year <= 9999
    requires ValidDate(e) && 0 <= e.year <= 9999
    requires FormatDmy(d) == FormatDmy(e)
    ensures d == e
  {
    ParseFormatDmy(d);
    ParseFormatDmy(e);
  }

  /** The text of a timestamp `days` whole days later is the date `days` calendar days later. */
  lemma DmyAfterDays(now: int, days: nat)
    ensures ValidDate(AddDays(DateOfTimestamp(now), days))
    ensures DmyOfTimestamp(now + days * 86400) == FormatDmy(AddDays(DateOfTimestamp(now), days))
  {
    DateAfterDays(now, days);
    CivilFromDaysCorrect((now + days * 86400) / 86400);
  }

  /** 2024-01-01T00:00:00Z is day 19723. */
  lemma NewYear2024()
    ensures DateOfTimestamp(1704067200) == Date(2024, 1, 1)
  {
    assert 1704067200 / 86400 == 19723;
    assert YearStart(23) == 8400;
    CivilFromEraDay(19723, 5, 23, 306);
  }

  lemma NewYear2024Text()
    ensures FormatDmy(Date(2024, 1, 1)) == "01/01/2024"
    ensures FormatDmy(Date(2024, 1, 6)) == "06/01/2024"
  {
    assert Padded(1, 2) == "01" && Padded(6, 2) == "06";
    assert NatText(2024) == "2024" by {
      assert NatText(2) == "2";
      assert NatText(20) == "20";
      assert NatText(202) == "202";
    }
    assert Padded(2024, 4) == "2024";
  }

  /** A boleto issued at 2024-01-01T00:00:00Z with five days to pay is due "06/01/2024". */
  lemma DueDateExample()
    ensures DmyOfTimestamp(1704067200) == "01/01/2024"
    ensures DmyOfTimestamp(1704067200 + 5 * 86400) == "06/01/2024"
  {
    NewYear2024();
    DmyAfterDays(1704067200, 5);
    assert AddDays(Date(2024, 1, 1), 5) == Date(2024, 1, 6);
    NewYear2024Text();
  }
}
