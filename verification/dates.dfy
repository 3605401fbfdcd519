/** Calendar dates as the feed code reads and writes them: `strptime(s, "%Y-%m-%d")`,
    `strftime("%Y-%m-%d")` and the `>` comparison of two midnight datetimes. */
module Dates {
  import opened Wrappers
  import opened Decimal

  datatype Date = Date(year: nat, month: nat, day: nat)

  predicate IsLeapYear(year: nat) {
    year % 4 == 0 && (year % 100 != 0 || year % 400 == 0)
  }

  function DaysInMonth(year: nat, month: nat): nat
    requires 1 <= month <= 12
  {
    if month == 2 then (if IsLeapYear(year) then 29 else 28)
    else if month == 4 || month == 6 || month == 9 || month == 11 then 30
    else 31
  }

  /** A date Python's `datetime` can hold: years 1 to 9999, a real day of a real month. */
  predicate Valid(d: Date) {
    1 <= d.year <= 9999 && 1 <= d.month <= 12 && 1 <= d.day <= DaysInMonth(d.year, d.month)
  }

  /** `a < b` on datetimes whose time of day is midnight: (year, month, day) lexicographically. */
  predicate Before(a: Date, b: Date) {
    a.year < b.year
    || (a.year == b.year && (a.month < b.month || (a.month == b.month && a.day < b.day)))
  }

  /** The comparison the release-date filter uses is a strict total order. */
  lemma BeforeIsStrictTotalOrder(a: Date, b: Date, c: Date)
    ensures !Before(a, a)
    ensures Before(a, b) && Before(b, c) ==> Before(a, c)
    ensures a == b || Before(a, b) || Before(b, a)
    ensures !(Before(a, b) && Before(b, a))
  {
  }

  /** The `%m` directive of strptime: `1[0-2]|0[1-9]|[1-9]`. */
  function MonthField(s: string): Option<nat> {
    if |s| == 1 && '1' <= s[0] <= '9' then Some(DigitValue(s[0]))
    else if |s| == 2 && s[0] == '0' && '1' <= s[1] <= '9' then Some(DigitValue(s[1]))
    else if |s| == 2 && s[0] == '1' && '0' <= s[1] <= '2' then Some(10 + DigitValue(s[1]))
    else None
  }

  /** The `%d` directive of strptime: `3[01]|[12]\d|0[1-9]|[1-9]| [1-9]`, which has to reach
      the end of the text (strptime refuses unconverted data). */
  function DayField(s: string): Option<nat> {
    if |s| == 1 && '1' <= s[0] <= '9' then Some(DigitValue(s[0]))
    else if |s| == 2 && (s[0] == '0' || s[0] == ' ') && '1' <= s[1] <= '9' then Some(DigitValue(s[1]))
    else if |s| == 2 && (s[0] == '1' || s[0] == '2') && IsDigit(s[1]) then Some(10 * DigitValue(s[0]) + DigitValue(s[1]))
    else if |s| == 2 && s[0] == '3' && (s[1] == '0' || s[1] == '1') then Some(30 + DigitValue(s[1]))
    else None
  }

  /** Where the first `-` of `s` stands, if it has one. */
  function FirstDash(s: string): (k: Option<nat>)
    ensures k.Some? ==> k.value < |s| && s[k.value] == '-' && forall j :: 0 <= j < k.value ==> s[j] != '-'
    ensures k.None? ==> forall j :: 0 <= j < |s| ==> s[j] != '-'
  {
    if s == [] then None
    else if s[0] == '-' then Some(0)
    else match FirstDash(s[1..])
      case None => None
      case Some(k) => Some(k + 1)
  }

  /** `datetime.strptime(s, "%Y-%m-%d")`: `None` where strptime raises ValueError (no match,
      unconverted data, year 0, or a day the month does not have). */
  function ParseDate(s: string): (r: Option<Date>)
    ensures r.Some? ==> Valid(r.value)
  {
    if |s| < 5 || !AllDigits(s[..4]) || s[4] != '-' then None
    else
      var rest := s[5..];
      match FirstDash(rest)
      case None => None
      case Some(k) =>
        var month := MonthField(rest[..k]);
        var day := DayField(rest[k + 1..]);
        if month.None? || day.None? then None
        else
          var d := Date(Value(s[..4]), month.value, day.value);
          if Valid(d) then Some(d) else None
  }

  /** `d.strftime("%Y-%m-%d")`, zero-filled. */
  function FormatDate(d: Date): string {
    Padded(d.year, 4) + "-" + Padded(d.month, 2) + "-" + Padded(d.day, 2)
  }

  lemma PaddedTwo(n: nat)
    requires n < 100
    ensures Padded(n, 2) == [DigitChar(n / 10), DigitChar(n % 10)]
  {
  }

  /** The first `-` after a run without one is the one that ends the run. */
  lemma {:induction false} FirstDashAfter(run: string, tail: string)
    requires forall j :: 0 <= j < |run| ==> run[j] != '-'
    ensures FirstDash(run + "-" + tail) == Some(|run|)
    decreases |run|
  {
    if run != [] {
      assert (run + "-" + tail)[1..] == run[1..] + "-" + tail;
      FirstDashAfter(run[1..], tail);
    }
  }

  /** How strptime splits `year + "-" + rest`. */
  lemma ParseDateSplit(year: string, month: string, day: string)
    requires |year| == 4 && AllDigits(year)
    requires forall j :: 0 <= j < |month| ==> month[j] != '-'
    ensures ParseDate(year + "-" + month + "-" + day) ==
      var m, d := MonthField(month), DayField(day);
      if m.None? || d.None? then None
      else if Valid(Date(Value(year), m.value, d.value)) then Some(Date(Value(year), m.value, d.value))
      else None
  {
    var s := year + "-" + month + "-" + day;
    assert s[..4] == year;
    assert s[5..] == month + "-" + day;
    FirstDashAfter(month, day);
    assert (month + "-" + day)[..|month|] == month;
    assert (month + "-" + day)[|month| + 1..] == day;
  }

  /** `%m` reads back every month `strftime` writes. */
  lemma MonthFieldOfPadded(m: nat)
    requires 1 <= m <= 12
    ensures MonthField(Padded(m, 2)) == Some(m)
    ensures forall j :: 0 <= j < |Padded(m, 2)| ==> Padded(m, 2)[j] != '-'
  {
    PaddedTwo(m);
  }

  /** `%d` reads back every day `strftime` writes. */
  lemma DayFieldOfPadded(d: nat)
    requires 1 <= d <= 31
    ensures DayField(Padded(d, 2)) == Some(d)
  {
    PaddedTwo(d);
  }

  /** Every date strftime writes is read back by strptime as the same date. */
  lemma ParseFormatRoundTrip(d: Date)
    requires Valid(d)
    ensures ParseDate(FormatDate(d)) == Some(d)
  {
    PaddedLength(d.year, 4);
    ValueOfPadded(d.year, 4);
    MonthFieldOfPadded(d.month);
    DayFieldOfPadded(d.day);
    ParseDateSplit(Padded(d.year, 4), Padded(d.month, 2), Padded(d.day, 2));
  }

  lemma Value2024()
    ensures AllDigits("2024") && Value("2024") == 2024
  {
    assert "2024"[..3] == "202" && "202"[..2] == "20" && "20"[..1] == "2" && "2"[..0] == "";
  }

  lemma ParseJanuaryFirst2024()
    ensures ParseDate("2024-01-01") == Some(Date(2024, 1, 1))
  {
    Value2024();
    ParseDateSplit("2024", "01", "01");
    assert "2024-01-01" == "2024" + "-" + "01" + "-" + "01";
  }

  lemma ParseFebruaryFirst2024()
    ensures ParseDate("2024-02-01") == Some(Date(2024, 2, 1))
  {
    Value2024();
    ParseDateSplit("2024", "02", "01");
    assert "2024-02-01" == "2024" + "-" + "02" + "-" + "01";
  }

  /** strptime also takes unpadded months and days, and a space before a one-digit day. */
  lemma StrptimeAcceptsUnpadded()
    ensures ParseDate("2024-1-5") == Some(Date(2024, 1, 5))
    ensures ParseDate("2024-01- 5") == Some(Date(2024, 1, 5))
  {
    Value2024();
    ParseDateSplit("2024", "1", "5");
    assert "2024-1-5" == "2024" + "-" + "1" + "-" + "5";
    ParseDateSplit("2024", "01", " 5");
    assert "2024-01- 5" == "2024" + "-" + "01" + "-" + " 5";
  }

  /** strptime refuses a day the month does not have, year 0, and trailing digits. */
  lemma StrptimeRefuses()
    ensures ParseDate("2024-02-30") == None
    ensures ParseDate("0000-01-01") == None
    ensures ParseDate("2024-01-015") == None
  {
    Value2024();
    ParseDateSplit("2024", "02", "30");
    assert "2024-02-30" == "2024" + "-" + "02" + "-" + "30";
    assert Value("0000") == 0 by {
      assert "0000"[..3] == "000" && "000"[..2] == "00" && "00"[..1] == "0" && "0"[..0] == "";
    }
    ParseDateSplit("0000", "01", "01");
    assert "0000-01-01" == "0000" + "-" + "01" + "-" + "01";
    ParseDateSplit("2024", "01", "015");
    assert "2024-01-015" == "2024" + "-" + "01" + "-" + "015";
  }
}
