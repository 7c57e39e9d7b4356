/** `datetime.strptime(s, "%Y-%m-%d")` followed by `strftime("%Y-%m")`: the month key that
    Backend/SpendingInsights.py derives from a date string. The grammar is the one of
    CPython's `_strptime` for these three directives, on ASCII digits. */
module Dates {
  import opened Wrappers
  import opened Text
  import opened Numeric

  datatype Date = Date(year: nat, month: nat, day: nat)

  predicate IsLeap(y: nat) {
    y % 4 == 0 && (y % 100 != 0 || y % 400 == 0)
  }

  function DaysIn(y: nat, m: nat): nat
    requires 1 <= m <= 12
  {
    if m == 2 then (if IsLeap(y) then 29 else 28)
    else if m == 4 || m == 6 || m == 9 || m == 11 then 30
    else 31
  }

  /** A day of the proleptic Gregorian calendar that `datetime` can represent. */
  predicate IsCalendarDate(d: Date) {
    1 <= d.year <= 9999 && 1 <= d.month <= 12 && 1 <= d.day <= DaysIn(d.year, d.month)
  }

  /** Length of the text that `%m`, the pattern `1[0-2]|0[1-9]|[1-9]`, takes from the front of
      `s`; 0 when it does not match. */
  function MonthToken(s: string): (k: nat)
    ensures k <= |s| && k <= 2
  {
    if |s| >= 2 && s[0] == '1' && '0' <= s[1] <= '2' then 2
    else if |s| >= 2 && s[0] == '0' && '1' <= s[1] <= '9' then 2
    else if |s| >= 1 && '1' <= s[0] <= '9' then 1
    else 0
  }

  /** Length of the text that `%d`, the pattern `3[01]|[12]\d|0[1-9]|[1-9]| [1-9]`, takes from
      the front of `s`: the first alternative that matches wins. */
  function DayToken(s: string): (k: nat)
    ensures k <= |s| && k <= 2
  {
    if |s| >= 2 && s[0] == '3' && '0' <= s[1] <= '1' then 2
    else if |s| >= 2 && '1' <= s[0] <= '2' && IsDigit(s[1]) then 2
    else if |s| >= 2 && s[0] == '0' && '1' <= s[1] <= '9' then 2
    else if |s| >= 1 && '1' <= s[0] <= '9' then 1
    else if |s| >= 2 && s[0] == ' ' && '1' <= s[1] <= '9' then 2
    else 0
  }

  /** `int(token)` of a matched month or day token; `int` ignores the leading space of " 5". */
  function TokenValue(t: string): nat
    requires 1 <= |t| <= 2
    requires t[|t| - 1] != ' ' && IsDigit(t[|t| - 1]) && (|t| == 2 ==> t[0] == ' ' || IsDigit(t[0]))
  {
    var digits := if t[0] == ' ' then t[1..] else t;
    DigitsValue(digits)
  }

  /** `strptime(s, "%Y-%m-%d")`: four digits, '-', a month token, '-', a day token and
      nothing after it ("unconverted data remains" otherwise), then a date `datetime`
      accepts. `None` stands for the ValueError raised otherwise. */
  function ParseDate(s: string): (r: Option<Date>)
    ensures r.Some? ==> IsCalendarDate(r.value)
  {
    if |s| < 5 || !AllDigits(s[..4]) || s[4] != '-' then None
    else
      var rest := s[5..];
      var mk := MonthToken(rest);
      if mk == 0 || mk == |rest| || rest[mk] != '-' then None
      else
        var tail := rest[mk + 1..];
        var dk := DayToken(tail);
        if dk == 0 || dk != |tail| then None
        else
          var y, m, d := DigitsValue(s[..4]), TokenValue(rest[..mk]), TokenValue(tail);
          assert y <= 9999 by { DigitsBound(s[..4]); }
          if y == 0 || m < 1 || m > 12 || d < 1 || d > DaysIn(y, m) then None
          else Some(Date(y, m, d))
  }

  lemma DigitsBound(s: string)
    requires AllDigits(s) && |s| == 4
    ensures DigitsValue(s) <= 9999
  {
    assert s[..3][..2] == s[..2] && s[..2][..1] == s[..1] && s[..1][..0] == [];
    assert DigitsValue(s[..1]) <= 9;
    assert DigitsValue(s[..2]) <= 99;
    assert DigitsValue(s[..3]) <= 999;
  }

  function TwoDigits(n: nat): string
    requires n < 100
  {
    [DigitChar(n / 10), DigitChar(n % 10)]
  }

  /** `strftime("%Y-%m")`: the year in decimal, as the C library on Linux writes it (no
      padding below 1000), and the month in two digits. */
  function YearMonth(d: Date): string
    requires IsCalendarDate(d)
  {
    NatToString(d.year) + "-" + TwoDigits(d.month)
  }

  /** A date written the usual way: YYYY-MM-DD, zero-padded, year from 1000 on. */
  predicate IsIsoDate(s: string) {
    && |s| == 10
    && AllDigits(s[..4]) && s[0] != '0' && s[4] == '-'
    && IsDigit(s[5]) && IsDigit(s[6]) && s[7] == '-' && IsDigit(s[8]) && IsDigit(s[9])
    && var m := DigitsValue(s[5..7]);
       var d := DigitsValue(s[8..10]);
       1 <= m <= 12 && 1 <= d <= DaysIn(DigitsValue(s[..4]), m)
  }

  /** A non-empty digit string without a leading zero is `str` of its value. */
  lemma {:induction false} NatToStringOfDigits(s: string)
    requires |s| > 0 && AllDigits(s) && s[0] != '0'
    ensures NatToString(DigitsValue(s)) == s
    decreases |s|
  {
    var init := s[..|s| - 1];
    var last := s[|s| - 1] as int - '0' as int;
    assert AllDigits(init) by {
      forall i | 0 <= i < |init| ensures IsDigit(init[i]) { assert init[i] == s[i]; }
    }
    if |s| > 1 {
      assert init[0] == s[0];
      NatToStringOfDigits(init);
      DigitsPositive(init);
      assert DigitsValue(s) / 10 == DigitsValue(init);
      assert DigitsValue(s) % 10 == last;
      assert s == init + [s[|s| - 1]];
    } else {
      assert init == [];
      assert s == [s[0]];
    }
  }

  lemma {:induction false} DigitsPositive(s: string)
    requires |s| > 0 && AllDigits(s) && s[0] != '0'
    ensures DigitsValue(s) > 0
    decreases |s|
  {
    if |s| > 1 {
      var init := s[..|s| - 1];
      assert init[0] == s[0];
      assert AllDigits(init) by {
        forall i | 0 <= i < |init| ensures IsDigit(init[i]) { assert init[i] == s[i]; }
      }
      DigitsPositive(init);
    }
  }

  lemma TwoDigitsOf(s: string)
    requires |s| == 2 && AllDigits(s)
    ensures DigitsValue(s) < 100
    ensures TwoDigits(DigitsValue(s)) == s
  {
    assert s[..1][..0] == [];
    assert DigitsValue(s[..1]) == s[0] as int - '0' as int;
    assert DigitsValue(s) == (s[0] as int - '0' as int) * 10 + (s[1] as int - '0' as int);
  }

  /** For a date written YYYY-MM-DD, strptime accepts it and the month key is its first
      seven characters. */
  lemma IsoDateMonth(s: string)
    requires IsIsoDate(s)
    ensures ParseDate(s).Some?
    ensures YearMonth(ParseDate(s).value) == s[..7]
  {
    var rest := s[5..];
    assert rest[..2] == s[5..7];
    assert rest[2] == '-';
    assert rest[3..] == s[8..10];
    TwoDigitsOf(s[5..7]);
    TwoDigitsOf(s[8..10]);
    assert MonthToken(rest) == 2;
    assert DayToken(rest[3..]) == 2;
    assert TokenValue(rest[..2]) == DigitsValue(s[5..7]);
    assert TokenValue(rest[3..]) == DigitsValue(s[8..10]);
    assert DigitsValue(s[..4]) <= 9999 by { DigitsBound(s[..4]); }
    DigitsPositive(s[..4]);
    NatToStringOfDigits(s[..4]);
    assert s[..7] == s[..4] + "-" + s[5..7];
  }

  /** A month token must be followed by '-': "2023-13-01" reads month 1, then finds '3'. */
  lemma MonthThirteenRejected()
    ensures ParseDate("2023-13-01").None?
  {
    var s := "2023-13-01";
    assert AllDigits(s[..4]);
    assert s[5..] == "13-01";
    assert MonthToken("13-01") == 1;
  }

  /** Text left after the day is "unconverted data": "2023-05-123" is rejected. */
  lemma UnconvertedDataRejected()
    ensures ParseDate("2023-05-123").None?
  {
    var s := "2023-05-123";
    assert AllDigits(s[..4]);
    assert s[5..] == "05-123";
    assert MonthToken("05-123") == 2;
    assert "05-123"[3..] == "123";
    assert DayToken("123") == 2;
  }

  /** A day the month does not have is rejected: 2023 is not a leap year. */
  lemma February29Rejected()
    ensures ParseDate("2023-02-29").None?
  {
    var s := "2023-02-29";
    assert AllDigits(s[..4]) && s[..4] == "2023";
    assert s[5..] == "02-29";
    assert MonthToken("02-29") == 2;
    assert "02-29"[3..] == "29" && DayToken("29") == 2;
    assert DigitsValue("2023") == 2023 by { assert "2023"[..3] == "202" && "202"[..2] == "20" && "20"[..1] == "2"; }
    assert "02-29"[..2] == "02" && TokenValue("02") == 2 by { assert "02"[..1] == "0" && "0"[..0] == ""; }
  }

  /** strptime also accepts unpadded fields: 29 February 2024 written "2024-2-29". */
  lemma UnpaddedDate()
    ensures ParseDate("2024-2-29") == Some(Date(2024, 2, 29))
  {
    var s := "2024-2-29";
    assert AllDigits(s[..4]) && s[..4] == "2024";
    assert s[5..] == "2-29";
    assert MonthToken("2-29") == 1;
    assert "2-29"[2..] == "29" && DayToken("29") == 2;
    assert DigitsValue("2024") == 2024 by { assert "2024"[..3] == "202" && "202"[..2] == "20" && "20"[..1] == "2"; }
    assert "2-29"[..1] == "2" && TokenValue("2") == 2 by { assert "2"[..0] == ""; }
    assert TokenValue("29") == 29 by { assert "29"[..1] == "2"; }
  }
}
