/**
 * The compact `YYYYMMDD` dates the search API returns, read the way `pandas.to_datetime` reads them
 * with `format="%Y%m%d"`, and written back with `strftime` as `%Y-%m-%d` or `%Y%m%d`.
 */
module Dates {
  import opened Wrappers
  import opened Strings
  import opened Exceptions

  datatype Date = Date(year: int, month: int, day: int)

  /** The Gregorian leap-year rule. */
  predicate IsLeapYear(y: int) {
    y % 4 == 0 && (y % 100 != 0 || y % 400 == 0)
  }

  function DaysInMonth(y: int, m: int): int
    requires 1 <= m <= 12
  {
    if m == 2 then (if IsLeapYear(y) then 29 else 28)
    else if m == 4 || m == 6 || m == 9 || m == 11 then 30
    else 31
  }

  predicate IsCalendarDate(d: Date) {
    1 <= d.month <= 12 && 1 <= d.day <= DaysInMonth(d.year, d.month)
  }

  /** Calendar order: `a` is the same day as `b` or an earlier one. */
  predicate NotAfter(a: Date, b: Date) {
    a.year < b.year
    || (a.year == b.year && a.month < b.month)
    || (a.year == b.year && a.month == b.month && a.day <= b.day)
  }

  /**
   * The days a pandas `Timestamp` (nanoseconds since 1970 in 64 bits) can hold at midnight;
   * a date outside them is out of bounds, which `errors="coerce"` turns into `NaT`.
   */
  const FirstTimestampDay := Date(1677, 9, 22)
  const LastTimestampDay := Date(2262, 4, 11)

  predicate InTimestampRange(d: Date) {
    NotAfter(FirstTimestampDay, d) && NotAfter(d, LastTimestampDay)
  }

  /** The year, month and day fields of an eight-digit string. */
  function CompactFields(s: string): Date
    requires |s| == 8 && AllDigits(s)
  {
    Date(DigitsValue(s[..4]), DigitsValue(s[4..6]), DigitsValue(s[6..]))
  }

  /** The day a compact date string names, or `None` when it names no representable day. */
  function ParseCompact(s: string): (r: Option<Date>)
    ensures r.Some? ==> IsCalendarDate(r.value) && InTimestampRange(r.value)
  {
    if |s| == 8 && AllDigits(s) && IsCalendarDate(CompactFields(s)) && InTimestampRange(CompactFields(s))
    then Some(CompactFields(s))
    else None
  }

  /** `strftime("%Y-%m-%d")`. */
  function FormatIso(d: Date): string
    requires 0 <= d.year && 0 <= d.month && 0 <= d.day
  {
    PadDigits(d.year, 4) + "-" + PadDigits(d.month, 2) + "-" + PadDigits(d.day, 2)
  }

  /** `strftime("%Y%m%d")`. */
  function FormatCompact(d: Date): string
    requires 0 <= d.year && 0 <= d.month && 0 <= d.day
  {
    PadDigits(d.year, 4) + PadDigits(d.month, 2) + PadDigits(d.day, 2)
  }

  /**
   * The current revision's `insert_date` column: parse with `format="%Y%m%d"`, coercing failure
   * to `NaT` (here `None`), then write the ISO form.
   */
  function ToIsoDate(raw: string): (r: Option<string>)
    ensures r.Some? <==> ParseCompact(raw).Some?
    ensures r.Some? ==>
              && |r.value| == 10 && r.value[4] == '-' && r.value[7] == '-'
              && AllDigits(r.value[..4]) && AllDigits(r.value[5..7]) && AllDigits(r.value[8..])
  {
    match ParseCompact(raw)
    case None => None
    case Some(d) => Some(FormatIso(d))
  }

  /**
   * The older revision's `insert_date` column: parse without `errors="coerce"`, so a bad date
   * raises, then write the compact form again.
   */
  function ToCompactDate(raw: string): (r: Result<string, Error>)
    ensures r.Success? <==> ParseCompact(raw).Some?
    ensures r.Success? ==> |r.value| == 8 && AllDigits(r.value)
    ensures r.Failure? ==> r.error.ValueError?
  {
    match ParseCompact(raw)
    case None => Failure(ValueError("unparseable insert_date"))
    case Some(d) => Success(FormatCompact(d))
  }

  /** The text with every `-` taken out. */
  function RemoveDashes(s: string): string
    decreases |s|
  {
    if s == [] then [] else (if s[0] == '-' then [] else [s[0]]) + RemoveDashes(s[1..])
  }

  lemma {:induction false} RemoveDashesAppend(a: string, b: string)
    ensures RemoveDashes(a + b) == RemoveDashes(a) + RemoveDashes(b)
  {
    if a != [] {
      var head := if a[0] == '-' then [] else [a[0]];
      assert (a + b)[0] == a[0] && (a + b)[1..] == a[1..] + b;
      calc {
        RemoveDashes(a + b);
        head + RemoveDashes(a[1..] + b);
        { RemoveDashesAppend(a[1..], b); }
        head + (RemoveDashes(a[1..]) + RemoveDashes(b));
        RemoveDashes(a) + RemoveDashes(b);
      }
    } else {
      assert a + b == b;
    }
  }

  lemma {:induction false} RemoveDashesOfDigits(s: string)
    requires AllDigits(s)
    ensures RemoveDashes(s) == s
  {
    if s != [] {
      RemoveDashesOfDigits(s[1..]);
    }
  }

  /** Each field written back is the field as it stood in the input string. */
  lemma CompactFieldsReprint(s: string)
    requires |s| == 8 && AllDigits(s)
    ensures PadDigits(CompactFields(s).year, 4) == s[..4]
    ensures PadDigits(CompactFields(s).month, 2) == s[4..6]
    ensures PadDigits(CompactFields(s).day, 2) == s[6..]
  {
    PadDigitsOfValue(s[..4]);
    PadDigitsOfValue(s[4..6]);
    PadDigitsOfValue(s[6..]);
  }

  /**
   * A compact date becomes an ISO date exactly when it is eight digits naming a real day that a
   * `Timestamp` can hold; the ISO text is `YYYY-MM-DD`, and deleting its dashes gives the input back.
   */
  lemma IsoDateRoundTrip(raw: string)
    ensures ToIsoDate(raw).Some? <==>
      (|raw| == 8 && AllDigits(raw) && IsCalendarDate(CompactFields(raw)) && InTimestampRange(CompactFields(raw)))
    ensures ToIsoDate(raw).Some? ==>
      var iso := ToIsoDate(raw).value;
      |iso| == 10 && iso[4] == '-' && iso[7] == '-' && RemoveDashes(iso) == raw
  {
    if ToIsoDate(raw).Some? {
      var y, m, d := PadDigits(CompactFields(raw).year, 4), PadDigits(CompactFields(raw).month, 2), PadDigits(CompactFields(raw).day, 2);
      CompactFieldsReprint(raw);
      assert ToIsoDate(raw).value == y + "-" + m + "-" + d;
      RemoveDashesAppend(y + "-" + m + "-", d);
      RemoveDashesAppend(y + "-" + m, "-");
      RemoveDashesAppend(y + "-", m);
      RemoveDashesAppend(y, "-");
      RemoveDashesOfDigits(y);
      RemoveDashesOfDigits(m);
      RemoveDashesOfDigits(d);
      assert raw == raw[..4] + raw[4..6] + raw[6..];
    }
  }

  /** Every day a `Timestamp` can hold is read back from its own compact form. */
  lemma FormatParseRoundTrip(d: Date)
    requires IsCalendarDate(d) && InTimestampRange(d)
    ensures ParseCompact(FormatCompact(d)) == Some(d)
    ensures ToIsoDate(FormatCompact(d)) == Some(FormatIso(d))
  {
    var s := FormatCompact(d);
    var y, m, dd := PadDigits(d.year, 4), PadDigits(d.month, 2), PadDigits(d.day, 2);
    assert Pow10(4) == 10000 && Pow10(2) == 100;
    PadDigitsValue(d.year, 4);
    PadDigitsValue(d.month, 2);
    PadDigitsValue(d.day, 2);
    assert s[..4] == y && s[4..6] == m && s[6..] == dd;
    assert CompactFields(s) == d;
  }

  /** The older revision writes every date it accepts exactly as it read it, and accepts the same dates. */
  lemma CompactDateIsIdentity(raw: string)
    ensures ToCompactDate(raw).Success? <==> ToIsoDate(raw).Some?
    ensures ToCompactDate(raw).Success? ==> ToCompactDate(raw).value == raw
  {
    if ToCompactDate(raw).Success? {
      CompactFieldsReprint(raw);
      assert raw == raw[..4] + raw[4..6] + raw[6..];
    }
  }

  function Digit(c: char): int {
    c as int - '0' as int
  }

  lemma Value1(s: string)
    requires |s| == 1 && AllDigits(s)
    ensures DigitsValue(s) == Digit(s[0])
  {
    assert s[..0] == [];
  }

  lemma Value2(s: string)
    requires |s| == 2 && AllDigits(s)
    ensures DigitsValue(s) == Digit(s[0]) * 10 + Digit(s[1])
  {
    Value1(s[..1]);
  }

  lemma Value4(s: string)
    requires |s| == 4 && AllDigits(s)
    ensures DigitsValue(s) == Digit(s[0]) * 1000 + Digit(s[1]) * 100 + Digit(s[2]) * 10 + Digit(s[3])
  {
    assert s[..3][..2] == s[..2];
    Value2(s[..2]);
    assert DigitsValue(s[..3]) == DigitsValue(s[..2]) * 10 + Digit(s[2]);
  }

  lemma FieldValues(s: string)
    requires |s| == 8 && AllDigits(s)
    ensures CompactFields(s).year == Digit(s[0]) * 1000 + Digit(s[1]) * 100 + Digit(s[2]) * 10 + Digit(s[3])
    ensures CompactFields(s).month == Digit(s[4]) * 10 + Digit(s[5])
    ensures CompactFields(s).day == Digit(s[6]) * 10 + Digit(s[7])
  {
    Value4(s[..4]);
    Value2(s[4..6]);
    Value2(s[6..]);
  }

  /** A leap day exists in 2024 and is written back in ISO form. */
  lemma LeapDayExample()
    ensures ToIsoDate("20240229") == Some("2024-02-29")
  {
    LeapDayParses();
    LeapDayFields();
  }

  lemma LeapDayParses()
    ensures ParseCompact("20240229") == Some(Date(2024, 2, 29))
  {
    FieldValues("20240229");
  }

  lemma LeapDayFields()
    ensures FormatIso(Date(2024, 2, 29)) == "2024-02-29"
  {
    assert PadDigits(2024, 4) == "2024";
    assert PadDigits(2, 2) == "02";
    assert PadDigits(29, 2) == "29";
  }

  /** The older revision keeps a valid compact date as it is. */
  lemma LeapDayCompactExample()
    ensures ToCompactDate("20240229") == Success("20240229")
  {
    LeapDayExample();
    CompactDateIsIdentity("20240229");
  }

  /** No leap day in 2023. */
  lemma NoLeapDayExample()
    ensures ToIsoDate("20230229") == None
  {
    FieldValues("20230229");
  }

  /** No thirteenth month: the older revision raises. */
  lemma NoThirteenthMonthExample()
    ensures ToCompactDate("20231301").Failure?
  {
    FieldValues("20231301");
  }

  /** Dashes in the input, or a day before the first representable timestamp, give no date. */
  lemma OutOfFormatExamples()
    ensures ToIsoDate("2024-02-29") == None
    ensures ToIsoDate("16000101") == None
  {
    FieldValues("16000101");
    assert !IsDigit("2024-02-29"[4]);
  }
}
