/** Canonical dates and two-decimal amounts as text: text order is calendar order
    (full-date of RFC 3339, section 5.6), and amounts order as their cents do. */
module CanonicalText {
  import opened Options

  // ---- Text order: code units, shorter prefix first ----

  predicate TextLE(s: string, t: string) {
    s == [] || (t != [] && (s[0] < t[0] || (s[0] == t[0] && TextLE(s[1..], t[1..]))))
  }

  predicate TextLess(s: string, t: string) { s != t && TextLE(s, t) }

  lemma {:induction false} TextLEAntisymmetric(s: string, t: string)
    requires TextLE(s, t) && TextLE(t, s)
    ensures s == t
  {
    if s != [] && t != [] {
      TextLEAntisymmetric(s[1..], t[1..]);
      assert s == [s[0]] + s[1..] && t == [t[0]] + t[1..];
    }
  }

  lemma {:induction false} TextLETotal(s: string, t: string)
    ensures TextLE(s, t) || TextLE(t, s)
  {
    if s != [] && t != [] { TextLETotal(s[1..], t[1..]); }
  }

  lemma {:induction false} TextLETransitive(s: string, t: string, u: string)
    requires TextLE(s, t) && TextLE(t, u)
    ensures TextLE(s, u)
  {
    if s != [] && t != [] && u != [] && s[0] == t[0] == u[0] { TextLETransitive(s[1..], t[1..], u[1..]); }
  }

  // ---- Digits ----

  predicate IsDigit(c: char) { '0' <= c <= '9' }

  function DigitValue(c: char): nat
    requires IsDigit(c)
  {
    c as int - '0' as int
  }

  function DigitChar(n: nat): char
    requires n < 10
  {
    ('0' as int + n) as char
  }

  function Two(n: nat): string
    requires n < 100
  {
    [DigitChar(n / 10), DigitChar(n % 10)]
  }

  function Four(n: nat): string
    requires n < 10000
  {
    Two(n / 100) + Two(n % 100)
  }

  lemma TwoOrder(n: nat, m: nat, s: string, t: string)
    requires n < 100 && m < 100
    ensures TextLE(Two(n) + s, Two(m) + t) <==> n < m || (n == m && TextLE(s, t))
  {
    var a, b := Two(n) + s, Two(m) + t;
    assert a[1..] == [DigitChar(n % 10)] + s && b[1..] == [DigitChar(m % 10)] + t;
    assert a[1..][1..] == s && b[1..][1..] == t;
  }

  lemma FourOrder(n: nat, m: nat, s: string, t: string)
    requires n < 10000 && m < 10000
    ensures TextLE(Four(n) + s, Four(m) + t) <==> n < m || (n == m && TextLE(s, t))
  {
    assert Four(n) + s == Two(n / 100) + (Two(n % 100) + s);
    assert Four(m) + t == Two(m / 100) + (Two(m % 100) + t);
    TwoOrder(n / 100, m / 100, Two(n % 100) + s, Two(m % 100) + t);
    TwoOrder(n % 100, m % 100, s, t);
  }

  // ---- Dates ----

  datatype Date = Date(year: nat, month: nat, day: nat)

  predicate IsLeap(y: nat) { y % 4 == 0 && (y % 100 != 0 || y % 400 == 0) }

  function DaysInMonth(y: nat, m: nat): nat {
    if m == 2 then (if IsLeap(y) then 29 else 28)
    else if m == 4 || m == 6 || m == 9 || m == 11 then 30
    else 31
  }

  predicate ValidDate(d: Date) {
    1 <= d.year <= 9999 && 1 <= d.month <= 12 && 1 <= d.day <= DaysInMonth(d.year, d.month)
  }

  function DaysBeforeYear(y: nat): int
    requires y >= 1
  {
    (y - 1) * 365 + (y - 1) / 4 - (y - 1) / 100 + (y - 1) / 400
  }

  function DaysBeforeMonth(y: nat, m: nat): int
    requires m >= 1
  {
    if m == 1 then 0 else DaysBeforeMonth(y, m - 1) + DaysInMonth(y, m - 1)
  }

  /** date.toordinal(), from which a difference of dates counts its days. */
  function Ordinal(d: Date): int
    requires ValidDate(d)
  {
    DaysBeforeYear(d.year) + DaysBeforeMonth(d.year, d.month) + d.day
  }

  /** The order of Python dates: year, month, day. */
  predicate DateLE(a: Date, b: Date) {
    a.year < b.year || (a.year == b.year && (a.month < b.month || (a.month == b.month && a.day <= b.day)))
  }

  function Iso(d: Date): string
    requires ValidDate(d)
  {
    Four(d.year) + ("-" + (Two(d.month) + ("-" + Two(d.day))))
  }

  function ReadTwo(s: string): nat
    requires |s| == 2 && IsDigit(s[0]) && IsDigit(s[1])
  {
    DigitValue(s[0]) * 10 + DigitValue(s[1])
  }

  /** fromisoformat restricted to canonical text, the texts equal to their isoformat. */
  function FromIso(s: string): Option<Date> {
    if |s| == 10 && s[4] == '-' && s[7] == '-'
       && (forall i | 0 <= i < 10 && i != 4 && i != 7 :: IsDigit(s[i])) then
      var d := Date(ReadTwo(s[0..2]) * 100 + ReadTwo(s[2..4]), ReadTwo(s[5..7]), ReadTwo(s[8..10]));
      if ValidDate(d) then Some(d) else None
    else None
  }

  lemma TwoRoundTrip(s: string)
    requires |s| == 2 && IsDigit(s[0]) && IsDigit(s[1])
    ensures ReadTwo(s) < 100 && Two(ReadTwo(s)) == s
  {
  }

  lemma TwoReadBack(n: nat)
    requires n < 100
    ensures |Two(n)| == 2 && IsDigit(Two(n)[0]) && IsDigit(Two(n)[1]) && ReadTwo(Two(n)) == n
  {
  }

  lemma FourOfPairs(a: nat, b: nat)
    requires a < 100 && b < 100
    ensures Four(a * 100 + b) == Two(a) + Two(b)
  {
    assert (a * 100 + b) / 100 == a && (a * 100 + b) % 100 == b;
  }

  lemma IsoRoundTrip(d: Date)
    requires ValidDate(d)
    ensures FromIso(Iso(d)) == Some(d)
  {
    hide Two, ReadTwo, IsDigit;
    var s := Iso(d);
    TwoReadBack(d.year / 100);
    TwoReadBack(d.year % 100);
    TwoReadBack(d.month);
    TwoReadBack(d.day);
    assert s[0..2] == Two(d.year / 100) && s[2..4] == Two(d.year % 100);
    assert s[5..7] == Two(d.month) && s[8..10] == Two(d.day);
    assert s[4] == '-' && s[7] == '-';
    assert s[0] == s[0..2][0] && s[1] == s[0..2][1] && s[2] == s[2..4][0] && s[3] == s[2..4][1];
    assert s[5] == s[5..7][0] && s[6] == s[5..7][1] && s[8] == s[8..10][0] && s[9] == s[8..10][1];
  }

  lemma CanonicalTextIsIso(s: string)
    requires FromIso(s).Some?
    ensures ValidDate(FromIso(s).value) && Iso(FromIso(s).value) == s
  {
    hide Two, ReadTwo, IsDigit, Four;
    TwoRoundTrip(s[0..2]);
    TwoRoundTrip(s[2..4]);
    TwoRoundTrip(s[5..7]);
    TwoRoundTrip(s[8..10]);
    FourOfPairs(ReadTwo(s[0..2]), ReadTwo(s[2..4]));
    assert s == s[0..2] + s[2..4] + ("-" + (s[5..7] + ("-" + s[8..10])));
  }

  lemma DashOrder(s: string, t: string)
    ensures TextLE("-" + s, "-" + t) <==> TextLE(s, t)
  {
    assert ("-" + s)[1..] == s && ("-" + t)[1..] == t;
  }

  lemma TextOrderIsDateOrder(a: Date, b: Date)
    requires ValidDate(a) && ValidDate(b)
    ensures TextLE(Iso(a), Iso(b)) <==> DateLE(a, b)
  {
    FourOrder(a.year, b.year, "-" + (Two(a.month) + ("-" + Two(a.day))), "-" + (Two(b.month) + ("-" + Two(b.day))));
    DashOrder(Two(a.month) + ("-" + Two(a.day)), Two(b.month) + ("-" + Two(b.day)));
    TwoOrder(a.month, b.month, "-" + Two(a.day), "-" + Two(b.day));
    DashOrder(Two(a.day), Two(b.day));
    TwoOrder(a.day, b.day, "", "");
    assert Two(a.day) + "" == Two(a.day) && Two(b.day) + "" == Two(b.day);
  }

  // ---- Calendar order is the order of ordinals ----

  lemma FourYears(k: nat)
    ensures (k + 1) / 4 == k / 4 + if (k + 1) % 4 == 0 then 1 else 0
  {
  }

  lemma Century(k: nat)
    ensures (k + 1) / 100 == k / 100 + if (k + 1) % 100 == 0 then 1 else 0
  {
  }

  lemma FourCenturies(k: nat)
    ensures (k + 1) / 400 == k / 400 + if (k + 1) % 400 == 0 then 1 else 0
  {
  }

  lemma HundredTimes(k: nat)
    ensures 100 * k % 100 == 0
  {
  }

  lemma FourTimes(k: nat)
    ensures 4 * k % 4 == 0
  {
  }

  lemma FourCenturiesAreCenturies(y: nat)
    ensures y % 400 == 0 ==> y % 100 == 0
  {
    if y % 400 == 0 {
      HundredTimes(4 * (y / 400));
      assert y == 100 * (4 * (y / 400));
    }
  }

  lemma CenturiesAreFourYears(y: nat)
    ensures y % 100 == 0 ==> y % 4 == 0
  {
    if y % 100 == 0 {
      FourTimes(25 * (y / 100));
      assert y == 4 * (25 * (y / 100));
    }
  }

  lemma LeapCount(y: nat)
    ensures (if IsLeap(y) then 1 else 0)
         == (if y % 4 == 0 then 1 else 0) - (if y % 100 == 0 then 1 else 0) + (if y % 400 == 0 then 1 else 0)
  {
    FourCenturiesAreCenturies(y);
    CenturiesAreFourYears(y);
  }

  lemma YearStep(y: nat)
    requires y >= 1
    ensures DaysBeforeYear(y + 1) == DaysBeforeYear(y) + DaysBeforeMonth(y, 12) + 31
  {
    FourYears(y - 1);
    Century(y - 1);
    FourCenturies(y - 1);
    LeapCount(y);
    hide IsLeap;
    MonthsOfYear(y);
  }

  lemma MonthsOfYear(y: nat)
    ensures DaysBeforeMonth(y, 12) == if IsLeap(y) then 335 else 334
    ensures DaysBeforeMonth(y, 9) == if IsLeap(y) then 244 else 243
    ensures DaysBeforeMonth(y, 10) == if IsLeap(y) then 274 else 273
  {
    var feb := 31 + DaysInMonth(y, 2);
    assert DaysBeforeMonth(y, 2) == 31;
    assert DaysBeforeMonth(y, 4) == feb + 31;
    assert DaysBeforeMonth(y, 6) == feb + 92;
    assert DaysBeforeMonth(y, 8) == feb + 153;
    assert DaysBeforeMonth(y, 9) == feb + 184;
    assert DaysBeforeMonth(y, 10) == feb + 214;
    assert DaysBeforeMonth(y, 11) == feb + 245;
  }

  lemma {:induction false} YearsGrow(y: nat, z: nat)
    requires 1 <= y < z
    ensures DaysBeforeYear(y) + 365 <= DaysBeforeYear(z)
    ensures DaysBeforeYear(y + 1) <= DaysBeforeYear(z)
    decreases z
  {
    YearStep(z - 1);
    MonthsOfYear(z - 1);
    if y < z - 1 { YearsGrow(y, z - 1); }
  }

  lemma {:induction false} MonthsGrow(y: nat, m: nat, n: nat)
    requires 1 <= m < n
    ensures DaysBeforeMonth(y, m) + DaysInMonth(y, m) <= DaysBeforeMonth(y, n)
    decreases n
  {
    if m < n - 1 { MonthsGrow(y, m, n - 1); }
  }

  lemma DayWithinYear(d: Date)
    requires ValidDate(d)
    ensures DaysBeforeYear(d.year) < Ordinal(d) <= DaysBeforeYear(d.year + 1)
  {
    YearStep(d.year);
    MonthsOfYear(d.year);
    if d.month < 12 { MonthsGrow(d.year, d.month, 12); }
    if d.month > 1 { MonthsGrow(d.year, 1, d.month); }
  }

  lemma EarlierDate(a: Date, b: Date)
    requires ValidDate(a) && ValidDate(b) && DateLE(a, b) && a != b
    ensures Ordinal(a) < Ordinal(b)
  {
    if a.year < b.year {
      DayWithinYear(a);
      DayWithinYear(b);
      if a.year + 1 < b.year { YearsGrow(a.year + 1, b.year); }
    } else if a.month < b.month {
      MonthsGrow(a.year, a.month, b.month);
    }
  }

  /** Comparing canonical texts, dates and day ordinals is one and the same order. */
  lemma TextOrderIsCalendarOrder(s: string, t: string)
    requires FromIso(s).Some? && FromIso(t).Some?
    ensures var a, b := FromIso(s).value, FromIso(t).value;
      && ValidDate(a) && ValidDate(b)
      && (TextLE(s, t) <==> DateLE(a, b))
      && (TextLE(s, t) <==> Ordinal(a) <= Ordinal(b))
      && (s == t <==> Ordinal(a) == Ordinal(b))
  {
    var a, b := FromIso(s).value, FromIso(t).value;
    CanonicalTextIsIso(s);
    CanonicalTextIsIso(t);
    TextOrderIsDateOrder(a, b);
    if a != b {
      if DateLE(a, b) { EarlierDate(a, b); } else { EarlierDate(b, a); }
    }
  }

  // ---- Fiscal years ----

  function FiscalYear(d: Date): nat { d.year + if d.month >= 10 then 1 else 0 }

  /** A fiscal year is exactly the text range from 1 October to 30 September, cut off at the ends of the calendar. */
  lemma FiscalYearIsTextRange(s: string, fy: int)
    requires FromIso(s).Some?
    ensures FiscalYear(FromIso(s).value) == fy <==>
      && 1 <= fy <= 10000
      && (fy > 1 ==> TextLE(Iso(Date(fy - 1, 10, 1)), s))
      && (fy < 10000 ==> TextLE(s, Iso(Date(fy, 9, 30))))
  {
    CanonicalTextIsIso(s);
    if 1 < fy <= 10000 { TextOrderIsDateOrder(Date(fy - 1, 10, 1), FromIso(s).value); }
    if 1 <= fy < 10000 { TextOrderIsDateOrder(FromIso(s).value, Date(fy, 9, 30)); }
  }

  /** From its first day to its last a fiscal year has 364 days to go, or 365 when it holds a 29 February. */
  lemma FiscalYearSpan(fy: nat)
    requires 2 <= fy <= 9999
    ensures Ordinal(Date(fy, 9, 30)) - Ordinal(Date(fy - 1, 10, 1)) == if IsLeap(fy) then 365 else 364
  {
    YearStep(fy - 1);
    MonthsOfYear(fy - 1);
    MonthsOfYear(fy);
  }

  /** The calendar is the proleptic Gregorian one. */
  lemma KnownDates()
    ensures ValidDate(Date(2000, 2, 29)) && ValidDate(Date(2024, 2, 29))
    ensures !ValidDate(Date(1900, 2, 29)) && !ValidDate(Date(2023, 2, 29)) && !ValidDate(Date(2024, 2, 30))
    ensures !ValidDate(Date(2024, 4, 31)) && !ValidDate(Date(2024, 6, 31)) && !ValidDate(Date(2024, 9, 31))
    ensures !ValidDate(Date(2024, 11, 31)) && !ValidDate(Date(2024, 13, 1))
    ensures ValidDate(Date(1, 1, 1)) && !ValidDate(Date(0, 12, 31))
    ensures ValidDate(Date(9999, 12, 31)) && !ValidDate(Date(10000, 1, 1))
  {
  }

  /** Its days are counted from 1 January of year 1. */
  lemma KnownDays(d: Date)
    requires ValidDate(d) && d.month == 1 && d.day == 1
    ensures d.year == 1 ==> Ordinal(d) == 1
    ensures d.year == 1970 ==> Ordinal(d) == 719163
    ensures d.year == 2000 ==> Ordinal(d) == 730120
    ensures d.year == 9999 ==> Ordinal(d) == 3651695
  {
    FirstMonth(d.year);
    hide DaysBeforeMonth;
  }

  lemma FirstMonth(y: nat)
    ensures DaysBeforeMonth(y, 1) == 0
  {
  }

  // ---- Amounts ----

  function Number(s: string): nat
    requires forall c | c in s :: IsDigit(c)
  {
    if s == [] then 0 else
      assert s[|s| - 1] in s;
      Number(s[..|s| - 1]) * 10 + DigitValue(s[|s| - 1])
  }

  /** Whole dollars without a leading zero, at most twelve digits, a point and two decimals. */
  predicate ValidAmount(t: string) {
    && 4 <= |t| <= 15 && t[|t| - 3] == '.'
    && (forall c | c in t[..|t| - 3] :: IsDigit(c)) && (forall c | c in t[|t| - 2..] :: IsDigit(c))
    && (|t| == 4 || t[0] != '0')
  }

  /** The value of Decimal(t). */
  function DecimalOf(t: string): real
    requires ValidAmount(t)
  {
    Number(t[..|t| - 3]) as real + Number(t[|t| - 2..]) as real / 100.0
  }

  /** int(Decimal(t) * 100). */
  function CentsOf(t: string): int
    requires ValidAmount(t)
  {
    (DecimalOf(t) * 100.0).Floor
  }

  lemma CentsAreExact(t: string)
    requires ValidAmount(t)
    ensures CentsOf(t) as real == DecimalOf(t) * 100.0
    ensures CentsOf(t) == Number(t[..|t| - 3]) * 100 + Number(t[|t| - 2..])
  {
    hide Number, IsDigit;
    var whole, part := Number(t[..|t| - 3]), Number(t[|t| - 2..]);
    Hundredths(whole, part);
    FloorOfWhole(whole * 100 + part);
  }

  /** Cents from text, and texts that are no amounts. */
  lemma KnownAmounts()
    ensures ValidAmount("12.34") && CentsOf("12.34") == 1234 && ValidAmount("0.05") && CentsOf("0.05") == 5
    ensures !ValidAmount("012.34") && !ValidAmount("12.3") && !ValidAmount(".34") && !ValidAmount("1234567890123.00")
  {
    assert "12.34"[..2] == "12" && "12.34"[3..] == "34" && "0.05"[..1] == "0" && "0.05"[2..] == "05";
    assert ValidAmount("12.34") && ValidAmount("0.05");
    CentsAreExact("12.34");
    CentsAreExact("0.05");
    NumberOfTwo("12");
    NumberOfTwo("34");
    NumberOfTwo("05");
    assert Number("0"[..0]) == 0 && Number("0") == 0;
  }

  /** Twelve digits are the most. */
  lemma LongestAmount()
    ensures ValidAmount("999999999999.99")
  {
    assert "999999999999.99"[..12] == "999999999999" && "999999999999.99"[13..] == "99";
  }

  lemma NumberOfTwo(s: string)
    requires |s| == 2 && IsDigit(s[0]) && IsDigit(s[1])
    ensures Number(s) == DigitValue(s[0]) * 10 + DigitValue(s[1])
  {
    assert s[..1] == [s[0]] && [s[0]][..0] == [];
    assert Number([s[0]]) == DigitValue(s[0]);
  }

  lemma FloorOfWhole(n: int)
    ensures (n as real).Floor == n
  {
  }

  lemma Hundredths(whole: nat, part: nat)
    ensures (whole as real + part as real / 100.0) * 100.0 == (whole * 100 + part) as real
  {
    assert part as real / 100.0 * 100.0 == part as real;
  }

  lemma AmountOrderIsCentOrder(a: string, b: string)
    requires ValidAmount(a) && ValidAmount(b)
    ensures DecimalOf(a) < DecimalOf(b) <==> CentsOf(a) < CentsOf(b)
    ensures DecimalOf(a) == DecimalOf(b) <==> CentsOf(a) == CentsOf(b)
  {
    CentsAreExact(a);
    CentsAreExact(b);
  }
}
