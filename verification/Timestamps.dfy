/** The fixed-width UTC timestamp text: sorting it sorts by time, and parsing
    it gives back the time at millisecond resolution. */
module Timestamps {
  import opened Options
  import opened Text

  /** A UTC calendar time; nanoseconds below the millisecond are kept apart. */
  datatype Time = Time(year: int, month: int, day: int, hour: int, minute: int, second: int, milli: int, sub: int)

  predicate Leap(year: int) {
    year % 4 == 0 && (year % 100 != 0 || year % 400 == 0)
  }

  function MonthLength(year: int, month: int): int
    requires 1 <= month <= 12
  {
    if month == 2 then (if Leap(year) then 29 else 28)
    else if month in {4, 6, 9, 11} then 30
    else 31
  }

  /** A real date of the years 0 to 9999. */
  predicate Valid(t: Time) {
    && 0 <= t.year <= 9999 && 1 <= t.month <= 12 && 1 <= t.day <= MonthLength(t.year, t.month)
    && 0 <= t.hour < 24 && 0 <= t.minute < 60 && 0 <= t.second < 60
    && 0 <= t.milli < 1000 && 0 <= t.sub < 1_000_000
  }

  // ------------------------------------------------------------ the instant

  function YearLength(year: int): int { if Leap(year) then 366 else 365 }

  function DaysBeforeYear(year: nat): nat {
    if year == 0 then 0 else DaysBeforeYear(year - 1) + YearLength(year - 1)
  }

  function DaysBeforeMonth(year: int, month: int): nat
    requires 1 <= month <= 12
    decreases month
  {
    if month == 1 then 0 else DaysBeforeMonth(year, month - 1) + MonthLength(year, month - 1)
  }

  function DayNumber(t: Time): int
    requires Valid(t)
  {
    DaysBeforeYear(t.year) + DaysBeforeMonth(t.year, t.month) + t.day - 1
  }

  /** Milliseconds since the start of year 0. */
  function Millis(t: Time): int
    requires Valid(t)
  {
    (((DayNumber(t) * 24 + t.hour) * 60 + t.minute) * 60 + t.second) * 1000 + t.milli
  }

  lemma {:induction false} YearsGrow(a: nat, b: nat)
    requires a < b
    ensures DaysBeforeYear(a) + YearLength(a) <= DaysBeforeYear(b)
  {
    if a + 1 == b {
    } else {
      YearsGrow(a, b - 1);
    }
  }

  lemma {:induction false} MonthsGrow(year: int, a: int, b: int)
    requires 1 <= a < b <= 12
    ensures DaysBeforeMonth(year, a) + MonthLength(year, a) <= DaysBeforeMonth(year, b)
    decreases b
  {
    if a + 1 == b {
    } else {
      MonthsGrow(year, a, b - 1);
    }
  }

  lemma {:induction false} TwelveMonths(year: int)
    ensures DaysBeforeMonth(year, 12) + 31 == YearLength(year)
  {
    assert DaysBeforeMonth(year, 4) == 62 + MonthLength(year, 2);
    assert DaysBeforeMonth(year, 7) == 153 + MonthLength(year, 2);
    assert DaysBeforeMonth(year, 10) == 245 + MonthLength(year, 2);
  }

  lemma {:induction false} WithinYear(t: Time)
    requires Valid(t)
    ensures DaysBeforeMonth(t.year, t.month) + t.day <= YearLength(t.year)
  {
    TwelveMonths(t.year);
    if t.month < 12 {
      MonthsGrow(t.year, t.month, 12);
    }
  }

  predicate DateBefore(a: Time, b: Time) {
    a.year < b.year || (a.year == b.year && (a.month < b.month || (a.month == b.month && a.day < b.day)))
  }

  lemma {:induction false} DayNumberOrders(a: Time, b: Time)
    requires Valid(a) && Valid(b) && DateBefore(a, b)
    ensures DayNumber(a) < DayNumber(b)
  {
    WithinYear(a);
    if a.year < b.year {
      YearsGrow(a.year, b.year);
    } else if a.month < b.month {
      MonthsGrow(a.year, a.month, b.month);
    }
  }

  /** Field by field, most significant first. */
  predicate Earlier(a: Time, b: Time) {
    DateBefore(a, b) ||
    (a.year == b.year && a.month == b.month && a.day == b.day &&
     (a.hour < b.hour || (a.hour == b.hour &&
      (a.minute < b.minute || (a.minute == b.minute &&
       (a.second < b.second || (a.second == b.second && a.milli < b.milli)))))))
  }

  lemma {:induction false} EarlierIsLess(a: Time, b: Time)
    requires Valid(a) && Valid(b) && Earlier(a, b)
    ensures Millis(a) < Millis(b)
  {
    if DateBefore(a, b) {
      DayNumberOrders(a, b);
    }
  }

  /** Comparing calendar fields is comparing instants. */
  lemma {:induction false} EarlierIsChronological(a: Time, b: Time)
    requires Valid(a) && Valid(b)
    ensures Earlier(a, b) <==> Millis(a) < Millis(b)
  {
    if Earlier(a, b) {
      EarlierIsLess(a, b);
    } else if Earlier(b, a) {
      EarlierIsLess(b, a);
    } else {
      SameFields(a, b);
    }
  }

  lemma {:induction false} SameFields(a: Time, b: Time)
    requires Valid(a) && Valid(b) && !Earlier(a, b) && !Earlier(b, a)
    ensures a.(sub := 0) == b.(sub := 0) && Millis(a) == Millis(b)
  {
  }

  // --------------------------------------------------------------- the text

  function Pow10(width: nat): nat {
    if width == 0 then 1 else 10 * Pow10(width - 1)
  }

  /** Zero-padded to a fixed width. */
  function Pad(n: nat, width: nat): (text: string)
    ensures |text| == width
  {
    if width == 0 then "" else Pad(n / 10, width - 1) + [DigitOf(n % 10)]
  }

  function Format(t: Time): string
    requires Valid(t)
  {
    Pad(t.year, 4) + ("-" + (Pad(t.month, 2) + ("-" + (Pad(t.day, 2) + (" " + (Pad(t.hour, 2) + (":" +
    (Pad(t.minute, 2) + (":" + (Pad(t.second, 2) + ("." + (Pad(t.milli, 3) + "Z"))))))))))))
  }

  lemma {:induction false} PrefixDecides(x: string, x': string, y: string, y': string)
    requires |x| == |x'|
    ensures StringLess(x + y, x' + y') <==> StringLess(x, x') || (x == x' && StringLess(y, y'))
  {
    if x == "" {
      assert x + y == y && x' + y' == y';
    } else {
      var a, b := x + y, x' + y';
      assert a[0] == x[0] && b[0] == x'[0] && a[1..] == x[1..] + y && b[1..] == x'[1..] + y';
      PrefixDecides(x[1..], x'[1..], y, y');
      assert x == [x[0]] + x[1..] && x' == [x'[0]] + x'[1..];
    }
  }

  lemma {:induction false} SamePrefix(x: string, y: string, y': string)
    ensures StringLess(x + y, x + y') <==> StringLess(y, y')
  {
    PrefixDecides(x, x, y, y');
    StringLessIsTotal(x, x);
  }

  lemma {:induction false} PadOrders(a: nat, b: nat, width: nat)
    requires a < Pow10(width) && b < Pow10(width)
    ensures StringLess(Pad(a, width), Pad(b, width)) <==> a < b
    ensures Pad(a, width) == Pad(b, width) <==> a == b
  {
    if width == 0 {
    } else {
      PadOrders(a / 10, b / 10, width - 1);
      var x, x', y, y' := Pad(a / 10, width - 1), Pad(b / 10, width - 1), [DigitOf(a % 10)], [DigitOf(b % 10)];
      PrefixDecides(x, x', y, y');
      assert y[1..] == "" && y'[1..] == "";
      assert StringLess(y, y') <==> a % 10 < b % 10;
      assert (x + y)[..width - 1] == x && (x + y)[width - 1] == y[0];
      assert (x' + y')[..width - 1] == x' && (x' + y')[width - 1] == y'[0];
    }
  }

  /** One field, then a separator, then the rest. */
  lemma {:induction false} FieldDecides(a: nat, b: nat, width: nat, separator: string, y: string, y': string)
    requires a < Pow10(width) && b < Pow10(width)
    ensures StringLess(Pad(a, width) + (separator + y), Pad(b, width) + (separator + y'))
        <==> a < b || (a == b && StringLess(y, y'))
  {
    PrefixDecides(Pad(a, width), Pad(b, width), separator + y, separator + y');
    SamePrefix(separator, y, y');
    PadOrders(a, b, width);
  }

  function FromMilli(t: Time): string
    requires Valid(t)
  {
    Pad(t.milli, 3) + ("Z" + "")
  }

  function FromMinute(t: Time): string
    requires Valid(t)
  {
    Pad(t.minute, 2) + (":" + (Pad(t.second, 2) + ("." + FromMilli(t))))
  }

  function FromDay(t: Time): string
    requires Valid(t)
  {
    Pad(t.day, 2) + (" " + (Pad(t.hour, 2) + (":" + FromMinute(t))))
  }

  lemma {:induction false} TensAndThousands()
    ensures Pow10(2) == 100 && Pow10(3) == 1000 && Pow10(4) == 10000
  {
    assert Pow10(0) == 1 && Pow10(1) == 10;
  }

  lemma {:induction false} ClockOrders(a: Time, b: Time)
    requires Valid(a) && Valid(b)
    ensures StringLess(FromMinute(a), FromMinute(b)) <==>
              a.minute < b.minute
              || (a.minute == b.minute && (a.second < b.second || (a.second == b.second && a.milli < b.milli)))
  {
    TensAndThousands();
    FieldDecides(a.milli, b.milli, 3, "Z", "", "");
    FieldDecides(a.second, b.second, 2, ".", FromMilli(a), FromMilli(b));
    FieldDecides(a.minute, b.minute, 2, ":", Pad(a.second, 2) + ("." + FromMilli(a)),
      Pad(b.second, 2) + ("." + FromMilli(b)));
  }

  lemma {:induction false} DayOrders(a: Time, b: Time)
    requires Valid(a) && Valid(b)
    ensures StringLess(FromDay(a), FromDay(b)) <==>
              a.day < b.day || (a.day == b.day &&
                (a.hour < b.hour || (a.hour == b.hour && StringLess(FromMinute(a), FromMinute(b)))))
  {
    TensAndThousands();
    FieldDecides(a.hour, b.hour, 2, ":", FromMinute(a), FromMinute(b));
    FieldDecides(a.day, b.day, 2, " ", Pad(a.hour, 2) + (":" + FromMinute(a)), Pad(b.hour, 2) + (":" + FromMinute(b)));
  }

  lemma {:induction false} FormatParts(t: Time)
    requires Valid(t)
    ensures Format(t) == Pad(t.year, 4) + ("-" + (Pad(t.month, 2) + ("-" + FromDay(t))))
  {
    assert "Z" + "" == "Z";
  }

  /** Byte-wise order of the texts is the order of the times, to the millisecond. */
  lemma {:induction false} TextOrderIsTimeOrder(a: Time, b: Time)
    requires Valid(a) && Valid(b)
    ensures StringLess(Format(a), Format(b)) <==> Millis(a) < Millis(b)
  {
    TensAndThousands();
    ClockOrders(a, b);
    DayOrders(a, b);
    FieldDecides(a.month, b.month, 2, "-", FromDay(a), FromDay(b));
    FieldDecides(a.year, b.year, 4, "-", Pad(a.month, 2) + ("-" + FromDay(a)), Pad(b.month, 2) + ("-" + FromDay(b)));
    FormatParts(a);
    FormatParts(b);
    EarlierIsChronological(a, b);
  }

  lemma {:induction false} TextEqualityIsTimeEquality(a: Time, b: Time)
    requires Valid(a) && Valid(b)
    ensures Format(a) == Format(b) <==> Millis(a) == Millis(b)
  {
    TextOrderIsTimeOrder(a, b);
    TextOrderIsTimeOrder(b, a);
    StringLessIsTotal(Format(a), Format(b));
  }

  // ---------------------------------------------------------------- parsing

  function Field(s: string): Option<nat> {
    if AllDigits(s) then Some(Number(s)) else None
  }

  /** Fixed columns, the separators in their places, and a date that exists. */
  function Parse(s: string): Option<Time> {
    if |s| != 24 || s[4] != '-' || s[7] != '-' || s[10] != ' ' || s[13] != ':' || s[16] != ':' || s[19] != '.'
       || s[23] != 'Z'
    then None
    else
      match (Field(s[0..4]), Field(s[5..7]), Field(s[8..10]), Field(s[11..13]), Field(s[14..16]), Field(s[17..19]),
             Field(s[20..23]))
      case (Some(y), Some(m), Some(d), Some(h), Some(min), Some(sec), Some(ms)) =>
        var t := Time(y, m, d, h, min, sec, ms, 0);
        if Valid(t) then Some(t) else None
      case _ => None
  }

  lemma {:induction false} PadParses(n: nat, width: nat)
    requires n < Pow10(width)
    ensures AllDigits(Pad(n, width)) && Number(Pad(n, width)) == n
  {
    if width == 0 {
    } else {
      PadParses(n / 10, width - 1);
      var s := Pad(n, width);
      assert s[..width - 1] == Pad(n / 10, width - 1);
    }
  }

  /** A field of `s` at column `at`, its separator, and where the rest starts. */
  lemma {:induction false} Column(s: string, at: nat, field: string, separator: string, rest: string)
    requires at <= |s| && s[at..] == field + (separator + rest) && |separator| == 1
    ensures var next := at + |field| + 1;
            && next <= |s| && s[at..next - 1] == field && s[next - 1] == separator[0] && s[next..] == rest
  {
    var tail := field + (separator + rest);
    assert tail[..|field|] == field && tail[|field|] == separator[0] && tail[|field| + 1..] == rest;
    assert s[at..][..|field|] == s[at..at + |field|];
    assert s[at..][|field| + 1..] == s[at + |field| + 1..];
  }

  lemma {:induction false} DateColumns(t: Time, s: string)
    requires Valid(t) && s == Format(t)
    ensures |s| == 24 && s[4] == '-' && s[7] == '-'
    ensures s[0..4] == Pad(t.year, 4) && s[5..7] == Pad(t.month, 2) && s[8..] == FromDay(t)
  {
    FormatParts(t);
    assert s[0..] == s;
    Column(s, 0, Pad(t.year, 4), "-", Pad(t.month, 2) + ("-" + FromDay(t)));
    Column(s, 5, Pad(t.month, 2), "-", FromDay(t));
  }

  lemma {:induction false} ClockColumns(t: Time, s: string)
    requires Valid(t) && |s| == 24 && s[8..] == FromDay(t)
    ensures s[10] == ' ' && s[13] == ':' && s[16] == ':' && s[19] == '.' && s[23] == 'Z'
    ensures s[8..10] == Pad(t.day, 2) && s[11..13] == Pad(t.hour, 2)
    ensures s[14..16] == Pad(t.minute, 2) && s[17..19] == Pad(t.second, 2) && s[20..23] == Pad(t.milli, 3)
  {
    Column(s, 8, Pad(t.day, 2), " ", Pad(t.hour, 2) + (":" + FromMinute(t)));
    Column(s, 11, Pad(t.hour, 2), ":", FromMinute(t));
    Column(s, 14, Pad(t.minute, 2), ":", Pad(t.second, 2) + ("." + FromMilli(t)));
    Column(s, 17, Pad(t.second, 2), ".", FromMilli(t));
    Column(s, 20, Pad(t.milli, 3), "Z", "");
  }

  /** Parsing the text gives the time back, cut to the millisecond. */
  lemma {:induction false} ParseUndoesFormat(t: Time)
    requires Valid(t)
    ensures Parse(Format(t)) == Some(t.(sub := 0))
  {
    TensAndThousands();
    DateColumns(t, Format(t));
    ClockColumns(t, Format(t));
    PadParses(t.year, 4);
    PadParses(t.month, 2);
    PadParses(t.day, 2);
    PadParses(t.hour, 2);
    PadParses(t.minute, 2);
    PadParses(t.second, 2);
    PadParses(t.milli, 3);
  }
}
