/** The `date` column: `datetime.now().strftime("%Y-%m-%d %H:%M:%S")`, and what its string
    order says about time order. */
module Timestamps {
  import opened Text

  predicate IsLeapYear(year: int)
  {
    year % 4 == 0 && (year % 100 != 0 || year % 400 == 0)
  }

  function DaysInMonth(year: int, month: int): int
  {
    if month == 2 then (if IsLeapYear(year) then 29 else 28)
    else if month == 4 || month == 6 || month == 9 || month == 11 then 30
    else 31
  }

  /** A reading of `datetime.now()`: the fields of a naive Python `datetime`. */
  datatype Moment = Moment(year: int, month: int, day: int, hour: int, minute: int, second: int, microsecond: int)

  /** The ranges Python's `datetime` enforces (years 1 to 9999). */
  predicate ValidMoment(m: Moment)
  {
    && 1 <= m.year <= 9999
    && 1 <= m.month <= 12
    && 1 <= m.day <= DaysInMonth(m.year, m.month)
    && 0 <= m.hour < 24
    && 0 <= m.minute < 60
    && 0 <= m.second < 60
    && 0 <= m.microsecond < 1000000
  }

  type DateTime = m: Moment | ValidMoment(m) witness Moment(1970, 1, 1, 0, 0, 0, 0)

  /** Chronological order of two readings. */
  predicate Before(a: DateTime, b: DateTime)
  {
    if a.year != b.year then a.year < b.year
    else if a.month != b.month then a.month < b.month
    else if a.day != b.day then a.day < b.day
    else if a.hour != b.hour then a.hour < b.hour
    else if a.minute != b.minute then a.minute < b.minute
    else if a.second != b.second then a.second < b.second
    else a.microsecond < b.microsecond
  }

  /** The reading cut down to whole seconds, the resolution of the stored string. */
  function ToSecond(d: DateTime): DateTime
  {
    d.(microsecond := 0)
  }

  /** `strftime("%Y-%m-%d %H:%M:%S")`: every field zero-padded to a fixed width. */
  function Format(d: DateTime): (s: string)
    ensures |s| == 19
  {
    Digits(d.year, 4) + ("-" + (Digits(d.month, 2) + ("-" + (Digits(d.day, 2)
      + (" " + (Digits(d.hour, 2) + (":" + (Digits(d.minute, 2) + (":" + Digits(d.second, 2))))))))))
  }

  /** `%Y-%m-%d`: the date part of the stored string. */
  function FormatDate(d: DateTime): (s: string)
    ensures |s| == 10
  {
    Digits(d.year, 4) + ("-" + (Digits(d.month, 2) + ("-" + Digits(d.day, 2))))
  }

  /** A zero-padded field followed by a separator compares by the field first. */
  lemma FieldThenRest(x1: nat, x2: nat, w: nat, sep: char, r1: string, r2: string)
    requires x1 < Pow10(w) && x2 < Pow10(w)
    ensures LexLess(Digits(x1, w) + ([sep] + r1), Digits(x2, w) + ([sep] + r2))
            <==> x1 < x2 || (x1 == x2 && LexLess(r1, r2))
    ensures Digits(x1, w) + ([sep] + r1) == Digits(x2, w) + ([sep] + r2) <==> x1 == x2 && r1 == r2
  {
    DigitsOrder(x1, x2, w);
    LexLessConcat(Digits(x1, w), [sep] + r1, Digits(x2, w), [sep] + r2);
    ConcatEq(Digits(x1, w), [sep] + r1, Digits(x2, w), [sep] + r2);
    LexLessConcat([sep], r1, [sep], r2);
    ConcatEq([sep], r1, [sep], r2);
    LexLessIrreflexive([sep]);
  }

  /** Because every field has a fixed width, comparing two stored strings compares the
      readings they came from, at the resolution of one second: one string is smaller
      exactly when its reading falls in an earlier second, and two strings are equal exactly
      when their readings fall in the same second. */
  lemma FormatOrder(a: DateTime, b: DateTime)
    ensures LexLess(Format(a), Format(b)) <==> Before(ToSecond(a), ToSecond(b))
    ensures Format(a) == Format(b) <==> ToSecond(a) == ToSecond(b)
  {
    assert Pow10(2) == 100 && Pow10(4) == 10000;
    var sa, sb := Digits(a.second, 2), Digits(b.second, 2);
    DigitsOrder(a.second, b.second, 2);
    var na, nb := Digits(a.minute, 2) + (":" + sa), Digits(b.minute, 2) + (":" + sb);
    FieldThenRest(a.minute, b.minute, 2, ':', sa, sb);
    var ha, hb := Digits(a.hour, 2) + (":" + na), Digits(b.hour, 2) + (":" + nb);
    FieldThenRest(a.hour, b.hour, 2, ':', na, nb);
    var da, db := Digits(a.day, 2) + (" " + ha), Digits(b.day, 2) + (" " + hb);
    FieldThenRest(a.day, b.day, 2, ' ', ha, hb);
    var ma, mb := Digits(a.month, 2) + ("-" + da), Digits(b.month, 2) + ("-" + db);
    FieldThenRest(a.month, b.month, 2, '-', da, db);
    FieldThenRest(a.year, b.year, 4, '-', ma, mb);
    assert Format(a) == Digits(a.year, 4) + ("-" + ma);
    assert Format(b) == Digits(b.year, 4) + ("-" + mb);
  }

  /** So `ORDER BY date` never puts a later reading before an earlier one; readings within
      the same second compare equal and are left in no particular order. */
  lemma FormatMonotone(a: DateTime, b: DateTime)
    requires Before(a, b)
    ensures LexLess(Format(a), Format(b)) || Format(a) == Format(b)
  {
    FormatOrder(a, b);
  }

  /** A chart label, the text before the first space of a stored string, is exactly its
      `YYYY-MM-DD` date. */
  lemma LabelIsDate(d: DateTime)
    ensures BeforeSpace(Format(d)) == FormatDate(d)
  {
    var time := Digits(d.hour, 2) + (":" + (Digits(d.minute, 2) + (":" + Digits(d.second, 2))));
    assert Format(d) == FormatDate(d) + " " + time;
    DigitsNoSpace(d.year, 4);
    DigitsNoSpace(d.month, 2);
    DigitsNoSpace(d.day, 2);
    assert ' ' !in FormatDate(d);
    BeforeSpaceSplit(FormatDate(d), time);
  }

  /** Days in calendar order. */
  predicate DayBefore(a: DateTime, b: DateTime)
  {
    if a.year != b.year then a.year < b.year
    else if a.month != b.month then a.month < b.month
    else a.day < b.day
  }

  /** Date labels compare as the days they name. */
  lemma FormatDateOrder(a: DateTime, b: DateTime)
    ensures LexLess(FormatDate(a), FormatDate(b)) <==> DayBefore(a, b)
  {
    assert Pow10(2) == 100 && Pow10(4) == 10000;
    var da, db := Digits(a.day, 2), Digits(b.day, 2);
    DigitsOrder(a.day, b.day, 2);
    var ma, mb := Digits(a.month, 2) + ("-" + da), Digits(b.month, 2) + ("-" + db);
    FieldThenRest(a.month, b.month, 2, '-', da, db);
    FieldThenRest(a.year, b.year, 4, '-', ma, mb);
  }

  /** Two readings get the same label exactly when they fall on the same day. */
  lemma LabelSameDay(a: DateTime, b: DateTime)
    ensures FormatDate(a) == FormatDate(b) <==> a.year == b.year && a.month == b.month && a.day == b.day
  {
    assert Pow10(2) == 100 && Pow10(4) == 10000;
    var da, db := Digits(a.day, 2), Digits(b.day, 2);
    DigitsOrder(a.day, b.day, 2);
    var ma, mb := Digits(a.month, 2) + ("-" + da), Digits(b.month, 2) + ("-" + db);
    FieldThenRest(a.month, b.month, 2, '-', da, db);
    FieldThenRest(a.year, b.year, 4, '-', ma, mb);
  }
}
