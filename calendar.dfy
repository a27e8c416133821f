/** UTC dates and times as Python's `datetime` prints them: the `%Y`, `%m`, `%d` fields of
    `strftime`, `isoformat()`, and subtracting whole days. */
module Calendar {
  import opened Text

  datatype Date = Date(year: nat, month: nat, day: nat)

  /** Gregorian leap years. */
  predicate IsLeapYear(year: nat) {
    year % 4 == 0 && (year % 100 != 0 || year % 400 == 0)
  }

  function DaysInMonth(year: nat, month: nat): (n: nat)
    requires 1 <= month <= 12
    ensures 28 <= n <= 31
  {
    if month == 2 then (if IsLeapYear(year) then 29 else 28)
    else if month == 4 || month == 6 || month == 9 || month == 11 then 30
    else 31
  }

  /** A date `datetime` can represent: years 1 to 9999. */
  predicate ValidDate(d: Date) {
    1 <= d.year <= 9999 && 1 <= d.month <= 12 && 1 <= d.day <= DaysInMonth(d.year, d.month)
  }

  /** Chronological order. */
  predicate Before(a: Date, b: Date) {
    a.year < b.year || (a.year == b.year && (a.month < b.month || (a.month == b.month && a.day < b.day)))
  }

  /** The calendar day before `d` (`d - timedelta(days=1)`); `datetime.min` has none. */
  function DayBefore(d: Date): (p: Date)
    requires ValidDate(d) && d != Date(1, 1, 1)
    ensures ValidDate(p) && Before(p, d)
  {
    if d.day > 1 then Date(d.year, d.month, d.day - 1)
    else if d.month > 1 then Date(d.year, d.month - 1, DaysInMonth(d.year, d.month - 1))
    else Date(d.year - 1, 12, 31)
  }

  /** The first `k` days of the calendar have no `k`-th predecessor. */
  predicate HasDaysBefore(d: Date, k: nat)
    requires ValidDate(d)
    decreases k
  {
    k == 0 || (d != Date(1, 1, 1) && HasDaysBefore(DayBefore(d), k - 1))
  }

  /** `d - timedelta(days=k)`. */
  function DaysBefore(d: Date, k: nat): (p: Date)
    requires ValidDate(d) && HasDaysBefore(d, k)
    ensures ValidDate(p)
    ensures k > 0 ==> Before(p, d)
    decreases k
  {
    if k == 0 then d
    else
      var p := DaysBefore(DayBefore(d), k - 1);
      assert k - 1 > 0 ==> Before(p, DayBefore(d));
      p
  }

  /** A date no earlier than day `k + 1` of year 1 has `k` days before it. */
  lemma {:induction false} LateEnoughHasDaysBefore(d: Date, k: nat)
    requires ValidDate(d) && k < 31 && !Before(d, Date(1, 1, k + 1))
    ensures HasDaysBefore(d, k)
    decreases k
  {
    if k > 0 {
      assert d != Date(1, 1, 1);
      LateEnoughHasDaysBefore(DayBefore(d), k - 1);
    }
  }

  /** Going back further lands on a strictly earlier date, so the dates probed going back
      day by day are all distinct. */
  lemma {:induction false} DaysBeforeStrictlyDecreasing(d: Date, j: nat, k: nat)
    requires ValidDate(d) && HasDaysBefore(d, k) && j < k
    ensures HasDaysBefore(d, j)
    ensures Before(DaysBefore(d, k), DaysBefore(d, j))
    decreases k
  {
    if j > 0 {
      DaysBeforeStrictlyDecreasing(DayBefore(d), j - 1, k - 1);
    }
  }

  /** A time of day in UTC with microseconds, as `datetime.utcnow()` returns it. */
  datatype DateTime = DateTime(date: Date, hour: nat, minute: nat, second: nat, microsecond: nat)

  predicate ValidDateTime(t: DateTime) {
    ValidDate(t.date) && t.hour < 24 && t.minute < 60 && t.second < 60 && t.microsecond < 1000000
  }

  /** `strftime("%Y")`, `strftime("%m")`, `strftime("%d")`. */
  function YearField(d: Date): string { NatToString(d.year) }
  function MonthField(d: Date): string { ZeroPad(d.month, 2) }
  function DayField(d: Date): string { ZeroPad(d.day, 2) }

  /** `s` is the `isoformat()` date of `d`: `YYYY-MM-DD`, each field zero-padded. */
  predicate DateFields(s: string, d: Date) {
    && |s| == 10 && s[4] == '-' && s[7] == '-'
    && s[..4] == ZeroPad(d.year, 4) && s[5..7] == ZeroPad(d.month, 2) && s[8..10] == ZeroPad(d.day, 2)
  }

  /** `s` is the `isoformat()` time of day of `t`: `HH:MM:SS`, each field zero-padded. */
  predicate TimeFields(s: string, t: DateTime) {
    && |s| == 8 && s[2] == ':' && s[5] == ':'
    && s[..2] == ZeroPad(t.hour, 2) && s[3..5] == ZeroPad(t.minute, 2) && s[6..8] == ZeroPad(t.second, 2)
  }

  /** `s` is the `isoformat()` fraction of `t`: empty for zero microseconds, else `.ffffff`. */
  predicate FractionFields(s: string, t: DateTime) {
    if t.microsecond == 0 then s == [] else |s| == 7 && s[0] == '.' && s[1..] == ZeroPad(t.microsecond, 6)
  }

  /** `s` is the `isoformat()` text of `t`: the date, `T`, the time of day and the fraction,
      each field zero-padded in its place so that it reads back as the field's value. */
  predicate IsoFields(s: string, t: DateTime) {
    && |s| >= 19 && s[10] == 'T'
    && DateFields(s[..10], t.date) && TimeFields(s[11..19], t) && FractionFields(s[19..], t)
  }

  /** `isoformat()`: `YYYY-MM-DDTHH:MM:SS`, followed by `.ffffff` only when the
      microseconds are not zero. */
  function IsoFormat(t: DateTime): (s: string)
    ensures |s| >= 19
    ensures ValidDateTime(t) ==> IsoFields(s, t)
  {
    var s := IsoDate(t.date) + "T" + IsoTime(t) + IsoFraction(t);
    assert ValidDateTime(t) ==> IsoFields(s, t) by {
      if ValidDateTime(t) {
        IsoDateShape(t.date);
        IsoTimeShape(t);
        IsoFractionShape(t);
        JoinedParts(IsoDate(t.date), IsoTime(t), IsoFraction(t), t);
      }
    }
    s
  }

  /** The three parts, each holding its fields, joined by `T` hold every field in place. */
  lemma JoinedParts(date: string, time: string, fraction: string, t: DateTime)
    requires DateFields(date, t.date) && TimeFields(time, t) && FractionFields(fraction, t)
    ensures IsoFields(date + "T" + time + fraction, t)
  {
    var s := date + "T" + time + fraction;
    assert s[..10] == date && s[11..19] == time && s[19..] == fraction;
  }

  function IsoDate(d: Date): string {
    ZeroPad(d.year, 4) + "-" + ZeroPad(d.month, 2) + "-" + ZeroPad(d.day, 2)
  }

  function IsoTime(t: DateTime): string {
    ZeroPad(t.hour, 2) + ":" + ZeroPad(t.minute, 2) + ":" + ZeroPad(t.second, 2)
  }

  function IsoFraction(t: DateTime): string {
    if t.microsecond == 0 then "" else "." + ZeroPad(t.microsecond, 6)
  }

  /** Three digit fields joined by a separator, the last two of two digits each. */
  lemma {:induction false} JoinedFields(a: string, b: string, c: string, sep: string)
    requires AllDigits(a) && AllDigits(b) && AllDigits(c) && |b| == 2 && |c| == 2 && |sep| == 1
    requires !('0' <= sep[0] <= '9')
    ensures var s := a + sep + b + sep + c;
      && |s| == |a| + 6 && s[|a|] == sep[0] && s[|a| + 3] == sep[0]
      && forall i :: 0 <= i < |s| ==> ('0' <= s[i] <= '9' <==> i != |a| && i != |a| + 3)
    ensures var s := a + sep + b + sep + c;
      s[..|a|] == a && s[|a| + 1..|a| + 3] == b && s[|a| + 4..] == c
  {
    var s := a + sep + b + sep + c;
    assert s[..|a|] == a && s[|a| + 1..|a| + 3] == b && s[|a| + 4..] == c;
    forall i | 0 <= i < |s| ensures '0' <= s[i] <= '9' <==> i != |a| && i != |a| + 3 {
      if i < |a| {
        assert s[i] == a[i];
      } else if |a| < i < |a| + 3 {
        assert s[i] == b[i - |a| - 1];
      } else if i > |a| + 3 {
        assert s[i] == c[i - |a| - 4];
      }
    }
  }

  lemma IsoDateShape(d: Date)
    requires ValidDate(d)
    ensures var s := IsoDate(d);
      && DateFields(s, d) && forall i :: 0 <= i < 10 ==> ('0' <= s[i] <= '9' <==> i != 4 && i != 7)
  {
    assert Pow10(2) == 100 && Pow10(4) == 10000 by {
      assert Pow10(1) == 10 && Pow10(3) == 1000;
    }
    NatToStringFits(d.year, 4);
    NatToStringFits(d.month, 2);
    NatToStringFits(d.day, 2);
    JoinedFields(ZeroPad(d.year, 4), ZeroPad(d.month, 2), ZeroPad(d.day, 2), "-");
  }

  lemma IsoTimeShape(t: DateTime)
    requires ValidDateTime(t)
    ensures var s := IsoTime(t);
      && TimeFields(s, t) && forall i :: 0 <= i < 8 ==> ('0' <= s[i] <= '9' <==> i != 2 && i != 5)
  {
    assert Pow10(2) == 100 by {
      assert Pow10(1) == 10;
    }
    NatToStringFits(t.hour, 2);
    NatToStringFits(t.minute, 2);
    NatToStringFits(t.second, 2);
    JoinedFields(ZeroPad(t.hour, 2), ZeroPad(t.minute, 2), ZeroPad(t.second, 2), ":");
  }

  lemma IsoFractionShape(t: DateTime)
    requires ValidDateTime(t)
    ensures var s := IsoFraction(t);
      && FractionFields(s, t)
      && (s == [] || (s[0] == '.' && forall i :: 0 < i < |s| ==> '0' <= s[i] <= '9'))
  {
    if t.microsecond != 0 {
      assert Pow10(6) == 1000000 by {
        assert Pow10(1) == 10 && Pow10(2) == 100 && Pow10(3) == 1000 && Pow10(4) == 10000 && Pow10(5) == 100000;
      }
      NatToStringFits(t.microsecond, 6);
      var s := IsoFraction(t);
      forall i | 0 < i < |s| ensures '0' <= s[i] <= '9' {
        assert s[i] == ZeroPad(t.microsecond, 6)[i - 1];
      }
    }
  }

  /** For a valid timestamp the text holds digits everywhere except `-`, `-`, `T`, `:`, `:`
      and the `.` before the microseconds. */
  lemma IsoFormatShape(t: DateTime)
    requires ValidDateTime(t)
    ensures var s := IsoFormat(t);
      forall i :: 0 <= i < |s| ==> ('0' <= s[i] <= '9' <==> i !in {4, 7, 10, 13, 16, 19})
  {
    IsoDateShape(t.date);
    IsoTimeShape(t);
    IsoFractionShape(t);
    JoinedStamp(IsoDate(t.date), IsoTime(t), IsoFraction(t));
  }

  /** A date of 10 characters, `T`, a time of 8 and an optional `.` with digits: the
      non-digits sit at 4, 7, 10, 13, 16 and 19. */
  lemma {:induction false} JoinedStamp(date: string, time: string, fraction: string)
    requires |date| == 10 && forall i :: 0 <= i < 10 ==> ('0' <= date[i] <= '9' <==> i != 4 && i != 7)
    requires |time| == 8 && forall i :: 0 <= i < 8 ==> ('0' <= time[i] <= '9' <==> i != 2 && i != 5)
    requires fraction == [] || (fraction[0] == '.' && forall i :: 0 < i < |fraction| ==> '0' <= fraction[i] <= '9')
    ensures var s := date + "T" + time + fraction;
      forall i :: 0 <= i < |s| ==> ('0' <= s[i] <= '9' <==> i !in {4, 7, 10, 13, 16, 19})
  {
    var s := date + "T" + time + fraction;
    forall i | 0 <= i < |s| ensures '0' <= s[i] <= '9' <==> i !in {4, 7, 10, 13, 16, 19} {
      if i < 10 {
        assert s[i] == date[i];
      } else if 10 < i < 19 {
        assert s[i] == time[i - 11];
      } else if i >= 19 {
        assert s[i] == fraction[i - 19];
      }
    }
  }
}
