/** The text of a UTC instant, as the tables store it: comparing texts by code point is comparing instants.

    SQL decides expiry on the text, Python on the parsed instant; `Text.Less` on the one and `<` on the other agree. */
module IsoTime {
  import opened Text
  import opened Models

  datatype Stamp = Stamp(year: nat, month: nat, day: nat, hour: nat, minute: nat, second: nat, micro: nat)

  predicate IsLeap(year: nat) { year % 4 == 0 && (year % 100 != 0 || year % 400 == 0) }

  function DaysIn(year: nat, month: nat): nat
    requires 1 <= month <= 12
  {
    if month == 2 then (if IsLeap(year) then 29 else 28) else if month in {4, 6, 9, 11} then 30 else 31
  }

  predicate Valid(t: Stamp) {
    && 1 <= t.year <= 9999 && 1 <= t.month <= 12 && 1 <= t.day <= DaysIn(t.year, t.month)
    && t.hour < 24 && t.minute < 60 && t.second < 60 && t.micro < 1000000
  }

  // ---- The instant ----

  /** Days of the proleptic Gregorian calendar before January 1 of `year`. */
  function DaysBeforeYear(year: nat): nat
    requires year >= 1
  {
    var y := year - 1;
    y * 365 + y / 4 - y / 100 + y / 400
  }

  function DaysBeforeMonth(year: nat, month: nat): nat
    requires 1 <= month <= 13
  {
    if month == 1 then 0 else DaysBeforeMonth(year, month - 1) + DaysIn(year, month - 1)
  }

  function DayNumber(t: Stamp): nat
    requires Valid(t)
  {
    DaysBeforeYear(t.year) + DaysBeforeMonth(t.year, t.month) + (t.day - 1)
  }

  function SecondOfDay(t: Stamp): nat { (t.hour * 60 + t.minute) * 60 + t.second }

  const DAY: int := 86400

  /** Microseconds since 0001-01-01T00:00:00. */
  function Instant(t: Stamp): Time
    requires Valid(t)
  {
    (DayNumber(t) * DAY + SecondOfDay(t)) * SECOND + t.micro
  }

  lemma YearLength(year: nat)
    requires year >= 1
    ensures DaysBeforeYear(year + 1) == DaysBeforeYear(year) + (if IsLeap(year) then 366 else 365)
  {
    var century, rest := year / 100, year % 100;
    assert year == 100 * century + rest;
    assert year / 4 == 25 * century + rest / 4 && year % 4 == rest % 4;
    if rest == 0 {
      assert (year - 1) / 4 == 25 * century - 1 && (year - 1) / 100 == century - 1;
      var age, part := century / 4, century % 4;
      assert year == 400 * age + 100 * part;
    } else {
      assert (year - 1) / 4 == 25 * century + (rest - 1) / 4 && (year - 1) / 100 == century;
      var age, part := year / 400, year % 400;
      assert year == 400 * age + part && part != 0;
      assert (year - 1) / 400 == age;
    }
  }

  lemma MonthsSum(year: nat)
    ensures DaysBeforeMonth(year, 13) == if IsLeap(year) then 366 else 365
  {
    assert DaysBeforeMonth(year, 2) == 31;
    assert DaysBeforeMonth(year, 3) == 31 + DaysIn(year, 2);
    assert DaysBeforeMonth(year, 5) == DaysBeforeMonth(year, 3) + 61;
    assert DaysBeforeMonth(year, 7) == DaysBeforeMonth(year, 5) + 61;
    assert DaysBeforeMonth(year, 9) == DaysBeforeMonth(year, 7) + 62;
    assert DaysBeforeMonth(year, 11) == DaysBeforeMonth(year, 9) + 61;
  }

  lemma {:induction false} YearsGrow(a: nat, b: nat)
    requires 1 <= a < b
    ensures DaysBeforeYear(a + 1) <= DaysBeforeYear(b)
  {
    hide IsLeap;
    if a + 1 < b {
      YearsGrow(a, b - 1);
      YearLength(b - 1);
    }
  }

  lemma {:induction false} MonthsGrow(year: nat, a: nat, b: nat)
    requires 1 <= a < b <= 13
    ensures DaysBeforeMonth(year, a) + DaysIn(year, a) <= DaysBeforeMonth(year, b)
  {
    if a + 1 < b { MonthsGrow(year, a, b - 1); }
  }

  predicate Before(a: nat, b: nat, rest: bool) { a < b || (a == b && rest) }

  predicate DateBefore(a: Stamp, b: Stamp, rest: bool) {
    Before(a.year, b.year, Before(a.month, b.month, Before(a.day, b.day, rest)))
  }

  /** Field by field, most significant first. */
  predicate Earlier(a: Stamp, b: Stamp) {
    DateBefore(a, b, Before(a.hour, b.hour, Before(a.minute, b.minute, Before(a.second, b.second, a.micro < b.micro))))
  }

  lemma DateOrder(a: Stamp, b: Stamp)
    requires Valid(a) && Valid(b) && DateBefore(a, b, false)
    ensures DayNumber(a) < DayNumber(b)
  {
    hide IsLeap, DaysIn, DaysBeforeYear;
    MonthsSum(a.year);
    YearLength(a.year);
    MonthsGrow(a.year, a.month, 13);
    if a.year < b.year {
      YearsGrow(a.year, b.year);
    } else if a.month < b.month {
      MonthsGrow(a.year, a.month, b.month);
    }
  }

  lemma EarlierMeans(a: Stamp, b: Stamp)
    requires Valid(a) && Valid(b) && Earlier(a, b)
    ensures Instant(a) < Instant(b)
  {
    hide DaysIn, DaysBeforeMonth, DaysBeforeYear;
    if DateBefore(a, b, false) {
      DateOrder(a, b);
      hide DayNumber;
      assert SecondOfDay(a) < DAY && SecondOfDay(b) < DAY;
    } else {
      assert DayNumber(a) == DayNumber(b);
      hide DayNumber;
    }
  }

  /** The field order of valid stamps is the order of their instants. */
  lemma EarlierIsInstant(a: Stamp, b: Stamp)
    requires Valid(a) && Valid(b)
    ensures Earlier(a, b) <==> Instant(a) < Instant(b)
    ensures a == b <==> Instant(a) == Instant(b)
  {
    hide DaysIn, Instant;
    if Earlier(a, b) {
      EarlierMeans(a, b);
    } else if Earlier(b, a) {
      EarlierMeans(b, a);
    }
  }

  // ---- The text ----

  function Pow10(width: nat): nat { if width == 0 then 1 else 10 * Pow10(width - 1) }

  /** `n` in exactly `width` decimal digits. */
  function Pad(n: nat, width: nat): (text: string)
    ensures |text| == width
  {
    if width == 0 then "" else Pad(n / 10, width - 1) + [DigitChar(n % 10)]
  }

  /** `datetime.isoformat()` of an aware UTC value; the fraction is left out at zero microseconds. */
  function Iso(t: Stamp): string {
    Pad(t.year, 4) + ("-" + (Pad(t.month, 2) + ("-" + (Pad(t.day, 2) + ("T" + (Pad(t.hour, 2) + (":" +
      (Pad(t.minute, 2) + (":" + (Pad(t.second, 2) + Tail(t.micro)))))))))))
  }

  function Tail(micro: nat): string {
    if micro == 0 then "+00:00" else "." + (Pad(micro, 6) + "+00:00")
  }

  lemma {:induction false} PadOrder(n: nat, m: nat, width: nat)
    requires n < Pow10(width) && m < Pow10(width)
    ensures Less(Pad(n, width), Pad(m, width)) <==> n < m
    ensures Pad(n, width) == Pad(m, width) <==> n == m
  {
    if width == 0 {
      LessIrreflexive("");
    } else {
      PadOrder(n / 10, m / 10, width - 1);
      var c, d := DigitChar(n % 10), DigitChar(m % 10);
      LessByHead(Pad(n / 10, width - 1), [c], Pad(m / 10, width - 1), [d]);
      assert Less([c], [d]) <==> n % 10 < m % 10;
      assert Pad(n, width)[..width - 1] == Pad(n / 10, width - 1) && Pad(n, width)[width - 1] == c;
      assert Pad(m, width)[..width - 1] == Pad(m / 10, width - 1) && Pad(m, width)[width - 1] == d;
    }
  }

  lemma FieldOrder(n: nat, m: nat, width: nat, x: string, y: string)
    requires n < Pow10(width) && m < Pow10(width)
    ensures Less(Pad(n, width) + x, Pad(m, width) + y) <==> Before(n, m, Less(x, y))
  {
    PadOrder(n, m, width);
    LessByHead(Pad(n, width), x, Pad(m, width), y);
  }

  lemma MarkOrder(mark: char, x: string, y: string)
    ensures Less([mark] + x, [mark] + y) <==> Less(x, y)
  {
    LessByHead([mark], x, [mark], y);
    LessIrreflexive([mark]);
  }

  lemma MarkedField(mark: char, n: nat, m: nat, x: string, y: string)
    requires n < 100 && m < 100
    ensures Less([mark] + (Pad(n, 2) + x), [mark] + (Pad(m, 2) + y)) <==> Before(n, m, Less(x, y))
  {
    assert Pow10(2) == 100;
    MarkOrder(mark, Pad(n, 2) + x, Pad(m, 2) + y);
    FieldOrder(n, m, 2, x, y);
  }

  /** A missing fraction sorts before any fraction because '+' sorts before '.'. */
  lemma TailOrder(n: nat, m: nat)
    requires n < 1000000 && m < 1000000
    ensures Less(Tail(n), Tail(m)) <==> n < m
  {
    assert Pow10(6) == 1000000 by { assert Pow10(3) == 1000; }
    LessIrreflexive("+00:00");
    if n != 0 && m != 0 {
      MarkOrder('.', Pad(n, 6) + "+00:00", Pad(m, 6) + "+00:00");
      FieldOrder(n, m, 6, "+00:00", "+00:00");
    }
  }

  lemma IsoIsEarlier(a: Stamp, b: Stamp)
    requires Valid(a) && Valid(b)
    ensures Less(Iso(a), Iso(b)) <==> Earlier(a, b)
  {
    hide Less, Pad, Tail, Before;
    assert Pow10(4) == 10000;
    TailOrder(a.micro, b.micro);
    var sa, sb := ":" + (Pad(a.second, 2) + Tail(a.micro)), ":" + (Pad(b.second, 2) + Tail(b.micro));
    MarkedField(':', a.second, b.second, Tail(a.micro), Tail(b.micro));
    var ma, mb := ":" + (Pad(a.minute, 2) + sa), ":" + (Pad(b.minute, 2) + sb);
    MarkedField(':', a.minute, b.minute, sa, sb);
    var ha, hb := "T" + (Pad(a.hour, 2) + ma), "T" + (Pad(b.hour, 2) + mb);
    MarkedField('T', a.hour, b.hour, ma, mb);
    var da, db := "-" + (Pad(a.day, 2) + ha), "-" + (Pad(b.day, 2) + hb);
    MarkedField('-', a.day, b.day, ha, hb);
    var oa, ob := "-" + (Pad(a.month, 2) + da), "-" + (Pad(b.month, 2) + db);
    MarkedField('-', a.month, b.month, da, db);
    FieldOrder(a.year, b.year, 4, oa, ob);
  }

  /** Text order is time order, for every pair of valid stamps. */
  lemma TextOrderIsTimeOrder(a: Stamp, b: Stamp)
    requires Valid(a) && Valid(b)
    ensures Less(Iso(a), Iso(b)) <==> Instant(a) < Instant(b)
    ensures Iso(a) == Iso(b) <==> Instant(a) == Instant(b)
  {
    hide Instant, Iso, Earlier, DaysIn;
    IsoIsEarlier(a, b);
    IsoIsEarlier(b, a);
    EarlierIsInstant(a, b);
    EarlierIsInstant(b, a);
    LessIrreflexive(Iso(a));
    LessTotal(Iso(a), Iso(b));
  }

  // ---- Every instant has a stamp ----

  /** One past the last instant of year 9999. */
  const END: Time := 3652059 * DAY * SECOND

  function YearAt(days: nat, year: nat): nat
    requires 1 <= year && DaysBeforeYear(year) <= days
    decreases days - DaysBeforeYear(year)
  {
    YearLength(year);
    if days < DaysBeforeYear(year + 1) then year else YearAt(days, year + 1)
  }

  function MonthAt(year: nat, days: nat, month: nat): nat
    requires 1 <= month <= 12 && DaysBeforeMonth(year, month) <= days < DaysBeforeMonth(year, 13)
    decreases 13 - month
  {
    if days < DaysBeforeMonth(year, month + 1) then month else MonthAt(year, days, month + 1)
  }

  lemma {:induction false} YearAtFits(days: nat, year: nat)
    requires 1 <= year && DaysBeforeYear(year) <= days
    ensures var y := YearAt(days, year); y >= 1 && DaysBeforeYear(y) <= days < DaysBeforeYear(y + 1)
    decreases days - DaysBeforeYear(year)
  {
    hide DaysBeforeYear;
    YearLength(year);
    if days >= DaysBeforeYear(year + 1) { YearAtFits(days, year + 1); }
  }

  lemma {:induction false} MonthAtFits(year: nat, days: nat, month: nat)
    requires 1 <= month <= 12 && DaysBeforeMonth(year, month) <= days < DaysBeforeMonth(year, 13)
    ensures
      var m := MonthAt(year, days, month);
      1 <= m <= 12 && DaysBeforeMonth(year, m) <= days < DaysBeforeMonth(year, m) + DaysIn(year, m)
    decreases 13 - month
  {
    hide DaysIn;
    if days >= DaysBeforeMonth(year, month + 1) { MonthAtFits(year, days, month + 1); }
  }

  lemma LateYear(year: nat)
    requires year > 9999
    ensures DaysBeforeYear(year) >= 3652059
  {
    if year > 10000 { YearsGrow(9999, year); }
  }

  lemma DateExists(days: nat) returns (year: nat, month: nat, day: nat)
    requires days < 3652059
    ensures 1 <= year <= 9999 && 1 <= month <= 12 && 1 <= day <= DaysIn(year, month)
    ensures DaysBeforeYear(year) + DaysBeforeMonth(year, month) + (day - 1) == days
  {
    hide DaysIn;
    YearAtFits(days, 1);
    year := YearAt(days, 1);
    assert year <= 9999 by { if year > 9999 { LateYear(year); } }
    YearLength(year);
    MonthsSum(year);
    var rest := days - DaysBeforeYear(year);
    MonthAtFits(year, rest, 1);
    month := MonthAt(year, rest, 1);
    day := rest - DaysBeforeMonth(year, month) + 1;
  }

  /** Every instant of years 1 to 9999 is the instant of some stamp, so the integers of the ledger model and the
      stored texts are two readings of one time line. */
  lemma StampExists(t: Time) returns (stamp: Stamp)
    requires 0 <= t < END
    ensures Valid(stamp) && Instant(stamp) == t
  {
    hide DaysIn, DaysBeforeMonth, DaysBeforeYear;
    var seconds, micro := t / SECOND, t % SECOND;
    var days, rest := seconds / DAY, seconds % DAY;
    var year, month, day := DateExists(days);
    stamp := Stamp(year, month, day, rest / 3600, rest / 60 % 60, rest % 60, micro);
    assert SecondOfDay(stamp) == rest;
  }

  // ---- SQL tests and instant tests ----

  /** `column <= now` in SQL. */
  predicate TextAtMost(a: string, b: string) { a == b || Less(a, b) }

  /** The sweep's SQL tests on stored text decide as the instant tests of the claim and decision paths do. */
  lemma TestsAgree(due: Stamp, now: Stamp)
    requires Valid(due) && Valid(now)
    ensures TextAtMost(Iso(due), Iso(now)) <==> Instant(due) <= Instant(now)
    ensures Less(Iso(now), Iso(due)) <==> Instant(due) > Instant(now)
    ensures TextAtMost(Iso(due), Iso(now)) <==> !Less(Iso(now), Iso(due))
  {
    hide Instant, Iso, Less, DaysIn;
    TextOrderIsTimeOrder(due, now);
    TextOrderIsTimeOrder(now, due);
  }
}
