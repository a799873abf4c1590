/**
 * Calendar-date arithmetic behind `fetchEventsInRange`: the visible range is
 * widened by two days on each side with `Date.prototype.setDate`, which rolls
 * over month and year ends, and each bound is written as zero-padded
 * MM/DD/YYYY (`formatUSDate`). A date is the local (year, month, day) triple
 * that `getFullYear`, `getMonth() + 1` and `getDate` read back.
 */
module CivilDate {
  import opened Prelude
  import opened Strings

  /** A proleptic Gregorian calendar date; `month` is 1-based. */
  datatype Date = Date(year: int, month: int, day: int)

  predicate IsLeapYear(y: int) {
    y % 4 == 0 && (y % 100 != 0 || y % 400 == 0)
  }

  function DaysInMonth(y: int, m: int): (n: int)
    requires 1 <= m <= 12
    ensures 28 <= n <= 31
    ensures m == 2 ==> (n == 29 <==> IsLeapYear(y))
  {
    if m == 2 then (if IsLeapYear(y) then 29 else 28)
    else if m == 4 || m == 6 || m == 9 || m == 11 then 30
    else 31
  }

  predicate Valid(d: Date) {
    1 <= d.month <= 12 && 1 <= d.day <= DaysInMonth(d.year, d.month)
  }

  /** Calendar order. */
  predicate Before(a: Date, b: Date) {
    a.year < b.year
    || (a.year == b.year && a.month < b.month)
    || (a.year == b.year && a.month == b.month && a.day < b.day)
  }

  /** `setDate(getDate() + 1)`. */
  function NextDay(d: Date): (r: Date)
    requires Valid(d)
    ensures Valid(r) && Before(d, r)
    ensures r.day == 1 <==> d.day == DaysInMonth(d.year, d.month)
  {
    if d.day < DaysInMonth(d.year, d.month) then Date(d.year, d.month, d.day + 1)
    else if d.month < 12 then Date(d.year, d.month + 1, 1)
    else Date(d.year + 1, 1, 1)
  }

  /** `setDate(getDate() - 1)`. */
  function PrevDay(d: Date): (r: Date)
    requires Valid(d)
    ensures Valid(r) && Before(r, d)
    ensures d.day == 1 <==> r.day == DaysInMonth(r.year, r.month)
  {
    if d.day > 1 then Date(d.year, d.month, d.day - 1)
    else if d.month > 1 then Date(d.year, d.month - 1, DaysInMonth(d.year, d.month - 1))
    else Date(d.year - 1, 12, 31)
  }

  lemma PrevOfNext(d: Date)
    requires Valid(d)
    ensures PrevDay(NextDay(d)) == d
  {
  }

  lemma NextOfPrev(d: Date)
    requires Valid(d)
    ensures NextDay(PrevDay(d)) == d
  {
  }

  /** `setDate(getDate() + n)`: `n` days later (earlier when `n` is negative). */
  function AddDays(d: Date, n: int): (r: Date)
    requires Valid(d)
    ensures Valid(r)
    decreases if n < 0 then -n else n
  {
    if n == 0 then d
    else if n > 0 then AddDays(NextDay(d), n - 1)
    else AddDays(PrevDay(d), n + 1)
  }

  /** Moving forward by a positive number of days moves later in the calendar. */
  lemma {:induction false} AddDaysLater(d: Date, n: int)
    requires Valid(d) && n > 0
    ensures Before(d, AddDays(d, n))
    decreases n
  {
    if n > 1 {
      AddDaysLater(NextDay(d), n - 1);
    }
  }

  /** Moving back by a positive number of days moves earlier in the calendar. */
  lemma {:induction false} AddDaysEarlier(d: Date, n: int)
    requires Valid(d) && n < 0
    ensures Before(AddDays(d, n), d)
    decreases -n
  {
    if n < -1 {
      AddDaysEarlier(PrevDay(d), n + 1);
    }
  }

  /** Taking the last step first: `n + 1` days later is the day after `n` days later. */
  lemma {:induction false} AddDaysLastStep(d: Date, n: int)
    requires Valid(d) && n >= 0
    ensures AddDays(d, n + 1) == NextDay(AddDays(d, n))
    ensures AddDays(d, -n - 1) == PrevDay(AddDays(d, -n))
    decreases n
  {
    if n > 0 {
      AddDaysLastStep(NextDay(d), n - 1);
      AddDaysLastStep(PrevDay(d), n - 1);
    }
  }

  /** Going `n` days forward and `n` days back returns to the same date, either way round. */
  lemma {:induction false} AddDaysInverse(d: Date, n: int)
    requires Valid(d) && n >= 0
    ensures AddDays(AddDays(d, n), -n) == d
    ensures AddDays(AddDays(d, -n), n) == d
    decreases n
  {
    if n > 0 {
      var m := n - 1;
      AddDaysLastStep(d, m);
      AddDaysInverse(d, m);
      // n forward, then n back: the first step back undoes the last step forward
      calc {
        AddDays(AddDays(d, n), -n);
        AddDays(NextDay(AddDays(d, m)), -n);
        AddDays(PrevDay(NextDay(AddDays(d, m))), -m);
        { PrevOfNext(AddDays(d, m)); }
        AddDays(AddDays(d, m), -m);
      }
      calc {
        AddDays(AddDays(d, -n), n);
        AddDays(PrevDay(AddDays(d, -m)), n);
        AddDays(NextDay(PrevDay(AddDays(d, -m))), m);
        { NextOfPrev(AddDays(d, -m)); }
        AddDays(AddDays(d, -m), m);
      }
    }
  }

  /** `formatUSDate`: `MM/DD/YYYY`, month and day zero-padded to two digits, the year as `String` writes it. */
  function FormatUSDate(d: Date): (r: string)
    requires Valid(d)
    ensures |r| >= 7 && r[2] == '/' && r[5] == '/'
    ensures forall i :: 0 <= i < 5 && i != 2 ==> '0' <= r[i] <= '9'
  {
    Pad2(d.month) + "/" + Pad2(d.day) + "/" + IntToDecimal(d.year)
  }

  lemma DigitsLackSlash(s: string)
    requires AllDigits(s)
    ensures Lacks(s, '/')
  {
  }

  lemma DecimalLacksSlash(n: int)
    ensures Lacks(IntToDecimal(n), '/')
  {
    if n < 0 {
      assert IntToDecimal(n) == "-" + NatToDecimal(-n);
      assert forall i :: 1 <= i < |IntToDecimal(n)| ==> IntToDecimal(n)[i] == NatToDecimal(-n)[i - 1];
    }
  }

  /**
   * A formatted date splits on `/` into exactly three fields, and
   * `parseInt` reads them back as month, day and year.
   */
  lemma FormatUSDateFields(d: Date)
    requires Valid(d)
    ensures var parts := Split(FormatUSDate(d), "/");
      && |parts| == 3
      && ParseInt(parts[0]) == Some(d.month)
      && ParseInt(parts[1]) == Some(d.day)
      && ParseInt(parts[2]) == Some(d.year)
  {
    var m, dd, y := Pad2(d.month), Pad2(d.day), IntToDecimal(d.year);
    DigitsLackSlash(m);
    DigitsLackSlash(dd);
    DecimalLacksSlash(d.year);
    assert FormatUSDate(d) == m + "/" + (dd + "/" + y);
    SplitFirst(m, "/", dd + "/" + y);
    SplitFirst(dd, "/", y);
    SplitNone(y, "/");
    ParseIntOfPad2(d.month);
    ParseIntOfPad2(d.day);
    ParseIntOfDecimal(d.year);
  }
}
