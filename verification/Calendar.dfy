/** Days, months and the month stepping contracts and invoices share (core/dates.py). */
module Calendar {

  /** A calendar month, counted from January of year zero, and a day of it. */
  datatype Date = Date(month: nat, day: nat)

  /** The month's number: divmod of it by twelve gives the year and the month's place in it back. */
  function MonthOf(year: nat, month: nat): (index: nat)
    requires 1 <= month <= 12
    ensures index / 12 == year && index % 12 == month - 1
  {
    year * 12 + month - 1
  }

  predicate Leap(year: nat) {
    year % 4 == 0 && (year % 100 != 0 || year % 400 == 0)
  }

  function DaysIn(index: nat): (n: nat)
    ensures 28 <= n <= 31
  {
    var year, month := index / 12, index % 12 + 1;
    if month == 2 then (if Leap(year) then 29 else 28)
    else if month == 4 || month == 6 || month == 9 || month == 11 then 30
    else 31
  }

  predicate ValidDate(d: Date) {
    1 <= d.day <= DaysIn(d.month)
  }

  type Day = d: Date | ValidDate(d) witness Date(0, 1)

  function Min(a: int, b: int): int {
    if a <= b then a else b
  }

  function Max(a: int, b: int): int {
    if a >= b then a else b
  }

  /** The same day so many months on, or the last of that month where it has no such day. */
  function AddMonths(d: Day, months: int): Day
    requires d.month + months >= 0
  {
    Date(d.month + months, Min(d.day, DaysIn(d.month + months)))
  }

  /** Stepping twice is stepping once exactly when the step between does not lose days the last one has. */
  lemma StepsCompose(d: Day, a: nat, b: nat)
    ensures AddMonths(AddMonths(d, a), b) == AddMonths(d, a + b) <==>
            (d.day <= DaysIn(d.month + a) || DaysIn(d.month + a + b) <= DaysIn(d.month + a))
  {
    assert d.month + a + b == d.month + (a + b);
  }

  /** The divmod of the source, on the year and the month's place in it, is addition on the month's number. */
  lemma DivmodSteps(year: nat, month: nat, months: int)
    requires 1 <= month <= 12 && MonthOf(year, month) + months >= 0
    ensures var years, place := (month - 1 + months) / 12, (month - 1 + months) % 12;
            year + years >= 0 && MonthOf(year + years, place + 1) == MonthOf(year, month) + months
  {
  }

  // Counting days ---------------------------------------------------------------------

  function DaysBefore(index: nat): nat {
    if index == 0 then 0 else DaysBefore(index - 1) + DaysIn(index - 1)
  }

  /** February has its 29th in every fourth year, but for the centuries that 400 does not divide. */
  lemma MonthLengths(year: nat, month: nat)
    requires 1 <= month <= 12
    ensures DaysIn(MonthOf(year, month)) ==
            (if month in {1, 3, 5, 7, 8, 10, 12} then 31
             else if month != 2 then 30
             else if year % 400 == 0 || (year % 4 == 0 && year % 100 != 0) then 29 else 28)
  {
  }

  lemma HalfYear(index: nat)
    ensures DaysBefore(index + 6) == DaysBefore(index) + DaysIn(index) + DaysIn(index + 1) + DaysIn(index + 2)
                                     + DaysIn(index + 3) + DaysIn(index + 4) + DaysIn(index + 5)
  {
    hide DaysIn;
    assert DaysBefore(index + 6) == DaysBefore(index + 5) + DaysIn(index + 5);
    assert DaysBefore(index + 5) == DaysBefore(index + 4) + DaysIn(index + 4);
    assert DaysBefore(index + 4) == DaysBefore(index + 3) + DaysIn(index + 3);
    assert DaysBefore(index + 3) == DaysBefore(index + 2) + DaysIn(index + 2);
    assert DaysBefore(index + 2) == DaysBefore(index + 1) + DaysIn(index + 1);
  }

  lemma MonthInYear(year: nat, month: nat)
    requires 1 <= month <= 12
    ensures DaysIn(12 * year + (month - 1)) ==
            (if month == 2 then (if Leap(year) then 29 else 28) else if month in {4, 6, 9, 11} then 30 else 31)
  {
    hide Leap;
    assert MonthOf(year, month) == 12 * year + (month - 1);
  }

  lemma YearLength(year: nat)
    ensures DaysBefore(12 * (year + 1)) == DaysBefore(12 * year) + (if Leap(year) then 366 else 365)
  {
    hide Leap, DaysBefore, DaysIn;
    var first := 12 * year;
    MonthInYear(year, 1);
    MonthInYear(year, 2);
    MonthInYear(year, 3);
    MonthInYear(year, 4);
    MonthInYear(year, 5);
    MonthInYear(year, 6);
    MonthInYear(year, 7);
    MonthInYear(year, 8);
    MonthInYear(year, 9);
    MonthInYear(year, 10);
    MonthInYear(year, 11);
    MonthInYear(year, 12);
    HalfYear(first);
    HalfYear(first + 6);
  }

  lemma FourthYears(year: nat)
    ensures (year + 4) / 4 == (year + 3) / 4 + if year % 4 == 0 then 1 else 0
  {
  }

  lemma Centuries(year: nat)
    ensures (year + 100) / 100 == (year + 99) / 100 + if year % 100 == 0 then 1 else 0
  {
  }

  lemma FourthCenturies(year: nat)
    ensures (year + 400) / 400 == (year + 399) / 400 + if year % 400 == 0 then 1 else 0
  {
  }

  lemma MultipleOfMultiple(n: nat, few: nat, many: nat)
    requires few > 0 && many > 0 && n % (few * many) == 0
    ensures n % few == 0
  {
    var turns := n / (few * many);
    assert n == few * (many * turns);
    MultipleDivides(few, many * turns);
  }

  lemma MultipleDivides(few: nat, turns: nat)
    requires few > 0
    ensures (few * turns) % few == 0
  {
    var n := few * turns;
    var over := turns - n / few;
    assert n % few == few * over by {
      assert n == few * (n / few) + n % few;
      assert few * over == few * turns - few * (n / few);
    }
    assert over == 0;
  }

  lemma EveryCenturyIsFourth(year: nat)
    ensures year % 400 == 0 ==> year % 100 == 0
    ensures year % 100 == 0 ==> year % 4 == 0
  {
    if year % 400 == 0 { MultipleOfMultiple(year, 100, 4); }
    if year % 100 == 0 { MultipleOfMultiple(year, 4, 25); }
  }

  /** The days before a year: one more for each fourth year, one fewer for each hundredth, one more for each 400th. */
  lemma {:induction false} DaysBeforeYear(year: nat)
    ensures DaysBefore(12 * year) == 365 * year + (year + 3) / 4 - (year + 99) / 100 + (year + 399) / 400
  {
    hide DaysBefore;
    if year > 0 {
      var last := year - 1;
      DaysBeforeYear(last);
      YearLength(last);
      FourthYears(last);
      Centuries(last);
      FourthCenturies(last);
      EveryCenturyIsFourth(last);
    } else {
      NoDaysBefore();
    }
  }

  lemma NoDaysBefore()
    ensures DaysBefore(0) == 0
  {
  }

  /** The number of a day, counted from the first day of year zero. */
  function Ordinal(d: Day): (n: int)
    ensures n >= 1
  {
    DaysBefore(d.month) + d.day
  }

  lemma {:induction false} DaysBeforeGrows(a: nat, b: nat)
    requires a < b
    ensures DaysBefore(a) + DaysIn(a) <= DaysBefore(b)
  {
    if a < b - 1 {
      DaysBeforeGrows(a, b - 1);
    }
  }

  /** A later month is a later day. */
  lemma LaterMonthIsLater(x: Day, y: Day)
    requires x.month < y.month
    ensures Ordinal(x) < Ordinal(y)
  {
    DaysBeforeGrows(x.month, y.month);
  }

  lemma MoreMonthsIsLater(d: Day, a: nat, b: nat)
    requires a < b
    ensures Ordinal(AddMonths(d, a)) < Ordinal(AddMonths(d, b))
  {
    LaterMonthIsLater(AddMonths(d, a), AddMonths(d, b));
  }

  lemma NoMonths(d: Day)
    ensures AddMonths(d, 0) == d
  {
  }

  /** Looking for the month a day falls in, month by month. */
  function DateFrom(index: nat, day: nat): (d: Day)
    requires day >= 1
    ensures DaysBefore(d.month) + d.day == DaysBefore(index) + day
    decreases day
  {
    if day <= DaysIn(index) then Date(index, day)
    else DateFrom(index + 1, day - DaysIn(index))
  }

  function DateOf(ordinal: int): (d: Day)
    requires ordinal >= 1
    ensures Ordinal(d) == ordinal
  {
    DateFrom(0, ordinal)
  }

  /** No two days have the same number. */
  lemma OrdinalIsOneToOne(x: Day, y: Day)
    requires Ordinal(x) == Ordinal(y)
    ensures x == y
  {
    if x.month < y.month {
      LaterMonthIsLater(x, y);
    } else if y.month < x.month {
      LaterMonthIsLater(y, x);
    }
  }

  lemma DateOfOrdinal(d: Day)
    ensures DateOf(Ordinal(d)) == d
  {
    OrdinalIsOneToOne(DateOf(Ordinal(d)), d);
  }
}
