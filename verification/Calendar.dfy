/** Dates, and the due date a supplier's payment term gives an invoice. */
module Calendar {

  datatype Date = Date(year: nat, month: nat, day: nat)

  predicate Leap(year: nat) {
    year % 4 == 0 && (year % 100 != 0 || year % 400 == 0)
  }

  function DaysIn(year: nat, month: nat): nat {
    if month in {4, 6, 9, 11} then 30 else if month != 2 then 31 else if Leap(year) then 29 else 28
  }

  predicate IsDay(d: Date) {
    1 <= d.year && 1 <= d.month <= 12 && 1 <= d.day <= DaysIn(d.year, d.month)
  }

  type Day = d: Date | IsDay(d) witness Date(1, 1, 1)

  // ---------- ordinals ----------

  function DaysBeforeYear(year: nat): nat
    requires year >= 1
  {
    365 * (year - 1) + (year - 1) / 4 - (year - 1) / 100 + (year - 1) / 400
  }

  function DaysBeforeMonth(year: nat, month: nat): nat {
    if month <= 1 then 0 else DaysBeforeMonth(year, month - 1) + DaysIn(year, month - 1)
  }

  /** `date.toordinal`. */
  function Ordinal(d: Day): nat {
    DaysBeforeYear(d.year) + DaysBeforeMonth(d.year, d.month) + d.day
  }

  lemma YearEnds(year: nat)
    requires year >= 1
    ensures DaysBeforeMonth(year, 13) == if Leap(year) then 366 else 365
    ensures DaysBeforeYear(year + 1) == DaysBeforeYear(year) + DaysBeforeMonth(year, 13)
  {
    YearLength(year);
    hide DaysBeforeYear, Leap;
    assert DaysBeforeMonth(year, 2) == DaysBeforeMonth(year, 1) + DaysIn(year, 1);
    assert DaysBeforeMonth(year, 3) == DaysBeforeMonth(year, 2) + DaysIn(year, 2);
    assert DaysBeforeMonth(year, 4) == DaysBeforeMonth(year, 3) + DaysIn(year, 3);
    assert DaysBeforeMonth(year, 5) == DaysBeforeMonth(year, 4) + DaysIn(year, 4);
    assert DaysBeforeMonth(year, 6) == DaysBeforeMonth(year, 5) + DaysIn(year, 5);
    assert DaysBeforeMonth(year, 7) == DaysBeforeMonth(year, 6) + DaysIn(year, 6);
    assert DaysBeforeMonth(year, 8) == DaysBeforeMonth(year, 7) + DaysIn(year, 7);
    assert DaysBeforeMonth(year, 9) == DaysBeforeMonth(year, 8) + DaysIn(year, 8);
    assert DaysBeforeMonth(year, 10) == DaysBeforeMonth(year, 9) + DaysIn(year, 9);
    assert DaysBeforeMonth(year, 11) == DaysBeforeMonth(year, 10) + DaysIn(year, 10);
    assert DaysBeforeMonth(year, 12) == DaysBeforeMonth(year, 11) + DaysIn(year, 11);
    assert DaysBeforeMonth(year, 13) == DaysBeforeMonth(year, 12) + DaysIn(year, 12);
  }

  lemma YearLength(year: nat)
    requires year >= 1
    ensures DaysBeforeYear(year + 1) == DaysBeforeYear(year) + if Leap(year) then 366 else 365
  {
    QuotientStep(year, 4);
    QuotientStep(year, 100);
    QuotientStep(year, 400);
    Centuries(year);
  }

  lemma Centuries(year: nat)
    ensures year % 400 == 0 ==> year % 100 == 0
    ensures year % 100 == 0 ==> year % 4 == 0
  {
    if year % 400 == 0 {
      OfHundred(year, 4 * (year / 400));
    }
    if year % 100 == 0 {
      OfFour(year, 25 * (year / 100));
    }
  }

  lemma OfHundred(year: nat, n: nat)
    requires year == 100 * n
    ensures year % 100 == 0
  {
  }

  lemma OfFour(year: nat, n: nat)
    requires year == 4 * n
    ensures year % 4 == 0
  {
  }

  lemma QuotientStep(year: nat, n: nat)
    requires year >= 1 && n in {4, 100, 400}
    ensures year / n == (year - 1) / n + if year % n == 0 then 1 else 0
  {
  }

  lemma {:induction false} MonthsPass(year: nat, m: nat, m': nat)
    requires 1 <= m < m'
    ensures DaysBeforeMonth(year, m) + DaysIn(year, m) <= DaysBeforeMonth(year, m')
  {
    if m < m' - 1 {
      MonthsPass(year, m, m' - 1);
    }
  }

  lemma {:induction false} YearsPass(y: nat, y': nat)
    requires 1 <= y < y'
    ensures DaysBeforeYear(y) + DaysBeforeMonth(y, 13) <= DaysBeforeYear(y')
  {
    YearEnds(y' - 1);
    if y < y' - 1 {
      hide DaysBeforeYear, DaysBeforeMonth;
      YearsPass(y, y' - 1);
    }
  }

  predicate Earlier(a: Date, b: Date) {
    a.year < b.year || (a.year == b.year && (a.month < b.month || (a.month == b.month && a.day < b.day)))
  }

  lemma EarlierIsLess(a: Day, b: Day)
    requires Earlier(a, b)
    ensures Ordinal(a) < Ordinal(b)
  {
    hide DaysBeforeYear, DaysBeforeMonth, DaysIn;
    if a.year < b.year {
      YearsPass(a.year, b.year);
      MonthsPass(a.year, a.month, 13);
    } else if a.month < b.month {
      MonthsPass(a.year, a.month, b.month);
    }
  }

  /** Ordinals order the days as the calendar does. */
  lemma OrdinalOrder(a: Day, b: Day)
    ensures Ordinal(a) < Ordinal(b) <==> Earlier(a, b)
    ensures Ordinal(a) == Ordinal(b) <==> a == b
  {
    hide Ordinal;
    if Earlier(a, b) {
      EarlierIsLess(a, b);
    } else if Earlier(b, a) {
      EarlierIsLess(b, a);
    }
  }

  // ---------- moving by days ----------

  function NextDay(d: Day): Day {
    if d.day < DaysIn(d.year, d.month) then d.(day := d.day + 1)
    else if d.month < 12 then Date(d.year, d.month + 1, 1)
    else Date(d.year + 1, 1, 1)
  }

  function PreviousDay(d: Day): Day
    requires d != Date(1, 1, 1)
  {
    if d.day > 1 then d.(day := d.day - 1)
    else if d.month > 1 then Date(d.year, d.month - 1, DaysIn(d.year, d.month - 1))
    else Date(d.year - 1, 12, 31)
  }

  /** `d + timedelta(days=n)`. */
  function Plus(d: Day, n: nat): Day {
    if n == 0 then d else NextDay(Plus(d, n - 1))
  }

  lemma NextOrdinal(d: Day)
    ensures Ordinal(NextDay(d)) == Ordinal(d) + 1
  {
    YearEnds(d.year);
    hide DaysBeforeYear;
  }

  lemma {:induction false} PlusOrdinal(d: Day, n: nat)
    ensures Ordinal(Plus(d, n)) == Ordinal(d) + n
  {
    if n > 0 {
      hide Ordinal, NextDay;
      PlusOrdinal(d, n - 1);
      NextOrdinal(Plus(d, n - 1));
    }
  }

  // ---------- the due date ----------

  /** A supplier's payment term; no days, or 0, stand for 30. */
  datatype Term = Term(days: nat, endOfMonth: bool)

  const NO_TERM := Term(0, false)

  function DaysOf(t: Term): nat {
    if t.days == 0 then 30 else t.days
  }

  predicate EndsMonth(d: Day) {
    d.day == DaysIn(d.year, d.month)
  }

  function MonthEnd(d: Day): Day {
    d.(day := DaysIn(d.year, d.month))
  }

  function DueDate(issue: Day, t: Term): Day {
    var due := Plus(issue, DaysOf(t));
    if t.endOfMonth then MonthEnd(due) else due
  }

  /** `_compute_due_date`: the end of the month is the day before the first of the next. */
  method ComputeDueDate(issue: Day, t: Term) returns (due: Day)
    ensures due == DueDate(issue, t)
  {
    var days := 30;
    if t.days != 0 {
      days := t.days;
    }
    due := Plus(issue, days);
    if t.endOfMonth {
      if due.month == 12 {
        due := PreviousDay(Date(due.year + 1, 1, 1));
      } else {
        due := PreviousDay(Date(due.year, due.month + 1, 1));
      }
    }
  }

  /** The due date is the issue date plus the days of the term or, with end of month, the first end of a
      month not before that day; 0 days count as 30. */
  lemma DueDateIs(issue: Day, t: Term)
    ensures var due, days := DueDate(issue, t), if t.days == 0 then 30 else t.days;
            && (!t.endOfMonth ==> Ordinal(due) == Ordinal(issue) + days)
            && (t.endOfMonth ==>
                  && EndsMonth(due) && Ordinal(due) >= Ordinal(issue) + days
                  && forall e: Day | EndsMonth(e) && Ordinal(e) >= Ordinal(issue) + days :: Ordinal(e) >= Ordinal(due))
  {
    hide Ordinal, Plus, DaysIn;
    var plain := Plus(issue, DaysOf(t));
    PlusOrdinal(issue, DaysOf(t));
    OrdinalOrder(plain, MonthEnd(plain));
    forall e: Day | EndsMonth(e) && Ordinal(e) >= Ordinal(plain) ensures Ordinal(e) >= Ordinal(MonthEnd(plain)) {
      OrdinalOrder(e, plain);
      OrdinalOrder(e, MonthEnd(plain));
    }
  }

  const DAYS_BEFORE_MONTH := [0, 31, 59, 90, 120, 151, 181, 212, 243, 273, 304, 334, 365]

  /** The days of a year before each month, one more after February in a leap year. */
  lemma MonthTable(year: nat, month: nat)
    requires 1 <= month <= 13
    ensures DaysBeforeMonth(year, month)
         == DAYS_BEFORE_MONTH[month - 1]
            + if month > 2 && year % 4 == 0 && (year % 100 != 0 || year % 400 == 0) then 1 else 0
    decreases month
  {
    if month > 1 {
      MonthTable(year, month - 1);
    }
  }
}
