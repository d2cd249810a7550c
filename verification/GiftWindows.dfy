/**
 Complimentary calendar months counted from one anchor
 (SOURCE/auth/entitlement_projection.py, `GiftWindowFacts`).  All instants are in UTC.
 */
module GiftWindows {
  import opened Common

  const MAXYEAR := 9999

  predicate IsLeap(year: int) { year % 4 == 0 && (year % 100 != 0 || year % 400 == 0) }

  /** `calendar.monthrange(year, month)[1]`, for months 1 to 12. */
  function DaysIn(year: int, month: int): (d: int)
    ensures 28 <= d <= 31
  {
    if month == 2 then (if IsLeap(year) then 29 else 28)
    else if month in {4, 6, 9, 11} then 30
    else 31
  }

  /** Days of the year before the first of a month; `month` 13 is the first of the next January. */
  function DaysBefore(year: int, month: int): int
    requires 1 <= month <= 13
    decreases month
  {
    if month == 1 then 0 else DaysBefore(year, month - 1) + DaysIn(year, month - 1)
  }

  /** The Gregorian calendar's own table, and the length of its year. */
  lemma MonthsOfTheYear(year: int)
    ensures var leap := if (year % 4 == 0 && year % 100 != 0) || year % 400 == 0 then 1 else 0;
            && DaysBefore(year, 2) == 31 && DaysBefore(year, 3) == 59 + leap && DaysBefore(year, 4) == 90 + leap
            && DaysBefore(year, 5) == 120 + leap && DaysBefore(year, 6) == 151 + leap
            && DaysBefore(year, 7) == 181 + leap && DaysBefore(year, 8) == 212 + leap
            && DaysBefore(year, 9) == 243 + leap && DaysBefore(year, 10) == 273 + leap
            && DaysBefore(year, 11) == 304 + leap && DaysBefore(year, 12) == 334 + leap
            && DaysBefore(year, 13) == 365 + leap
  {
    var leap := if (year % 4 == 0 && year % 100 != 0) || year % 400 == 0 then 1 else 0;
    assert DaysIn(year, 2) == 28 + leap;
    FirstHalf(year, leap);
    SecondHalf(year, leap);
    hide DaysBefore, DaysIn, IsLeap;
  }

  lemma NextMonth(year: int, month: int)
    requires 1 <= month <= 12
    ensures DaysBefore(year, 1) == 0 && DaysBefore(year, month + 1) == DaysBefore(year, month) + DaysIn(year, month)
  {
  }

  lemma FirstHalf(year: int, leap: int)
    requires DaysIn(year, 2) == 28 + leap
    ensures DaysBefore(year, 2) == 31 && DaysBefore(year, 3) == 59 + leap && DaysBefore(year, 4) == 90 + leap
            && DaysBefore(year, 5) == 120 + leap && DaysBefore(year, 6) == 151 + leap
            && DaysBefore(year, 7) == 181 + leap
  {
    hide DaysBefore, IsLeap;
    NextMonth(year, 1);
    NextMonth(year, 2);
    NextMonth(year, 3);
    NextMonth(year, 4);
    NextMonth(year, 5);
    NextMonth(year, 6);
  }

  lemma SecondHalf(year: int, leap: int)
    requires DaysBefore(year, 7) == 181 + leap
    ensures DaysBefore(year, 8) == 212 + leap && DaysBefore(year, 9) == 243 + leap
            && DaysBefore(year, 10) == 273 + leap && DaysBefore(year, 11) == 304 + leap
            && DaysBefore(year, 12) == 334 + leap && DaysBefore(year, 13) == 365 + leap
  {
    hide DaysBefore, IsLeap;
    NextMonth(year, 7);
    NextMonth(year, 8);
    NextMonth(year, 9);
    NextMonth(year, 10);
    NextMonth(year, 11);
    NextMonth(year, 12);
  }

  function DaysOfYears(first: int, years: nat): int {
    if years == 0 then 0 else DaysOfYears(first, years - 1) + DaysBefore(first + years - 1, 13)
  }

  function LeapsUpTo(year: int): int { year / 4 - year / 100 + year / 400 }

  lemma Fourths(year: int)
    ensures year / 4 - (year - 1) / 4 == if year % 4 == 0 then 1 else 0
  {
  }

  lemma Hundredths(year: int)
    ensures year / 100 - (year - 1) / 100 == if year % 100 == 0 then 1 else 0
  {
  }

  lemma FourHundredths(year: int)
    ensures year / 400 - (year - 1) / 400 == if year % 400 == 0 then 1 else 0
  {
  }

  lemma CenturiesAreFourths(year: int)
    ensures year % 100 == 0 ==> year % 4 == 0
  {
    if year % 100 == 0 { assert year == 4 * (25 * (year / 100)); }
  }

  lemma FourCenturiesAreCenturies(year: int)
    ensures year % 400 == 0 ==> year % 100 == 0
  {
    if year % 400 == 0 { assert year == 100 * (4 * (year / 400)); }
  }

  lemma OneMoreLeap(year: int)
    ensures LeapsUpTo(year) - LeapsUpTo(year - 1) == if IsLeap(year) then 1 else 0
  {
    Fourths(year);
    Hundredths(year);
    FourHundredths(year);
    CenturiesAreFourths(year);
    FourCenturiesAreCenturies(year);
  }

  lemma {:induction false} YearsCount(first: int, years: nat)
    ensures DaysOfYears(first, years) == 365 * years + LeapsUpTo(first + years - 1) - LeapsUpTo(first - 1)
  {
    hide LeapsUpTo, DaysBefore;
    if years > 0 {
      YearsCount(first, years - 1);
      MonthsOfTheYear(first + years - 1);
      OneMoreLeap(first + years - 1);
    }
  }

  /** Any 400 years in a row have 146097 days. */
  lemma FourHundredYears(first: int)
    ensures DaysOfYears(first, 400) == 146097
  {
    YearsCount(first, 400);
    var y := first - 1;
    assert (y + 400) / 4 == y / 4 + 100 && (y + 400) / 100 == y / 100 + 4 && (y + 400) / 400 == y / 400 + 1;
  }

  /** A `datetime`; `micros` counts from midnight. */
  datatype Instant = Instant(year: int, month: int, day: int, micros: int)
  {
    ghost predicate Valid() {
      1 <= year <= MAXYEAR && 1 <= month <= 12 && 1 <= day <= DaysIn(year, month) && 0 <= micros < 86_400_000_000
    }

    function MonthIndex(): int { year * 12 + month - 1 }

    predicate Before(other: Instant) {
      || year < other.year
      || (year == other.year && month < other.month)
      || (year == other.year && month == other.month && day < other.day)
      || (year == other.year && month == other.month && day == other.day && micros < other.micros)
    }

    predicate AtOrBefore(other: Instant) { this == other || Before(other) }
  }

  lemma MonthsOrderInstants(a: Instant, b: Instant)
    requires a.Valid() && b.Valid()
    ensures a.MonthIndex() < b.MonthIndex() ==> a.Before(b)
    ensures a.Before(b) ==> a.MonthIndex() <= b.MonthIndex()
    ensures a.Before(b) <==> !b.AtOrBefore(a)
  {
  }

  lemma Transitive(a: Instant, b: Instant, c: Instant)
    requires a.Before(b) && b.AtOrBefore(c)
    ensures a.Before(c)
  {
  }

  datatype DateError = YearOutOfRange

  /** `anchored_month`: the anchor's day and time in a later month, the day clamped to that month. */
  function AnchoredMonth(anchor: Instant, months: int): Result<Instant, DateError> {
    var index := anchor.year * 12 + anchor.month - 1 + months;
    var year, month := index / 12, index % 12 + 1;
    if 1 <= year <= MAXYEAR then Ok(Instant(year, month, Min(anchor.day, DaysIn(year, month)), anchor.micros))
        else Err(YearOutOfRange)
  }

  /** The last month offset from `anchor` that the calendar holds. */
  function LastOffset(anchor: Instant): int { MAXYEAR * 12 + 11 - anchor.MonthIndex() }

  lemma IndexOf(year: int, month: int, index: int)
    requires 1 <= month <= 12 && index == year * 12 + month - 1
    ensures index / 12 == year && index % 12 + 1 == month
  {
  }

  lemma AnchoredMonthIsValid(anchor: Instant, k: nat)
    requires anchor.Valid()
    ensures k <= LastOffset(anchor) <==> AnchoredMonth(anchor, k).Ok?
    ensures k <= LastOffset(anchor) ==>
              && AnchoredMonth(anchor, k).value.Valid()
              && AnchoredMonth(anchor, k).value.MonthIndex() == anchor.MonthIndex() + k
  {
    var index := anchor.MonthIndex() + k;
    assert index == (index / 12) * 12 + index % 12;
  }

  /** Clamping never carries over: every month takes its day from the anchor, not from the month before. */
  lemma AnchorDayComesBack(anchor: Instant, k: nat)
    requires anchor.Valid() && k <= LastOffset(anchor)
    ensures AnchoredMonth(anchor, k).Ok?
    ensures var a := AnchoredMonth(anchor, k).value;
            && a.day == Min(anchor.day, DaysIn(a.year, a.month)) && a.micros == anchor.micros
            && (k == 0 ==> a == anchor)
            && (anchor.day <= 28 ==> a.day == anchor.day)
  {
    AnchoredMonthIsValid(anchor, k);
    IndexOf(anchor.year, anchor.month, anchor.MonthIndex());
  }

  /** Strictly increasing in the month offset, despite the clamping. */
  lemma AnchoredMonthsIncrease(anchor: Instant, j: nat, k: nat)
    requires anchor.Valid() && j < k <= LastOffset(anchor)
    ensures AnchoredMonth(anchor, j).Ok? && AnchoredMonth(anchor, k).Ok?
    ensures AnchoredMonth(anchor, j).value.Before(AnchoredMonth(anchor, k).value)
  {
    AnchoredMonthIsValid(anchor, j);
    AnchoredMonthIsValid(anchor, k);
    MonthsOrderInstants(AnchoredMonth(anchor, j).value, AnchoredMonth(anchor, k).value);
  }

  // ----------------------------------------------------------------- validator

  datatype Window = Window(start: Instant, end: Instant, anchor: Instant, months: nat)
  {
    ghost predicate Valid() { start.Valid() && end.Valid() && anchor.Valid() && months > 0 }

    predicate IsActive(at: Instant) { start.AtOrBefore(at) && at.Before(end) }
  }

  datatype WindowError = EndNotAfterStart | NotOnAnchor | OutOfRange

  /** `ordered_window`. */
  function Validate(w: Window): Result<Window, WindowError> {
    if w.end.AtOrBefore(w.start) then Err(EndNotAfterStart)
    else
      var offset := (w.start.year - w.anchor.year) * 12 + w.start.month - w.anchor.month;
      if offset < 0 then Err(NotOnAnchor)
      else
        var first := AnchoredMonth(w.anchor, offset);
        if first.Err? then Err(OutOfRange)
        else if w.start != first.value then Err(NotOnAnchor)
        else
          var last := AnchoredMonth(w.anchor, offset + w.months);
          if last.Err? then Err(OutOfRange)
          else if w.end != last.value then Err(NotOnAnchor)
          else Ok(w)
  }

  /** The window covers `w.months` anchored months, from the `k`th on. */
  predicate Covers(w: Window, k: nat) {
    AnchoredMonth(w.anchor, k) == Ok(w.start) && AnchoredMonth(w.anchor, k + w.months) == Ok(w.end)
  }

  /** Exactly the whole stretches of anchored months are accepted, and each in one way. */
  lemma AcceptedExactlyWhenAnchored(w: Window)
    requires w.Valid()
    ensures Validate(w).Ok? <==> exists k: nat :: Covers(w, k)
    ensures forall j: nat, k: nat :: Covers(w, j) && Covers(w, k) ==> j == k
  {
    var offset := (w.start.year - w.anchor.year) * 12 + w.start.month - w.anchor.month;
    assert offset == w.start.MonthIndex() - w.anchor.MonthIndex();
    if Validate(w).Ok? { assert Covers(w, offset); }
    forall k: nat | Covers(w, k) ensures k == offset && Validate(w).Ok? {
      CoversIsAccepted(w, k);
    }
  }

  lemma CoversIsAccepted(w: Window, k: nat)
    requires w.Valid() && Covers(w, k)
    ensures k == w.start.MonthIndex() - w.anchor.MonthIndex() && Validate(w).Ok?
  {
    hide AnchoredMonth, DaysIn, Instant.Before, Instant.AtOrBefore;
    AnchoredMonthIsValid(w.anchor, k);
    AnchoredMonthIsValid(w.anchor, k + w.months);
    AnchoredMonthsIncrease(w.anchor, k, k + w.months);
    MonthsOrderInstants(w.start, w.end);
  }

  // -------------------------------------------------------------------- tiling

  /** The `k`th one-month window on the anchor. */
  function MonthWindow(anchor: Instant, k: nat): Window
    requires AnchoredMonth(anchor, k).Ok? && AnchoredMonth(anchor, k + 1).Ok?
  {
    Window(AnchoredMonth(anchor, k).value, AnchoredMonth(anchor, k + 1).value, anchor, 1)
  }

  /** `t` lies in the `k`th month from the anchor. */
  predicate InMonth(anchor: Instant, k: nat, t: Instant) {
    AnchoredMonth(anchor, k).Ok? && AnchoredMonth(anchor, k + 1).Ok? && MonthWindow(anchor, k).IsActive(t)
  }

  /**
   The month an instant falls in: its own calendar month's, or the one before when the anchored day
   is still to come.
   */
  function MonthOf(anchor: Instant, t: Instant): int {
    var k := t.MonthIndex() - anchor.MonthIndex();
    match AnchoredMonth(anchor, k)
    case Ok(a) => if a.AtOrBefore(t) then k else k - 1
    case Err(_) => k
  }

  /** `t` comes before the last anchored date that the calendar holds. */
  predicate WithinCalendar(anchor: Instant, t: Instant) {
    AnchoredMonth(anchor, LastOffset(anchor)).Ok? && t.Before(AnchoredMonth(anchor, LastOffset(anchor)).value)
  }

  lemma LastDateIsLaterThan(anchor: Instant, t: Instant)
    requires anchor.Valid() && t.Valid() && anchor.AtOrBefore(t) && WithinCalendar(anchor, t)
    ensures 0 <= t.MonthIndex() - anchor.MonthIndex() <= LastOffset(anchor)
    ensures var k := t.MonthIndex() - anchor.MonthIndex();
            k == LastOffset(anchor) ==> AnchoredMonth(anchor, k).Ok? && !AnchoredMonth(anchor, k).value.AtOrBefore(t)
  {
    MonthsOrderInstants(anchor, t);
    AnchoredMonthIsValid(anchor, LastOffset(anchor));
    MonthsOrderInstants(t, AnchoredMonth(anchor, LastOffset(anchor)).value);
  }

  lemma NextMonthIsLater(anchor: Instant, k: nat, t: Instant)
    requires anchor.Valid() && t.Valid() && k <= LastOffset(anchor) && t.MonthIndex() < anchor.MonthIndex() + k
    ensures AnchoredMonth(anchor, k).Ok? && t.Before(AnchoredMonth(anchor, k).value)
  {
    AnchoredMonthIsValid(anchor, k);
    MonthsOrderInstants(t, AnchoredMonth(anchor, k).value);
  }

  lemma LastMonthIsEarlier(anchor: Instant, k: nat, t: Instant)
    requires anchor.Valid() && t.Valid() && k <= LastOffset(anchor) && anchor.MonthIndex() + k < t.MonthIndex()
    ensures AnchoredMonth(anchor, k).Ok? && AnchoredMonth(anchor, k).value.AtOrBefore(t)
  {
    AnchoredMonthIsValid(anchor, k);
    MonthsOrderInstants(AnchoredMonth(anchor, k).value, t);
  }

  lemma FallsInItsMonth(anchor: Instant, t: Instant)
    requires anchor.Valid() && t.Valid() && anchor.AtOrBefore(t) && WithinCalendar(anchor, t)
    ensures MonthOf(anchor, t) >= 0 && InMonth(anchor, MonthOf(anchor, t), t)
  {
    hide DaysIn, AnchoredMonth, Instant.Before, Instant.AtOrBefore;
    LastDateIsLaterThan(anchor, t);
    var k := t.MonthIndex() - anchor.MonthIndex();
    AnchoredMonthIsValid(anchor, k);
    var a := AnchoredMonth(anchor, k).value;
    MonthsOrderInstants(t, a);
    if k == 0 { AnchorDayComesBack(anchor, 0); }
    if a.AtOrBefore(t) {
      NextMonthIsLater(anchor, k + 1, t);
    } else {
      LastMonthIsEarlier(anchor, k - 1, t);
    }
  }

  lemma StartsBy(anchor: Instant, k: nat, m: nat, t: Instant)
    requires anchor.Valid() && t.Valid() && AnchoredMonth(anchor, k).Ok? && InMonth(anchor, m, t)
    ensures AnchoredMonth(anchor, k).value.AtOrBefore(t) <==> k <= m
  {
    AnchoredMonthIsValid(anchor, k);
    AnchoredMonthIsValid(anchor, m);
    AnchoredMonthIsValid(anchor, m + 1);
    var a := AnchoredMonth(anchor, k).value;
    if k < m {
      AnchoredMonthsIncrease(anchor, k, m);
    } else if m + 1 < k {
      AnchoredMonthsIncrease(anchor, m + 1, k);
      Transitive(t, AnchoredMonth(anchor, m + 1).value, a);
    }
    MonthsOrderInstants(t, a);
  }

  lemma AtMostOneMonth(anchor: Instant, t: Instant, j: nat, k: nat)
    requires anchor.Valid() && t.Valid() && InMonth(anchor, j, t) && j != k
    ensures !InMonth(anchor, k, t)
  {
    if j < k {
      if AnchoredMonth(anchor, k).Ok? { StartsBy(anchor, k, j, t); }
    } else if AnchoredMonth(anchor, k + 1).Ok? {
      StartsBy(anchor, k + 1, j, t);
      AnchoredMonthIsValid(anchor, k + 1);
      MonthsOrderInstants(t, AnchoredMonth(anchor, k + 1).value);
    }
  }

  /**
   One-month windows tile time: the validator accepts each, each begins where the
   one before it ends, and every instant from the anchor up to the last anchored
   date of the calendar is active in exactly one of them.
   */
  lemma MonthsTileTime(anchor: Instant, t: Instant)
    requires anchor.Valid() && t.Valid() && anchor.AtOrBefore(t) && WithinCalendar(anchor, t)
    ensures exists k: nat :: InMonth(anchor, k, t)
    ensures forall j: nat, k: nat :: InMonth(anchor, j, t) && InMonth(anchor, k, t) ==> j == k
  {
    FallsInItsMonth(anchor, t);
    forall j: nat, k: nat | InMonth(anchor, j, t) && InMonth(anchor, k, t) ensures j == k {
      if j != k { AtMostOneMonth(anchor, t, j, k); }
    }
  }

  lemma ConsecutiveWindowsMeet(anchor: Instant, k: nat)
    requires anchor.Valid() && k + 2 <= LastOffset(anchor)
    ensures AnchoredMonth(anchor, k).Ok? && AnchoredMonth(anchor, k + 1).Ok? && AnchoredMonth(anchor, k + 2).Ok?
    ensures MonthWindow(anchor, k).end == MonthWindow(anchor, k + 1).start
    ensures Validate(MonthWindow(anchor, k)).Ok? && Validate(MonthWindow(anchor, k + 1)).Ok?
  {
    AnchoredMonthIsValid(anchor, k);
    AnchoredMonthIsValid(anchor, k + 1);
    AnchoredMonthIsValid(anchor, k + 2);
    AcceptedExactlyWhenAnchored(MonthWindow(anchor, k));
    AcceptedExactlyWhenAnchored(MonthWindow(anchor, k + 1));
    assert Covers(MonthWindow(anchor, k), k) && Covers(MonthWindow(anchor, k + 1), k + 1);
  }

  /** An accepted window of several months is active exactly in the months it is made of. */
  lemma LongWindowIsItsMonths(w: Window, t: Instant)
    requires w.Valid() && Validate(w).Ok? && t.Valid()
    requires w.anchor.AtOrBefore(t) && WithinCalendar(w.anchor, t)
    ensures var k := w.start.MonthIndex() - w.anchor.MonthIndex();
            w.IsActive(t) <==> exists j: nat :: k <= j < k + w.months && InMonth(w.anchor, j, t)
  {
    hide AnchoredMonth, InMonth, MonthOf, Validate, DaysIn, Instant.Before, Instant.AtOrBefore, Instant.Valid;
    AcceptedExactlyWhenAnchored(w);
    var k: nat :| Covers(w, k);
    CoversIsAccepted(w, k);
    FallsInItsMonth(w.anchor, t);
    var m: nat := MonthOf(w.anchor, t);
    StartsBy(w.anchor, k, m, t);
    StartsBy(w.anchor, k + w.months, m, t);
    MonthsOrderInstants(t, w.end);
    MonthsTileTime(w.anchor, t);
    assert w.IsActive(t) <==> k <= m < k + w.months;
  }
}
