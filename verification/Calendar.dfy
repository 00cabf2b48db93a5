/** Calendar dates as Go's time.Date normalizes them, and the occurrences of a recurring schedule. */
module Calendar {

  const SECONDS_PER_DAY := 86400

  /** Months are counted from January of year 0; `day` is the day of the month. */
  datatype Time = Time(month: nat, day: nat, second: nat) {
    predicate Valid() { 1 <= day <= Length(month) && second < SECONDS_PER_DAY }

    /** Seconds since the start of year 0. */
    function Unix(): int { (FirstDay(month) + day - 1) * SECONDS_PER_DAY + second }
  }

  datatype Interval = Daily | Weekly | Monthly

  predicate Leap(year: nat) { year % 4 == 0 && (year % 100 != 0 || year % 400 == 0) }

  function Length(month: nat): (n: nat)
    ensures 28 <= n <= 31
  {
    match month % 12
    case 1 => if Leap(month / 12) then 29 else 28
    case 3 => 30
    case 5 => 30
    case 8 => 30
    case 10 => 30
    case _ => 31
  }

  /** Days from the start of year 0 to the first of the month. */
  function FirstDay(month: nat): nat {
    if month == 0 then 0 else FirstDay(month - 1) + Length(month - 1)
  }

  /** Days past the end of a month run on into the next. */
  function Normalize(month: nat, day: nat, second: nat): Time
    requires day >= 1
    decreases day
  {
    if day <= Length(month) then Time(month, day, second)
    else Normalize(month + 1, day - Length(month), second)
  }

  function AddDate(t: Time, months: nat, days: nat): Time
    requires t.Valid()
  {
    Normalize(t.month + months, t.day + days, t.second)
  }

  function Advance(t: Time, interval: Interval): Time
    requires t.Valid()
  {
    match interval
    case Daily => AddDate(t, 0, 1)
    case Weekly => AddDate(t, 0, 7)
    case Monthly => AddDate(t, 1, 0)
  }

  /** Normalizing names the same day by a date that exists. */
  lemma {:induction false} NormalizeIsSameDay(month: nat, day: nat, second: nat)
    requires day >= 1 && second < SECONDS_PER_DAY
    ensures Normalize(month, day, second).Valid()
    ensures Normalize(month, day, second).Unix() == (FirstDay(month) + day - 1) * SECONDS_PER_DAY + second
    decreases day
  {
    if day > Length(month) { NormalizeIsSameDay(month + 1, day - Length(month), second); }
  }

  /** A step is exactly one day, seven days, or as many days as the current month has. */
  lemma {:induction false} AdvanceStep(t: Time, interval: Interval)
    requires t.Valid()
    ensures Advance(t, interval).Valid()
    ensures Advance(t, interval).Unix() - t.Unix() == SECONDS_PER_DAY *
      match interval case Daily => 1 case Weekly => 7 case Monthly => Length(t.month)
  {
    match interval
    case Daily => NormalizeIsSameDay(t.month, t.day + 1, t.second);
    case Weekly => NormalizeIsSameDay(t.month, t.day + 7, t.second);
    case Monthly => NormalizeIsSameDay(t.month + 1, t.day, t.second);
  }

  /** A monthly step keeps the day of the month exactly when the next month has that day. */
  lemma {:induction false} MonthlyKeepsDayIff(t: Time)
    requires t.Valid()
    ensures Advance(t, Monthly).day == t.day <==> t.day <= Length(t.month + 1)
    ensures Advance(t, Monthly).month == t.month + 1 <==> t.day <= Length(t.month + 1)
  {
    if t.day > Length(t.month + 1) {
      assert Length(t.month + 1) >= 28 && t.day - Length(t.month + 1) <= 3 <= Length(t.month + 2);
      assert Advance(t, Monthly) == Normalize(t.month + 2, t.day - Length(t.month + 1), t.second);
    }
  }

  /** A monthly schedule first due on 31 January 2023 runs next on 3 March. */
  lemma {:induction false} JanuaryThirtyFirstSkipsFebruary()
    ensures var jan31 := Time(2023 * 12, 31, 0);
      jan31.Valid() && Advance(jan31, Monthly) == Time(2023 * 12 + 2, 3, 0)
  {
  }

  // ---------- occurrences ----------

  /** The k-th occurrence of a schedule first due at `first`. */
  function Occurrence(first: Time, interval: Interval, k: nat): (t: Time)
    requires first.Valid()
    ensures t.Valid()
  {
    if k == 0 then first
    else
      AdvanceStep(Occurrence(first, interval, k - 1), interval);
      Advance(Occurrence(first, interval, k - 1), interval)
  }

  /** Occurrences strictly increase, by at least a day each, so no two share a second. */
  lemma {:induction false} OccurrencesIncrease(first: Time, interval: Interval, j: nat, k: nat)
    requires first.Valid() && j < k
    ensures Occurrence(first, interval, j).Unix() + SECONDS_PER_DAY * (k - j) <= Occurrence(first, interval, k).Unix()
    decreases k
  {
    AdvanceStep(Occurrence(first, interval, k - 1), interval);
    if j < k - 1 { OccurrencesIncrease(first, interval, j, k - 1); }
  }
}
