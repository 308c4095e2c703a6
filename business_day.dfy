/**
 * The N-th business-day advancer of main.py (get_nth_business_day).
 *
 * A date is a proleptic Gregorian day ordinal, as Python's date.toordinal
 * gives it (0001-01-01 is ordinal 1 and a Monday), so that one calendar
 * day forward is `+ 1` and Python's weekday() is `(d + 6) % 7`, with
 * Monday 0 and Sunday 6.  The Korean holiday calendar is injected as a set
 * of ordinals and the market oracle (the KRX ticker listing for a day) as a
 * function from ordinals to ticker lists.
 */
module BusinessDay {

  /** Python's `weekday()` of a day ordinal: Monday is 0, Sunday is 6. */
  function Weekday(d: int): (w: int)
    ensures 0 <= w < 7
  {
    (d + 6) % 7
  }

  /**
   * Saturday or Sunday: the `weekday() >= 5` test.  Ordinal 6 (0001-01-06)
   * is a Saturday and ordinal 7 a Sunday, so these are the ordinals that are
   * 6 or 0 modulo 7.
   */
  function IsWeekend(d: int): (b: bool)
    ensures b <==> Weekday(d) == 5 || Weekday(d) == 6
    ensures b <==> d % 7 == 6 || d % 7 == 0
  {
    Weekday(d) >= 5
  }

  /**
   * A day the advancer counts: not a weekend day, not in the holiday set,
   * and the market oracle lists at least one ticker for it.
   */
  function IsBusinessDay(d: int, holidays: set<int>, tickers: int -> seq<string>): (b: bool)
    ensures b <==> (1 <= d % 7 <= 5 && d !in holidays && tickers(d) != [])
  {
    !IsWeekend(d) && d !in holidays && tickers(d) != []
  }

  /** The number of business days `d` with `start < d <= end`. */
  function Counted(start: int, end: int, holidays: set<int>, tickers: int -> seq<string>): (c: nat)
    ensures c <= if end <= start then 0 else end - start
    decreases end - start
  {
    if end <= start then 0
    else Counted(start, end - 1, holidays, tickers) + (if IsBusinessDay(end, holidays, tickers) then 1 else 0)
  }

  /** At least `n` business days follow `start`, so the advancer's loop ends. */
  ghost predicate Reachable(start: int, n: int, holidays: set<int>, tickers: int -> seq<string>) {
    exists h :: n <= Counted(start, h, holidays, tickers)
  }

  /** `r` is the n-th business day after `start`. */
  ghost predicate IsNthBusinessDay(start: int, n: int, r: int, holidays: set<int>, tickers: int -> seq<string>) {
    start < r && IsBusinessDay(r, holidays, tickers) && Counted(start, r, holidays, tickers) == n
  }

  /** Counting further never counts fewer days. */
  lemma {:induction false} CountedMonotone(start: int, a: int, b: int, holidays: set<int>, tickers: int -> seq<string>)
    requires a <= b
    ensures Counted(start, a, holidays, tickers) <= Counted(start, b, holidays, tickers)
    decreases b - a
  {
    if a < b {
      CountedMonotone(start, a, b - 1, holidays, tickers);
    }
  }

  /** A business day after `a` raises the count beyond the count at `a`. */
  lemma CountedGrowsAtBusinessDay(start: int, a: int, b: int, holidays: set<int>, tickers: int -> seq<string>)
    requires start <= a < b
    requires IsBusinessDay(b, holidays, tickers)
    ensures Counted(start, a, holidays, tickers) < Counted(start, b, holidays, tickers)
  {
    CountedMonotone(start, a, b - 1, holidays, tickers);
  }

  /**
   * The loop of main.py:33-41.  It steps one calendar day at a time, skips
   * weekend days and holidays, and counts a day when the oracle lists tickers
   * for it; it returns the day on which the count reaches `n`, or `start`
   * itself when `n <= 0` and the loop body never runs.
   */
  method NthBusinessDay(start: int, n: int, holidays: set<int>, tickers: int -> seq<string>) returns (r: int)
    requires Reachable(start, n, holidays, tickers)
    ensures n <= 0 ==> r == start
    ensures 1 <= n ==> start < r
    ensures 1 <= n ==> !IsWeekend(r) && r !in holidays && tickers(r) != []
    ensures 1 <= n ==> Counted(start, r, holidays, tickers) == n
    ensures forall d :: start <= d < r ==> Counted(start, d, holidays, tickers) < n
  {
    ghost var horizon :| n <= Counted(start, horizon, holidays, tickers);
    var count := 0;
    var nextDate := start;
    while count < n
      invariant start <= nextDate
      invariant count == Counted(start, nextDate, holidays, tickers)
      invariant count < n ==> nextDate < horizon
      invariant 1 <= n && count == n ==> start < nextDate && IsBusinessDay(nextDate, holidays, tickers)
      invariant forall d :: start <= d < nextDate ==> Counted(start, d, holidays, tickers) < n
      decreases horizon - nextDate
    {
      CountedMonotone(start, nextDate, nextDate + 1, holidays, tickers);
      nextDate := nextDate + 1;
      if horizon <= nextDate {
        CountedMonotone(start, horizon, nextDate, holidays, tickers);
      }
      if Weekday(nextDate) >= 5 || nextDate in holidays {
        continue;
      }
      if tickers(nextDate) != [] {
        count := count + 1;
      }
    }
    r := nextDate;
  }

  /** The n-th business day is unique: the advancer's contract fixes its result. */
  lemma NthBusinessDayUnique(start: int, n: int, r1: int, r2: int, holidays: set<int>, tickers: int -> seq<string>)
    requires IsNthBusinessDay(start, n, r1, holidays, tickers)
    requires IsNthBusinessDay(start, n, r2, holidays, tickers)
    ensures r1 == r2
  {
    if r1 < r2 {
      CountedGrowsAtBusinessDay(start, r1, r2, holidays, tickers);
    } else if r2 < r1 {
      CountedGrowsAtBusinessDay(start, r2, r1, holidays, tickers);
    }
  }

  /** Strict monotonicity in `n`: a later count is reached on a later day. */
  lemma NthBusinessDayMonotone(start: int, n1: int, n2: int, r1: int, r2: int, holidays: set<int>, tickers: int -> seq<string>)
    requires 1 <= n1 < n2
    requires IsNthBusinessDay(start, n1, r1, holidays, tickers)
    requires IsNthBusinessDay(start, n2, r2, holidays, tickers)
    ensures r1 < r2
  {
    if r2 <= r1 {
      CountedMonotone(start, r2, r1, holidays, tickers);
    }
  }

  /**
   * Across a stretch of `k` consecutive business days right after `start`,
   * the n-th business day is simply `start + n` for every `1 <= n <= k`.
   */
  lemma {:induction false} FullStretch(start: int, k: nat, n: int, holidays: set<int>, tickers: int -> seq<string>)
    requires forall d :: start < d <= start + k ==> IsBusinessDay(d, holidays, tickers)
    requires 1 <= n <= k
    ensures IsNthBusinessDay(start, n, start + n, holidays, tickers)
  {
    StretchCount(start, n, holidays, tickers);
  }

  lemma {:induction false} StretchCount(start: int, j: nat, holidays: set<int>, tickers: int -> seq<string>)
    requires forall d :: start < d <= start + j ==> IsBusinessDay(d, holidays, tickers)
    ensures Counted(start, start + j, holidays, tickers) == j
  {
    if j > 0 {
      StretchCount(start, j - 1, holidays, tickers);
    }
  }

  /**
   * A Friday followed by the weekend and a Monday holiday: the first
   * business day after it is the Tuesday, when that day is trading.
   */
  lemma LongWeekend(friday: int, holidays: set<int>, tickers: int -> seq<string>)
    requires Weekday(friday) == 4
    requires friday + 3 in holidays
    requires friday + 4 !in holidays && tickers(friday + 4) != []
    ensures IsNthBusinessDay(friday, 1, friday + 4, holidays, tickers)
  {
    assert Weekday(friday + 1) == 5 && Weekday(friday + 2) == 6 && Weekday(friday + 4) == 1;
    assert Counted(friday, friday + 1, holidays, tickers) == 0;
    assert Counted(friday, friday + 2, holidays, tickers) == 0;
    assert Counted(friday, friday + 3, holidays, tickers) == 0;
  }
}
