/**
 * A bill: an adjustment to the balances, possibly recurring.  This module
 * models the constructor of `Bill` in bill.py (the expansion of the first
 * date into the list of occurrence dates, and the split of the amount into
 * three categories), its membership test and its `irrelevant` query.
 */
module Bills {
  import opened Outcomes
  import opened Calendar

  /** Why building or reading a bill fails; each is an exception in the source. */
  datatype BillError =
    | NonPositiveCap        // assert at_most > 0
    | NonPositivePeriod     // assert period_number > 0
    | UnknownPeriodUnit     // the unit names neither days nor months
    | InvalidDate           // date(...) was asked for a day that does not exist
    | TooFewFields          // a CSV line with fewer than three fields
    | BadValue              // the amount is not a number
    | BadStartDate          // the first date is not a date
    | EmptyRule             // a rule field holding no word at all
    | MissingArgument       // a rule lacking one of its words
    | BadNumber             // a rule's number does not parse
    | BadPeriodUnit         // an `every` rule whose unit is not month(s) or day(s)
    | BadUntilDate          // an `until` rule whose date does not parse
    | UnknownRule           // a rule whose first word is no known rule

  /** The `every` argument after `every.split()` and `int(...)`: "3 months" is Every(3, "months"). */
  datatype Every = Every(count: int, unit: string)

  datatype Unit = Days | Months

  /** A recurrence whose count has been checked and whose unit has been recognised. */
  datatype Step = Step(count: int, unit: Unit)

  /** The fractions of the amount charged to each category; they need not sum to 1. */
  datatype Distribution = Distribution(discretionary: real, emergency: real, living: real)

  datatype Bill = Bill(
    name: string,
    total: real,
    dates: seq<Date>,
    discretionary: real,
    emergency: real,
    living: real,
    actual: bool)

  /** The default of `at_most` (1e9 in the source). */
  const DefaultCap: int := 1_000_000_000

  const DefaultDistribution: Distribution := Distribution(0.0, 0.0, 1.0)

  /** Python's `sub in s` on strings. */
  predicate HasSubstring(s: string, sub: string)
    decreases |s|
  {
    |sub| <= |s| && (s[..|sub|] == sub || (|s| > 0 && HasSubstring(s[1..], sub)))
  }

  /** The unit test of the constructor: "day" is looked for first, then "month". */
  function UnitOf(unit: string): Option<Unit> {
    if HasSubstring(unit, "day") then Some(Days)
    else if HasSubstring(unit, "month") then Some(Months)
    else None
  }

  /** A string whose first letter differs from that of `sub` holds `sub` only after that letter. */
  lemma SkipFirstLetter(s: string, sub: string)
    requires |s| > 0 && |sub| > 0 && s[0] != sub[0]
    ensures HasSubstring(s, sub) <==> HasSubstring(s[1..], sub)
  {
    if |sub| <= |s| {
      assert s[..|sub|][0] != sub[0];
    }
  }

  lemma UnitNames()
    ensures UnitOf("day") == Some(Days) && UnitOf("days") == Some(Days)
    ensures UnitOf("month") == Some(Months) && UnitOf("months") == Some(Months)
  {
    assert "day"[..3] == "day";
    assert "days"[..3] == "day";
    assert "month"[..5] == "month";
    assert "months"[..5] == "month";
    assert !HasSubstring("hs", "day");
    SkipFirstLetter("ths", "day");
    assert "ths"[1..] == "hs";
    SkipFirstLetter("nths", "day");
    assert "nths"[1..] == "ths";
    SkipFirstLetter("onths", "day");
    assert "onths"[1..] == "nths";
    SkipFirstLetter("months", "day");
    assert "months"[1..] == "onths";
    assert !HasSubstring("th", "day");
    SkipFirstLetter("nth", "day");
    assert "nth"[1..] == "th";
    SkipFirstLetter("onth", "day");
    assert "onth"[1..] == "nth";
    SkipFirstLetter("month", "day");
    assert "month"[1..] == "onth";
  }

  /** The default `until`: the same day five years on, which does not exist for 29 February. */
  function DefaultUntil(on: Date): (r: Option<Date>)
    ensures r.None? <==> on.month == 2 && on.day == 29
    ensures r.Some? ==> r.value == Ymd(on.year + 5, on.month, on.day)
  {
    MakeDate(on.year + 5, on.month, on.day)
  }

  /** The inner loop `while month > 12: month -= 12; year += 1`. */
  function CarryMonth(year: int, month: int): (r: (int, int))
    requires month >= 1
    ensures 1 <= r.1 <= 12
    ensures 12 * r.0 + r.1 == 12 * year + month
    decreases month
  {
    if month > 12 then CarryMonth(year + 1, month - 12) else (year, month)
  }

  /** The next candidate date after d: `count` days later, or the same day `count` months later. */
  function Advance(d: Date, step: Step): (r: Option<Date>)
    requires step.count > 0
    ensures r.Some? ==> Before(d, r.value)
    ensures step.unit == Days ==> r == Some(AddDays(d, step.count))
    ensures step.unit == Months && r.Some? ==>
      r.value.day == d.day && MonthIndex(r.value) == MonthIndex(d) + step.count
    ensures r.None? ==>
      (step.unit == Months && forall e: Date :: MonthIndex(e) == MonthIndex(d) + step.count ==> e.day != d.day)
  {
    match step.unit
    case Days => Some(AddDays(d, step.count))
    case Months =>
      var ym := CarryMonth(d.year, d.month + step.count);
      MakeDate(ym.0, ym.1, d.day)
  }

  /** Each date after the first k (k >= 1) is the Advance of the one before it. */
  predicate Chained(ds: seq<Date>, step: Step, k: nat)
    requires step.count > 0
  {
    forall i :: k <= i < |ds| && i >= 1 ==> Advance(ds[i - 1], step) == Some(ds[i])
  }

  /** Every date from index k on is on or before `until`. */
  predicate WithinUntil(ds: seq<Date>, until: Date, k: nat) {
    forall i :: k <= i < |ds| ==> NotAfter(ds[i], until)
  }

  /** Generation is over: the cap is reached, or the next candidate is after `until`. */
  predicate Stops(ds: seq<Date>, step: Step, atMost: int, until: Date)
    requires |ds| > 0 && step.count > 0
  {
    |ds| >= atMost ||
    (var next := Advance(ds[|ds| - 1], step); next.Some? && Before(until, next.value))
  }

  /** The loop of the constructor, continued from the dates generated so far. */
  function ExpandFrom(ds: seq<Date>, step: Step, atMost: int, until: Date): (r: Result<seq<Date>, BillError>)
    requires |ds| > 0 && step.count > 0
    ensures r.Err? ==> r.error == InvalidDate && step.unit == Months
    ensures r.Ok? ==> |ds| <= |r.value| && r.value[..|ds|] == ds && (|ds| <= atMost ==> |r.value| <= atMost)
    decreases atMost - |ds|
  {
    if |ds| >= atMost then Ok(ds)
    else match Advance(ds[|ds| - 1], step)
      case None => Err(InvalidDate)
      case Some(next) =>
        if Before(until, next) then Ok(ds)
        else ExpandFrom(ds + [next], step, atMost, until)
  }

  /** The dates of a recurring bill first due on `on`. */
  function Expansion(on: Date, step: Step, atMost: int, until: Date): Result<seq<Date>, BillError>
    requires step.count > 0
  {
    ExpandFrom([on], step, atMost, until)
  }

  /** What the source promises of the dates of a recurring bill, stated without the loop. */
  predicate IsExpansion(ds: seq<Date>, on: Date, step: Step, atMost: int, until: Date)
    requires step.count > 0
  {
    && |ds| > 0 && ds[0] == on
    && |ds| <= atMost
    && Chained(ds, step, 1)
    && WithinUntil(ds, until, 1)
    && Stops(ds, step, atMost, until)
  }

  lemma {:induction false} ExpandFromShape(ds: seq<Date>, step: Step, atMost: int, until: Date)
    requires |ds| > 0 && step.count > 0
    requires ExpandFrom(ds, step, atMost, until).Ok?
    ensures var out := ExpandFrom(ds, step, atMost, until).value;
      && |ds| <= |out| && out[..|ds|] == ds
      && (|ds| <= atMost ==> |out| <= atMost)
      && Chained(out, step, |ds|)
      && WithinUntil(out, until, |ds|)
      && Stops(out, step, atMost, until)
    decreases atMost - |ds|
  {
    if |ds| < atMost {
      var next := Advance(ds[|ds| - 1], step).value;
      if !Before(until, next) {
        var ds' := ds + [next];
        ExpandFromShape(ds', step, atMost, until);
        var out := ExpandFrom(ds', step, atMost, until).value;
        assert out[..|ds|] == out[..|ds'|][..|ds|];
        assert out[|ds|] == out[..|ds'|][|ds|];
      }
    }
  }

  /** Every successful expansion meets the stated promise. */
  lemma ExpansionMeetsPromise(on: Date, step: Step, atMost: int, until: Date)
    requires step.count > 0 && atMost > 0
    requires Expansion(on, step, atMost, until).Ok?
    ensures IsExpansion(Expansion(on, step, atMost, until).value, on, step, atMost, until)
  {
    ExpandFromShape([on], step, atMost, until);
    var out := Expansion(on, step, atMost, until).value;
    assert out[0] == out[..1][0];
  }

  lemma {:induction false} ExpandFromPrefix(ds: seq<Date>, k: nat, step: Step, atMost: int, until: Date)
    requires step.count > 0
    requires 1 <= k <= |ds| <= atMost
    requires Chained(ds, step, 1) && WithinUntil(ds, until, 1)
    ensures ExpandFrom(ds[..k], step, atMost, until) == ExpandFrom(ds, step, atMost, until)
    decreases |ds| - k
  {
    if k < |ds| {
      assert ds[..k][k - 1] == ds[k - 1];
      assert Advance(ds[k - 1], step) == Some(ds[k]);
      assert ds[..k] + [ds[k]] == ds[..k + 1];
      ExpandFromPrefix(ds, k + 1, step, atMost, until);
    } else {
      assert ds[..k] == ds;
    }
  }

  /**
   * The promise determines the dates: a sequence meeting it is the expansion,
   * so together with ExpansionMeetsPromise it characterises every successful
   * expansion.
   */
  lemma ExpansionUnique(ds: seq<Date>, on: Date, step: Step, atMost: int, until: Date)
    requires step.count > 0
    requires IsExpansion(ds, on, step, atMost, until)
    ensures Expansion(on, step, atMost, until) == Ok(ds)
  {
    ExpandFromPrefix(ds, 1, step, atMost, until);
    assert ds[..1] == [on];
  }

  /**
   * If the expansion reaches, within the window and below the cap, a date
   * whose next month lacks its day, it fails with InvalidDate, and the step
   * is a month step. `FailureHasWitness` is the converse.
   */
  lemma ExpansionFailure(ds: seq<Date>, on: Date, step: Step, atMost: int, until: Date)
    requires step.count > 0
    requires |ds| > 0 && ds[0] == on && |ds| < atMost
    requires Chained(ds, step, 1) && WithinUntil(ds, until, 1)
    requires Advance(ds[|ds| - 1], step).None?
    ensures Expansion(on, step, atMost, until) == Err(InvalidDate)
    ensures step.unit == Months
  {
    ExpandFromPrefix(ds, 1, step, atMost, until);
    assert ds[..1] == [on];
  }

  /** A failed expansion reaches, within the window and below the cap, a date with no next candidate. */
  lemma {:induction false} FailureHasWitness(ds: seq<Date>, step: Step, atMost: int, until: Date)
    requires |ds| > 0 && step.count > 0
    requires Chained(ds, step, 1) && WithinUntil(ds, until, 1)
    requires ExpandFrom(ds, step, atMost, until).Err?
    ensures exists ext :: (
      && |ds| <= |ext| < atMost && ext[..|ds|] == ds && Chained(ext, step, 1)
      && WithinUntil(ext, until, 1) && Advance(ext[|ext| - 1], step).None?)
    decreases atMost - |ds|
  {
    var next := Advance(ds[|ds| - 1], step);
    if next.None? {
      assert ds[..|ds|] == ds;
    } else {
      var longer := ds + [next.value];
      ExtendChain(ds, next.value, step, until);
      FailureHasWitness(longer, step, atMost, until);
      var ext :| |longer| <= |ext| < atMost && ext[..|longer|] == longer && Chained(ext, step, 1) &&
        WithinUntil(ext, until, 1) && Advance(ext[|ext| - 1], step).None?;
      assert ext[..|ds|] == ext[..|longer|][..|ds|];
    }
  }

  /** A chain within the window grows by the next candidate when that candidate is within the window. */
  lemma ExtendChain(ds: seq<Date>, next: Date, step: Step, until: Date)
    requires |ds| > 0 && step.count > 0
    requires Chained(ds, step, 1) && WithinUntil(ds, until, 1)
    requires Advance(ds[|ds| - 1], step) == Some(next) && NotAfter(next, until)
    ensures Chained(ds + [next], step, 1) && WithinUntil(ds + [next], until, 1)
  {
  }

  lemma {:induction false} ExpandFromErrors(ds: seq<Date>, step: Step, atMost: int, until: Date)
    requires |ds| > 0 && step.count > 0
    requires ExpandFrom(ds, step, atMost, until).Err?
    ensures ExpandFrom(ds, step, atMost, until).error == InvalidDate
    ensures step.unit == Months
    decreases atMost - |ds|
  {
    var next := Advance(ds[|ds| - 1], step);
    if next.Some? {
      ExpandFromErrors(ds + [next.value], step, atMost, until);
    }
  }

  /** A day recurrence never fails. */
  lemma DayStepsNeverFail(on: Date, step: Step, atMost: int, until: Date)
    requires step.count > 0 && step.unit == Days
    ensures Expansion(on, step, atMost, until).Ok?
  {
    if Expansion(on, step, atMost, until).Err? {
      ExpandFromErrors([on], step, atMost, until);
    }
  }

  /** Dates joined by Advance strictly increase. */
  lemma {:induction false} ChainedIncreasing(ds: seq<Date>, step: Step)
    requires step.count > 0 && Chained(ds, step, 1)
    ensures forall i, j :: 0 <= i < j < |ds| ==> Before(ds[i], ds[j])
  {
    if |ds| > 1 {
      var front := ds[..|ds| - 1];
      assert Chained(front, step, 1) by {
        forall i | 1 <= i < |front| ensures Advance(front[i - 1], step) == Some(front[i]) {
          assert front[i - 1] == ds[i - 1] && front[i] == ds[i];
        }
      }
      ChainedIncreasing(front, step);
      forall i, j | 0 <= i < j < |ds| ensures Before(ds[i], ds[j]) {
        if j < |ds| - 1 {
          assert front[i] == ds[i] && front[j] == ds[j];
        } else {
          assert Advance(ds[j - 1], step) == Some(ds[j]);
          if i < j - 1 {
            assert front[i] == ds[i] && front[j - 1] == ds[j - 1];
          }
        }
      }
    }
  }

  /** With a day step of p, the i-th date is the first date plus i * p days. */
  lemma {:induction false} DailyDate(ds: seq<Date>, p: int, i: nat)
    requires p > 0 && Chained(ds, Step(p, Days), 1)
    requires i < |ds|
    ensures ds[i] == AddDays(ds[0], i * p)
  {
    if i > 0 {
      DailyDate(ds, p, i - 1);
      assert Advance(ds[i - 1], Step(p, Days)) == Some(ds[i]);
      AddDaysAdditive(ds[0], (i - 1) * p, p);
      assert (i - 1) * p + p == i * p;
    }
  }

  /** With a month step of p, the i-th date keeps the day-of-month and lies i * p months on. */
  lemma {:induction false} MonthlyDate(ds: seq<Date>, p: int, i: nat)
    requires p > 0 && Chained(ds, Step(p, Months), 1)
    requires i < |ds|
    ensures ds[i].day == ds[0].day
    ensures MonthIndex(ds[i]) == MonthIndex(ds[0]) + i * p
  {
    if i > 0 {
      MonthlyDate(ds, p, i - 1);
      assert Advance(ds[i - 1], Step(p, Months)) == Some(ds[i]);
      assert (i - 1) * p + p == i * p;
    }
  }

  /** The last date a bill may recur on: `until`, or five years after `on`. */
  function Limit(on: Date, until: Option<Date>): Option<Date> {
    if until.Some? then until else DefaultUntil(on)
  }

  /** The dates of a bill once the cap and the limit have been checked. */
  function Occurrences(on: Date, every: Option<Every>, atMost: int, limit: Date): Result<seq<Date>, BillError> {
    if every.None? then Ok([on])
    else if every.value.count <= 0 then Err(NonPositivePeriod)
    else match UnitOf(every.value.unit)
      case None => Err(UnknownPeriodUnit)
      case Some(u) => Expansion(on, Step(every.value.count, u), atMost, limit)
  }

  /** The constructor `Bill(name, amount, on, every, at_most, until, dist, actual)`. */
  function Construct(name: string, amount: real, on: Date, every: Option<Every>, atMost: int,
                     until: Option<Date>, dist: Distribution, actual: bool): (r: Result<Bill, BillError>)
    ensures r.Err? ==> r.error in {NonPositiveCap, InvalidDate, NonPositivePeriod, UnknownPeriodUnit}
    ensures r.Ok? ==> atMost > 0 && Limit(on, until).Some?
    ensures r.Ok? ==> (
      && r.value.name == name && r.value.total == amount && r.value.actual == actual
      && r.value.discretionary == amount * dist.discretionary
      && r.value.emergency == amount * dist.emergency
      && r.value.living == amount * dist.living
      && 1 <= |r.value.dates| <= atMost && r.value.dates[0] == on)
  {
    if atMost <= 0 then Err(NonPositiveCap)
    else if Limit(on, until).None? then Err(InvalidDate)
    else match Occurrences(on, every, atMost, Limit(on, until).value)
      case Err(e) => Err(e)
      case Ok(ds) =>
        Ok(Bill(name, amount, ds, amount * dist.discretionary, amount * dist.emergency,
                amount * dist.living, actual))
  }

  /** The day loop of the constructor (bill.py:42-48): `p` days at a time until the cap or `limit`. */
  method ExpandDaily(on: Date, p: int, atMost: int, limit: Date) returns (dates: seq<Date>)
    requires p > 0
    ensures Expansion(on, Step(p, Days), atMost, limit) == Ok(dates)
  {
    dates := [on];
    ghost var step := Step(p, Days);
    while |dates| < atMost
      invariant |dates| > 0
      invariant ExpandFrom(dates, step, atMost, limit) == Expansion(on, step, atMost, limit)
      decreases atMost - |dates|
    {
      var newDate := AddDays(dates[|dates| - 1], p);
      if Before(limit, newDate) {
        break;
      }
      dates := dates + [newDate];
    }
  }

  /**
   * The month loop of the constructor (bill.py:51-65), with the inner carry
   * loop: the same day `p` months on, failing where that day does not exist.
   */
  method ExpandMonthly(on: Date, p: int, atMost: int, limit: Date) returns (r: Result<seq<Date>, BillError>)
    requires p > 0
    ensures r == Expansion(on, Step(p, Months), atMost, limit)
  {
    var dates := [on];
    ghost var step := Step(p, Months);
    while |dates| < atMost
      invariant |dates| > 0
      invariant ExpandFrom(dates, step, atMost, limit) == Expansion(on, step, atMost, limit)
      decreases atMost - |dates|
    {
      var last := dates[|dates| - 1];
      var year := last.year;
      var month := last.month + p;
      var day := last.day;
      while month > 12
        invariant month >= 1
        invariant CarryMonth(year, month) == CarryMonth(last.year, last.month + p)
        decreases month
      {
        month := month - 12;
        year := year + 1;
      }
      var newDate := MakeDate(year, month, day);
      assert newDate == Advance(last, step);
      if newDate.None? {
        return Err(InvalidDate);
      }
      if Before(limit, newDate.value) {
        break;
      }
      dates := dates + [newDate.value];
    }
    r := Ok(dates);
  }

  /** The constructor `Bill.__init__` with its checks and loops. */
  method NewBill(name: string, amount: real, on: Date, every: Option<Every>, atMost: int,
                 until: Option<Date>, dist: Distribution, actual: bool) returns (r: Result<Bill, BillError>)
    ensures r == Construct(name, amount, on, every, atMost, until, dist, actual)
  {
    if atMost <= 0 {
      return Err(NonPositiveCap);
    }
    var dates := [on];
    var discretionary := amount * dist.discretionary;
    var emergency := amount * dist.emergency;
    var living := amount * dist.living;
    var limit: Date;
    if until.Some? {
      limit := until.value;
    } else {
      var fiveYearsOn := DefaultUntil(on);
      if fiveYearsOn.None? {
        return Err(InvalidDate);
      }
      limit := fiveYearsOn.value;
    }
    if every.Some? {
      var periodNumber := every.value.count;
      if periodNumber <= 0 {
        return Err(NonPositivePeriod);
      }
      if HasSubstring(every.value.unit, "day") {
        dates := ExpandDaily(on, periodNumber, atMost, limit);
        assert Occurrences(on, every, atMost, limit) == Ok(dates);
      } else if HasSubstring(every.value.unit, "month") {
        var expanded := ExpandMonthly(on, periodNumber, atMost, limit);
        assert Occurrences(on, every, atMost, limit) == expanded;
        if expanded.Err? {
          return Err(expanded.error);
        }
        dates := expanded.value;
      } else {
        assert UnitOf(every.value.unit).None?;
        return Err(UnknownPeriodUnit);
      }
    }
    r := Ok(Bill(name, amount, dates, discretionary, emergency, living, actual));
    assert Limit(on, until) == Some(limit);
    ghost var built := Construct(name, amount, on, every, atMost, until, dist, actual);
    assert built.Ok? && built.value == r.value;
  }

  /** Strictly increasing dates. */
  predicate Increasing(ds: seq<Date>) {
    forall i, j :: 0 <= i < j < |ds| ==> Before(ds[i], ds[j])
  }

  /** What every constructed bill satisfies. */
  predicate WellFormed(b: Bill) {
    |b.dates| > 0 && Increasing(b.dates)
  }

  /** The error cases of the constructor, in the order the source checks them. */
  lemma ConstructFailures(name: string, amount: real, on: Date, every: Option<Every>, atMost: int,
                          until: Option<Date>, dist: Distribution, actual: bool)
    ensures atMost <= 0 ==>
      Construct(name, amount, on, every, atMost, until, dist, actual) == Err(NonPositiveCap)
    ensures atMost > 0 && until.None? && on.month == 2 && on.day == 29 ==>
      Construct(name, amount, on, every, atMost, until, dist, actual) == Err(InvalidDate)
    ensures atMost > 0 && Limit(on, until).Some? && every.Some? && every.value.count <= 0 ==>
      Construct(name, amount, on, every, atMost, until, dist, actual) == Err(NonPositivePeriod)
    ensures atMost > 0 && Limit(on, until).Some? && every.Some? && every.value.count > 0 &&
            UnitOf(every.value.unit).None? ==>
      Construct(name, amount, on, every, atMost, until, dist, actual) == Err(UnknownPeriodUnit)
    ensures Construct(name, amount, on, every, atMost, until, dist, actual) == Err(InvalidDate) ==>
      atMost > 0 && ((until.None? && on.month == 2 && on.day == 29) ||
                     (every.Some? && UnitOf(every.value.unit) == Some(Months)))
  {
    var c := Construct(name, amount, on, every, atMost, until, dist, actual);
    if c == Err(InvalidDate) && atMost > 0 && Limit(on, until).Some? {
      var e := every.value;
      ExpandFromErrors([on], Step(e.count, UnitOf(e.unit).value), atMost, Limit(on, until).value);
    }
  }

  /** Without `every` the bill occurs once, on its first date. */
  lemma SingleOccurrence(name: string, amount: real, on: Date, atMost: int,
                         until: Option<Date>, dist: Distribution, actual: bool)
    requires atMost > 0 && Limit(on, until).Some?
    ensures Construct(name, amount, on, None, atMost, until, dist, actual).Ok?
    ensures Construct(name, amount, on, None, atMost, until, dist, actual).value.dates == [on]
  {
  }

  /**
   * A constructed bill keeps its name, amount and flag; charges each category
   * the amount times its own fraction; and has dates that start at `on`, never
   * number more than `at_most`, strictly increase, and after the first never
   * pass the limit.
   */
  lemma ConstructedBill(name: string, amount: real, on: Date, every: Option<Every>, atMost: int,
                        until: Option<Date>, dist: Distribution, actual: bool)
    requires Construct(name, amount, on, every, atMost, until, dist, actual).Ok?
    ensures var b := Construct(name, amount, on, every, atMost, until, dist, actual).value;
      && b.name == name && b.total == amount && b.actual == actual
      && b.discretionary == amount * dist.discretionary
      && b.emergency == amount * dist.emergency
      && b.living == amount * dist.living
      && |b.dates| >= 1 && b.dates[0] == on && |b.dates| <= atMost
      && WellFormed(b)
      && Limit(on, until).Some?
      && forall i :: 1 <= i < |b.dates| ==> NotAfter(b.dates[i], Limit(on, until).value)
  {
    var b := Construct(name, amount, on, every, atMost, until, dist, actual).value;
    if every.Some? {
      var step := Step(every.value.count, UnitOf(every.value.unit).value);
      ExpansionMeetsPromise(on, step, atMost, Limit(on, until).value);
      ChainedIncreasing(b.dates, step);
    }
  }

  /**
   * A day recurrence of p days never fails; its dates are on, on + p, on + 2p,
   * ... and stop at the cap or before the first one past the limit.
   */
  lemma DailyBill(name: string, amount: real, on: Date, p: int, unit: string, atMost: int,
                  until: Option<Date>, dist: Distribution, actual: bool)
    requires atMost > 0 && Limit(on, until).Some? && p > 0 && UnitOf(unit) == Some(Days)
    ensures Construct(name, amount, on, Some(Every(p, unit)), atMost, until, dist, actual).Ok?
    ensures var ds := Construct(name, amount, on, Some(Every(p, unit)), atMost, until, dist, actual).value.dates;
      && |ds| >= 1
      && (forall i :: 0 <= i < |ds| ==> ds[i] == AddDays(on, i * p))
      && (|ds| == atMost || Before(Limit(on, until).value, AddDays(ds[|ds| - 1], p)))
  {
    var step := Step(p, Days);
    var limit := Limit(on, until).value;
    DayStepsNeverFail(on, step, atMost, limit);
    ExpansionMeetsPromise(on, step, atMost, limit);
    var ds := Expansion(on, step, atMost, limit).value;
    forall i | 0 <= i < |ds| ensures ds[i] == AddDays(on, i * p) {
      DailyDate(ds, p, i);
    }
  }

  /**
   * A month recurrence of p months is built exactly when its expansion
   * succeeds, and otherwise fails with InvalidDate. A built one keeps the
   * day-of-month and moves i * p months on for the i-th date (month overflow
   * carried into the year); `ExpansionFailure` and `FailureHasWitness` say
   * when the expansion fails.
   */
  lemma MonthlyBill(name: string, amount: real, on: Date, p: int, unit: string, atMost: int,
                    until: Option<Date>, dist: Distribution, actual: bool)
    requires atMost > 0 && Limit(on, until).Some? && p > 0 && UnitOf(unit) == Some(Months)
    ensures Construct(name, amount, on, Some(Every(p, unit)), atMost, until, dist, actual).Ok? <==>
      Expansion(on, Step(p, Months), atMost, Limit(on, until).value).Ok?
    ensures Construct(name, amount, on, Some(Every(p, unit)), atMost, until, dist, actual).Err? ==>
      Construct(name, amount, on, Some(Every(p, unit)), atMost, until, dist, actual).error == InvalidDate
    ensures Construct(name, amount, on, Some(Every(p, unit)), atMost, until, dist, actual).Ok? ==> (
      var ds := Construct(name, amount, on, Some(Every(p, unit)), atMost, until, dist, actual).value.dates;
      && |ds| >= 1
      && (forall i :: 0 <= i < |ds| ==> ds[i].day == on.day && MonthIndex(ds[i]) == MonthIndex(on) + i * p)
      && (|ds| == atMost ||
          (Advance(ds[|ds| - 1], Step(p, Months)).Some? &&
           Before(Limit(on, until).value, Advance(ds[|ds| - 1], Step(p, Months)).value))))
  {
    var step := Step(p, Months);
    var limit := Limit(on, until).value;
    if Expansion(on, step, atMost, limit).Err? {
      ExpandFromErrors([on], step, atMost, limit);
    } else {
      ExpansionMeetsPromise(on, step, atMost, limit);
      var ds := Expansion(on, step, atMost, limit).value;
      forall i | 0 <= i < |ds| ensures ds[i].day == on.day && MonthIndex(ds[i]) == MonthIndex(on) + i * p {
        MonthlyDate(ds, p, i);
      }
    }
  }

  /** `date in bill` (`__contains__`). */
  predicate OccursOn(b: Bill, d: Date)
    ensures OccursOn(b, d) && WellFormed(b) ==>
      NotAfter(b.dates[0], d) && NotAfter(d, b.dates[|b.dates| - 1])
  {
    d in b.dates
  }

  /** A constructed bill occurs on `on` and otherwise only between `on` and its limit. */
  lemma OccursWithinWindow(name: string, amount: real, on: Date, every: Option<Every>, atMost: int,
                           until: Option<Date>, dist: Distribution, actual: bool, d: Date)
    requires Construct(name, amount, on, every, atMost, until, dist, actual).Ok?
    ensures OccursOn(Construct(name, amount, on, every, atMost, until, dist, actual).value, on)
    ensures OccursOn(Construct(name, amount, on, every, atMost, until, dist, actual).value, d) ==>
      d == on || (Before(on, d) && NotAfter(d, Limit(on, until).value))
  {
    ConstructedBill(name, amount, on, every, atMost, until, dist, actual);
  }

  /** The `irrelevant` property: the bill's last date is before today. */
  predicate Irrelevant(b: Bill, today: Date)
    requires |b.dates| > 0
    ensures Irrelevant(b, today) && WellFormed(b) ==> !OccursOn(b, today)
  {
    Before(b.dates[|b.dates| - 1], today)
  }

  /** For a well-formed bill, irrelevant means that every one of its dates is in the past. */
  lemma IrrelevantMeansAllPast(b: Bill, today: Date)
    requires WellFormed(b)
    ensures Irrelevant(b, today) <==> forall d :: d in b.dates ==> Before(d, today)
  {
    var last := b.dates[|b.dates| - 1];
    if Irrelevant(b, today) {
      forall d | d in b.dates ensures Before(d, today) {
        var i :| 0 <= i < |b.dates| && b.dates[i] == d;
        if i < |b.dates| - 1 {
          assert Before(d, last);
        }
      }
    }
  }
}
