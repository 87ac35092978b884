# budgie in Dafny

budgie projects personal balances day by day. A list of bills is read from a
CSV file. Each bill is an amount, positive for a credit and negative for a
debit, that falls due on a first date and possibly recurs every so many days
or months. The simulation walks the calendar from the day before the
simulation start to its end, applying each bill on its dates to three
balances: living, emergency and discretionary. A negative living or
emergency balance can be moved into discretionary after each bill, as
settings toggles say.

This project models the two pieces of logic in that program:

- `Bills` (bill.dfy) models the `Bill` constructor: the checks on `at_most`
  and the period, the default `until`, the expansion of the first date into
  the occurrence dates by day or by month steps, and the split of the amount
  into the three categories. It also models `__contains__` and `irrelevant`.
  - `NewBill` keeps the source's checks, and its `ExpandDaily` and
    `ExpandMonthly` keep the source's `while` loops, including the inner
    month carry loop. `NewBill` is proved equal to the function `Construct`.
  - Lemmas characterise `Construct`: its error cases, the shape of the
    dates, and the day and month recurrences.
- `BillCsv` (bill_csv.dfy) models `Bill.from_csv`: the field-count check,
  the value and first date, and the fold over the rules (`every`, `until`,
  `occurs`/`repeat`/`repeats`, `distribution`, `actual`, `projected`) with
  rejection of unknown rules. `ReadRules` keeps the source's loop over the
  rules and its local variables. `FromCsv` calls it and is proved equal to
  `ParseBill`.
- `Simulation` (simulation.dfy) models the daily loop of main.py (lines
  21-47). It keeps the growing series `time`, `living`, `emergency`,
  `discretionary` and the in-place updates of their last entries. It also
  models the filter behind the irrelevance notices printed before the walk.
  - `Simulate` is proved to produce consecutive days from the seed day to
    the end.
  - Each day's balances are the previous day's with that day's bills folded
    in by `ApplyBills`.
  - The cascades conserve the total and keep the toggled categories
    non-negative.
  - `present_balance` is the closing total on the present date, or 0.
- `Calendar` (calendar.dfy) holds the proleptic Gregorian dates that
  Python's `datetime.date` provides. `date(y, m, d)` fails rather than
  normalising a day that does not exist.
- `Outcomes` (outcomes.dfy) holds `Option` and `Result`.

Every exception the modelled code raises on its modelled inputs is an `Err`
value of `BillError`; nothing is a precondition the source does not impose.
The constructor's `every` arrives already split and converted (see
"Left out"). Amounts are exact reals. The
settings constants (`SIMULATION_START`, `SIMULATION_END`, `PRESENT_DATE`,
both depletion toggles, `PROJECTED_BY_DEFAULT`) and `date.today()` are
parameters.

The model follows the code where it goes beyond a plain description of it:

- The default `until` is built as `date(on.year + 5, on.month, on.day)`
  before `every` is examined (bill.py:34-35). So a bill first due on
  29 February and given no `until` fails to construct with `InvalidDate`.
  This holds even if the bill never recurs (`Bills.DefaultUntil`,
  `Bills.ConstructFailures`).
- The default cap `at_most = 1e9` is the constant 1_000_000_000
  (`Bills.DefaultCap`).
- A month step keeps the day of the month and fails instead of clamping.
  The date is built before it is compared with `until` (bill.py:60-62). So
  a bill on the 31st recurring monthly fails at the first candidate month
  that lacks that day, unless the cap, or an earlier candidate past `until`,
  ends the loop first. It fails even when the month of the missing
  candidate lies past `until` (`Bills.ExpansionFailure`, `Bills.FailureHasWitness`,
  `Bills.Advance`).
- The constructor's test of the unit string looks for "day" before "month" as substrings (bill.py:41,
  bill.py:50). `from_csv` accepts only month, months, day and days, so a
  bill read from a line never fails for an unknown unit
  (`BillCsv.ReadBillsHaveKnownUnits`).
- The source tells a `distribution` rule with a non-number apart from one
  with fewer than three numbers. It converts the words it has before it
  looks for the third (bill.py:136-137), and the model keeps that order.

## Model

| member | source | states |
|---|---|---|
| Calendar.MakeDate | bill.py:60 | `date(y, m, d)` succeeds exactly for a month 1..12 and a day within that month's length, leap years included, and then holds those fields |
| Calendar.NextDay | main.py:27 | the day after d is later than d |
| Calendar.NextDayIsSuccessor | main.py:26-27 | no date lies strictly between d and the day after: `d < e` iff `d + 1 day <= e` |
| Calendar.PrevDay | main.py:24 | the day before d is the date whose next day is d |
| Calendar.PrevDayUndoesNextDay | main.py:24 | stepping forward one day and back returns the same date |
| Calendar.BeforeIsRankOrder | main.py:26 | date comparison agrees with comparing a numeric rank of each date |
| Calendar.AddDays | bill.py:43 | adding n > 0 days gives a later date; adding 0 gives the same date |
| Calendar.AddDaysAdditive | bill.py:43 | adding a days and then b days is adding a + b days |
| Bills.UnitNames | bill.py:41-50 | "day" and "days" select day steps, "month" and "months" select month steps |
| Bills.DefaultUntil | bill.py:34-35 | the default limit is the same day five years on, and it fails exactly for 29 February |
| Bills.CarryMonth | bill.py:56-58 | the carry loop ends with a month in 1..12 and the same month count `12 * year + month` |
| Bills.Advance | bill.py:43-60 | the next candidate is later; a day step adds exactly p days; a month step keeps the day and adds p months; it fails only for a month step into a month lacking that day |
| Bills.ExpandFromShape | bill.py:42-65 | continuing the expansion keeps the dates so far, respects the cap, chains each new date to the previous one, keeps new dates within `until` and stops only at the cap or before a candidate past `until` |
| Bills.ExpansionMeetsPromise | bill.py:42-65 | the dates start at `on`, number at most `at_most`, are chained by the step, stay within `until` after the first, and stop only at the cap or before a candidate past `until` |
| Bills.ExpansionUnique | bill.py:42-65 | any sequence meeting that promise is the expansion, so the promise characterises the result |
| Bills.ExpansionFailure | bill.py:51-65 | if a chained prefix within the window reaches a date whose month step does not exist, the expansion fails with InvalidDate, and the step is a month step |
| Bills.FailureHasWitness | bill.py:51-65 | conversely, a failed expansion reaches, below the cap and within the window, a chained date whose next month step does not exist |
| Bills.ExpandFromErrors | bill.py:42-65 | the expansion loop fails only with InvalidDate and only for month steps |
| Bills.DayStepsNeverFail | bill.py:41-48 | a day recurrence always succeeds |
| Bills.ChainedIncreasing | bill.py:42-65 | chained dates are strictly increasing |
| Bills.DailyDate | bill.py:42-48 | with a step of p days, the i-th date is the first plus i * p days |
| Bills.MonthlyDate | bill.py:51-60 | with a step of p months, the i-th date keeps the first's day and lies i * p months on |
| Bills.ExpandFrom | bill.py:42-65 | continuing from a non-empty list of dates keeps that list as a prefix and, when it is within the cap, stays within the cap; it fails only with InvalidDate and only for month steps |
| Bills.ExpandDaily | bill.py:42-48 | the day loop computes exactly the day-step expansion, which always succeeds |
| Bills.ExpandMonthly | bill.py:51-65 | the month loop, with its inner carry loop, computes exactly the month-step expansion, its InvalidDate failure included |
| Bills.Construct | bill.py:25-67 | it fails only with NonPositiveCap, InvalidDate, NonPositivePeriod or UnknownPeriodUnit; a built bill needs `at_most > 0` and an existing limit, keeps name, amount and flag, charges each category the amount times its own fraction, and has 1 to `at_most` dates starting at `on` |
| Bills.NewBill | bill.py:25-67 | the constructor's checks, with the loops of `ExpandDaily` and `ExpandMonthly`, compute exactly `Construct`: the same bill or the same error |
| Bills.ConstructFailures | bill.py:25-67 | `at_most <= 0` gives NonPositiveCap; a missing `until` on 29 February gives InvalidDate; a period <= 0 gives NonPositivePeriod; an unknown unit gives UnknownPeriodUnit; InvalidDate arises only from the default limit or a month step |
| Bills.SingleOccurrence | bill.py:28-37 | without `every` the dates are exactly `[on]` |
| Bills.ConstructedBill | bill.py:25-65 | a built bill keeps name, amount and flag; charges each category amount * its own fraction, unnormalised; its dates start at `on`, number at most `at_most`, strictly increase, and after the first never pass the limit |
| Bills.DailyBill | bill.py:41-48 | a day recurrence of p days succeeds with dates on, on + p, on + 2p, ..., ending at the cap or before the first candidate past the limit |
| Bills.MonthlyBill | bill.py:50-65 | a month recurrence is built exactly when its expansion succeeds, and otherwise fails with InvalidDate; a built one keeps the day of the month, moves i * p months on for the i-th date, and ends at the cap or before a candidate past the limit |
| Bills.OccursOn | bill.py:69-70 | a well-formed bill contains only dates between its first and its last date |
| Bills.OccursWithinWindow | bill.py:69-70 | a built bill contains `on`, and any other date it contains lies after `on` and not after the limit |
| Bills.Irrelevant | bill.py:72-77 | a well-formed bill that is irrelevant does not fall due today |
| Bills.IrrelevantMeansAllPast | bill.py:72-77 | for a well-formed bill, "last date before today" holds iff every date is before today |
| BillCsv.ApplyRule | bill.py:110-150 | a rule fails only with a rule error; an accepted rule names one of the locals; a rule that changes `every` stores a unit among month, months, day, days |
| BillCsv.EveryStoresPeriod | bill.py:111-120 | `every N unit` stores the pair (N, unit); fewer than three words give MissingArgument, a non-number N gives BadNumber, and a unit other than month, months, day, days gives BadPeriodUnit |
| BillCsv.UntilStoresDate | bill.py:122-126 | `until D` stores the date D; a missing word gives MissingArgument and an invalid date gives BadUntilDate |
| BillCsv.FlagRules | bill.py:143-147 | `actual` stores true and `projected` stores false, changing nothing else |
| BillCsv.RepeatRuleErrors | bill.py:128-132 | `occurs`, `repeat` and `repeats` without a word give MissingArgument, with a non-number give BadNumber, and are otherwise accepted |
| BillCsv.ParsePercents | bill.py:136 | the conversion succeeds iff every word is a number, and then yields each number divided by 100, in order |
| BillCsv.ApplyRules | bill.py:109-150 | the rules fail only with a rule error, never with a constructor or field error |
| BillCsv.RuleIsLocal | bill.py:109-147 | a rule's verdict and stored value do not depend on earlier rules, and it changes only the local it names |
| BillCsv.UnnamedFieldKept | bill.py:103-107 | a local that no rule names keeps its default |
| BillCsv.LastRuleWins | bill.py:109-147 | a local ends with the value stored by the last rule naming it |
| BillCsv.RulesAcceptedIffEachIs | bill.py:109-150 | the rules are accepted iff each one is accepted on its own |
| BillCsv.UnknownRuleRejected | bill.py:149-150 | a rule whose first word is no known rule fails with UnknownRule and names no local |
| BillCsv.RepeatCountsRecurrences | bill.py:128-132 | `occurs N` caps occurrences at N, while `repeat N` and `repeats N` cap them at N + 1 |
| BillCsv.DistributionIsPercent | bill.py:134-141 | `distribution a b c` stores a/100, b/100 and c/100 as discretionary, emergency and living, changing nothing else |
| BillCsv.RuleUnitsRecognised | bill.py:111-120 | after any accepted rules, a stored `every` unit is one of month, months, day, days |
| BillCsv.ReadBillsHaveKnownUnits | bill.py:115-153 | reading a line never fails with UnknownPeriodUnit |
| BillCsv.ParseBill | bill.py:87-153 | the checks in source order: fewer than three fields give exactly TooFewFields, then a non-number value BadValue, then an invalid date BadStartDate, then the first rule error; otherwise the result is exactly the constructor applied to the stripped name, the value, the date and the recurrence, cap, limit, split and flag the rules leave, so a read bill has that name, amount and first date |
| BillCsv.ReadRules | bill.py:103-150 | the loop over the rule fields, from the default locals, computes exactly `ApplyRules`: the locals after every rule, or the first rule error |
| BillCsv.FromCsv | bill.py:87-153 | the field checks, `ReadRules` and the constructor compute exactly `ParseBill`: the field-count, value and date errors, the first rule error, or the constructed bill |
| Simulation.StaleProjections | main.py:17-19 | a name is reported iff some listed bill of that name is irrelevant and projected; at most one name per bill |
| Simulation.Applies | main.py:32-33 | a projected, well-formed bill that applies on some day is not irrelevant as of the present date |
| Simulation.Cascade | main.py:38-44 | the cascades keep the total; a negative toggled category becomes exactly 0; a category that is not negative, or whose toggle is off, is unchanged; discretionary never grows |
| Simulation.ApplyBill | main.py:32-44 | a bill that does not apply changes nothing; an applied bill adds exactly its three amounts to the total, and living and emergency each become the old value plus the bill's own amount, or exactly 0 when that sum is negative and its toggle is on; toggled categories stay non-negative |
| Simulation.ApplyBills | main.py:31-44 | a day's bills change the total by their applied sum, keep toggled categories non-negative, and change nothing on a quiet day |
| Simulation.PastProjectionIsInert | main.py:32-33 | a projected bill whose dates are all before the present never changes the balances |
| Simulation.InertBillCanBeDropped | main.py:31-33 | removing such a bill anywhere in the list leaves each day's result unchanged |
| Simulation.SettleBill | main.py:32-44 | the in-place updates of the last entries compute `ApplyBill` on that entry and leave the other entries alone |
| Simulation.SettleDay | main.py:31-47 | the bill loop turns the last entry into `ApplyBills` of the carried balances, keeps earlier entries, and leaves the present balance equal to the closing total when the day is the present |
| Simulation.WalkOneDay | main.py:26-27 | appending the next day keeps the days consecutive and increasing and does not pass the end |
| Simulation.RecordOneDay | main.py:27-44 | appending a settled day keeps the series aligned and settled, the toggled categories non-negative, and with no bills all zero |
| Simulation.RecordPresent | main.py:46-47 | after a later day is appended, the present balance is still the total on the present date, or 0 if that date was never walked |
| Simulation.QuietDayRepeatsBalances | main.py:28-30 | on a day when no bill applies, the balances equal the previous day's |
| Simulation.DayChangeIsAppliedSum | main.py:34-44 | each day's change in living + emergency + discretionary is the sum of the applied bills' amounts |
| Simulation.RecordNextDay | main.py:26-47 | one more settled day keeps every loop invariant and ends on or before the end date |
| Simulation.RecordDay | main.py:26-47 | one pass of the outer loop appends the next day, keeps the earlier entries, and keeps every loop invariant |
| Simulation.WalkDays | main.py:21-47 | the outer loop starts from `start - 1 day` with zero balances, keeps every loop invariant, and stops at a last day not before the end, which it never passes once it has stepped |
| Simulation.Simulate | main.py:21-47 | series of equal length starting at `start - 1 day` with zero balances; days consecutive; the last day not before the end, and equal to it when the seed is before the end; each day the previous one with that day's bills applied; toggled categories never negative; `present_balance` the present day's closing total, or 0 if it was not walked; all zero with no bills |

## Left out

- File reading and comment filtering (main.py:14-15) are I/O. The model starts from the list of bills, or from one line already split at its commas.
- The printed irrelevance notice (main.py:19) is I/O; only its filter is modelled (`Simulation.StaleProjections`).
- Plotting, shading and tick formatting (main.py:49-106) are presentation only.
- `running_average` (main.py:9-11) is unused numpy floating point.
- `float()`, `int()`, `strptime`, `str.strip` and `str.split` inside `from_csv` are library calls. They are the fields of a `BillCsv.Lexer` record of total functions, with `None` where the call raises.
- IEEE floating point: amounts are exact reals, so rounding in the sums and products is not modelled.
- `date.today()` (bill.py:77) and the settings.py constants are parameters.
- Python's date range (years 1..9999), and the OverflowError of `timedelta` arithmetic beyond it, are not modelled. Dates are unbounded.
- BillCsv.FromCsv: an `until` or `occurs` rule without its argument raises an uncaught IndexError in the source rather than the ValueError of the other rule errors. Both are modelled as the error value `MissingArgument`. The error messages, including the one that calls a bad `every` unit an invalid "number", are not modelled.
- Bills.NewBill: `every` arrives already split and converted, as the pair `Every(count, unit)`. The constructor's own `every.split()` unpacking and `int(period_number)` (bill.py:38-39), which raise ValueError on a malformed string, are not modelled; `from_csv` only ever passes them a well-formed string.
- BillCsv.FromCsv: the `every` rule joins its two words and the constructor splits them again. The model passes the parsed pair `Every(count, unit)` directly, which is the same for the single-word tokens `split()` produces.
- Bills.NewBill: `at_most` is a float (1e9) by default in the source and an int otherwise. The model uses the integer 1_000_000_000, which compares with a length the same way.
