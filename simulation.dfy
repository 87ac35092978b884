/**
 * The daily balance simulation of main.py: starting the day before the
 * simulation starts with three empty balances, walk one day at a time to the
 * end, applying each bill that falls due, in list order, and moving any
 * negative living or emergency balance into discretionary after each bill.
 * Before the walk, main.py names the projected bills whose dates are all past.
 */
module Simulation {
  import opened Calendar
  import opened Bills

  /** The constants of settings.py that the loop reads. */
  datatype Settings = Settings(
    start: Date,
    end: Date,
    present: Date,
    livingDepletesDiscretionary: bool,
    emergencyDepletesDiscretionary: bool)

  datatype Balances = Balances(living: real, emergency: real, discretionary: real)

  function Total(b: Balances): real {
    b.living + b.emergency + b.discretionary
  }

  const Zero: Balances := Balances(0.0, 0.0, 0.0)

  /** The names of the projected bills whose dates are all past, in list order (the notices printed before the walk). */
  function StaleProjections(bills: seq<Bill>, today: Date): (names: seq<string>)
    requires forall b :: b in bills ==> |b.dates| > 0
    ensures |names| <= |bills|
    ensures forall n :: n in names <==>
      exists b :: b in bills && b.name == n && Irrelevant(b, today) && !b.actual
  {
    if |bills| == 0 then []
    else
      var b := bills[0];
      assert forall c :: c in bills <==> c == b || c in bills[1..];
      (if Irrelevant(b, today) && !b.actual then [b.name] else []) + StaleProjections(bills[1..], today)
  }

  /** What one application of a bill adds to the total. */
  function Amount(b: Bill): real {
    b.living + b.emergency + b.discretionary
  }

  /** A bill is applied on a day when it falls due then and is actual or the day is not before the present. */
  predicate Applies(b: Bill, day: Date, present: Date)
    ensures Applies(b, day, present) && WellFormed(b) && !b.actual ==> !Irrelevant(b, present)
  {
    OccursOn(b, day) && (b.actual || !Before(day, present))
  }

  /** The two depletion cascades, run after each applied bill. */
  function Cascade(bal: Balances, cfg: Settings): (r: Balances)
    ensures Total(r) == Total(bal)
    ensures cfg.livingDepletesDiscretionary ==> r.living >= 0.0
    ensures cfg.emergencyDepletesDiscretionary ==> r.emergency >= 0.0
    ensures !(cfg.livingDepletesDiscretionary && bal.living < 0.0) ==> r.living == bal.living
    ensures !(cfg.emergencyDepletesDiscretionary && bal.emergency < 0.0) ==> r.emergency == bal.emergency
    ensures cfg.livingDepletesDiscretionary && bal.living < 0.0 ==> r.living == 0.0
    ensures cfg.emergencyDepletesDiscretionary && bal.emergency < 0.0 ==> r.emergency == 0.0
    ensures r.discretionary <= bal.discretionary
  {
    var afterLiving :=
      if cfg.livingDepletesDiscretionary && bal.living < 0.0
      then Balances(0.0, bal.emergency, bal.discretionary + bal.living)
      else bal;
    if cfg.emergencyDepletesDiscretionary && afterLiving.emergency < 0.0
    then Balances(afterLiving.living, 0.0, afterLiving.discretionary + afterLiving.emergency)
    else afterLiving
  }

  /** One bill on one day: its three amounts and then the cascades, if it applies. */
  function ApplyBill(bal: Balances, b: Bill, day: Date, cfg: Settings): (r: Balances)
    ensures Total(r) == Total(bal) + (if Applies(b, day, cfg.present) then Amount(b) else 0.0)
    ensures !Applies(b, day, cfg.present) ==> r == bal
    ensures Applies(b, day, cfg.present) ==>
      r.living == (if cfg.livingDepletesDiscretionary && bal.living + b.living < 0.0
                   then 0.0 else bal.living + b.living)
    ensures Applies(b, day, cfg.present) ==>
      r.emergency == (if cfg.emergencyDepletesDiscretionary && bal.emergency + b.emergency < 0.0
                      then 0.0 else bal.emergency + b.emergency)
    ensures cfg.livingDepletesDiscretionary && bal.living >= 0.0 ==> r.living >= 0.0
    ensures cfg.emergencyDepletesDiscretionary && bal.emergency >= 0.0 ==> r.emergency >= 0.0
  {
    if Applies(b, day, cfg.present)
    then Cascade(Balances(bal.living + b.living, bal.emergency + b.emergency,
                          bal.discretionary + b.discretionary), cfg)
    else bal
  }

  /** The sum of the amounts of the bills that apply on a day. */
  function AppliedSum(bills: seq<Bill>, day: Date, present: Date): real
    decreases |bills|
  {
    if |bills| == 0 then 0.0
    else
      var last := bills[|bills| - 1];
      AppliedSum(bills[..|bills| - 1], day, present) + (if Applies(last, day, present) then Amount(last) else 0.0)
  }

  /** No bill applies on the day. */
  predicate QuietDay(bills: seq<Bill>, day: Date, present: Date) {
    forall b :: b in bills ==> !Applies(b, day, present)
  }

  /**
   * All bills on one day, in list order.  The cascades conserve the total,
   * keep the toggled categories non-negative, and a quiet day changes nothing.
   */
  function ApplyBills(bal: Balances, bills: seq<Bill>, day: Date, cfg: Settings): (r: Balances)
    ensures Total(r) == Total(bal) + AppliedSum(bills, day, cfg.present)
    ensures cfg.livingDepletesDiscretionary && bal.living >= 0.0 ==> r.living >= 0.0
    ensures cfg.emergencyDepletesDiscretionary && bal.emergency >= 0.0 ==> r.emergency >= 0.0
    ensures QuietDay(bills, day, cfg.present) ==> r == bal
    decreases |bills|
  {
    if |bills| == 0 then bal
    else
      var front := bills[..|bills| - 1];
      assert forall b :: b in front ==> b in bills;
      ApplyBill(ApplyBills(bal, front, day, cfg), bills[|bills| - 1], day, cfg)
  }

  /** A projected bill whose dates are all before the present never changes a balance. */
  lemma PastProjectionIsInert(b: Bill, cfg: Settings, bal: Balances, day: Date)
    requires !b.actual && forall d :: d in b.dates ==> Before(d, cfg.present)
    ensures ApplyBill(bal, b, day, cfg) == bal
  {
  }

  /** Dropping a projected bill whose dates are all past leaves every day's result unchanged, wherever it sits in the list. */
  lemma {:induction false} InertBillCanBeDropped(bal: Balances, bills: seq<Bill>, k: nat, day: Date, cfg: Settings)
    requires k < |bills|
    requires !bills[k].actual && forall d :: d in bills[k].dates ==> Before(d, cfg.present)
    ensures ApplyBills(bal, bills, day, cfg) == ApplyBills(bal, bills[..k] + bills[k + 1..], day, cfg)
    decreases |bills|
  {
    var front := bills[..|bills| - 1];
    var kept := bills[..k] + bills[k + 1..];
    if k == |bills| - 1 {
      assert kept == front;
      PastProjectionIsInert(bills[k], cfg, ApplyBills(bal, front, day, cfg), day);
    } else {
      InertBillCanBeDropped(bal, front, k, day, cfg);
      DropBeforeLast(bills, k);
    }
  }

  /** Dropping an element before the last commutes with dropping the last. */
  lemma DropBeforeLast(bills: seq<Bill>, k: nat)
    requires k < |bills| - 1
    ensures var front := bills[..|bills| - 1]; var kept := bills[..k] + bills[k + 1..];
      |kept| >= 1 && front[..k] + front[k + 1..] == kept[..|kept| - 1] && kept[|kept| - 1] == bills[|bills| - 1]
  {
    var front := bills[..|bills| - 1];
    var kept := bills[..k] + bills[k + 1..];
    assert front[..k] + front[k + 1..] == kept[..|kept| - 1];
  }

  /** The balances recorded at index i of the three series. */
  function BalancesAt(living: seq<real>, emergency: seq<real>, discretionary: seq<real>, i: nat): Balances
    requires i < |living| && i < |emergency| && i < |discretionary|
  {
    Balances(living[i], emergency[i], discretionary[i])
  }

  /**
   * One pass of the inner loop of main.py: the bill's amounts and the
   * cascades applied in place to entry n of the three series.
   */
  method SettleBill(bill: Bill, day: Date, cfg: Settings,
                    living0: seq<real>, emergency0: seq<real>, discretionary0: seq<real>, n: nat)
    returns (living: seq<real>, emergency: seq<real>, discretionary: seq<real>)
    requires n < |living0| && |emergency0| == |living0| && |discretionary0| == |living0|
    ensures
      var r := ApplyBill(BalancesAt(living0, emergency0, discretionary0, n), bill, day, cfg);
      living == living0[n := r.living] && emergency == emergency0[n := r.emergency] &&
      discretionary == discretionary0[n := r.discretionary]
  {
    living, emergency, discretionary := living0, emergency0, discretionary0;
    if OccursOn(bill, day) {
      if bill.actual || !Before(day, cfg.present) {
        living := living[n := living[n] + bill.living];
        emergency := emergency[n := emergency[n] + bill.emergency];
        discretionary := discretionary[n := discretionary[n] + bill.discretionary];
        if cfg.livingDepletesDiscretionary && living[n] < 0.0 {
          discretionary := discretionary[n := discretionary[n] + living[n]];
          living := living[n := 0.0];
        }
        if cfg.emergencyDepletesDiscretionary && emergency[n] < 0.0 {
          discretionary := discretionary[n := discretionary[n] + emergency[n]];
          emergency := emergency[n := 0.0];
        }
      }
    }
  }

  /**
   * The inner loop of main.py for one day: the last entry of each series,
   * already a copy of the previous day's, receives every bill in list order;
   * the present balance is recomputed after each bill when the day is the
   * present.
   */
  method SettleDay(bills: seq<Bill>, day: Date, cfg: Settings,
                   living0: seq<real>, emergency0: seq<real>, discretionary0: seq<real>, present0: real)
    returns (living: seq<real>, emergency: seq<real>, discretionary: seq<real>, presentBalance: real)
    requires |living0| >= 1 && |emergency0| == |living0| && |discretionary0| == |living0|
    ensures |living| == |living0| && |emergency| == |living0| && |discretionary| == |living0|
    ensures living[..|living0| - 1] == living0[..|living0| - 1]
    ensures emergency[..|living0| - 1] == emergency0[..|living0| - 1]
    ensures discretionary[..|living0| - 1] == discretionary0[..|living0| - 1]
    ensures BalancesAt(living, emergency, discretionary, |living0| - 1) ==
      ApplyBills(BalancesAt(living0, emergency0, discretionary0, |living0| - 1), bills, day, cfg)
    ensures day == cfg.present && |bills| > 0 ==>
      presentBalance == Total(BalancesAt(living, emergency, discretionary, |living0| - 1))
    ensures day != cfg.present || |bills| == 0 ==> presentBalance == present0
  {
    living, emergency, discretionary, presentBalance := living0, emergency0, discretionary0, present0;
    var n := |living0| - 1;
    ghost var opening := BalancesAt(living0, emergency0, discretionary0, n);
    for j := 0 to |bills|
      invariant |living| == n + 1 && |emergency| == n + 1 && |discretionary| == n + 1
      invariant living[..n] == living0[..n] && emergency[..n] == emergency0[..n]
      invariant discretionary[..n] == discretionary0[..n]
      invariant BalancesAt(living, emergency, discretionary, n) == ApplyBills(opening, bills[..j], day, cfg)
      invariant day == cfg.present && j > 0 ==>
        presentBalance == Total(BalancesAt(living, emergency, discretionary, n))
      invariant day != cfg.present || j == 0 ==> presentBalance == present0
    {
      assert bills[..j + 1][..j] == bills[..j];
      living, emergency, discretionary := SettleBill(bills[j], day, cfg, living, emergency, discretionary, n);
      if day == cfg.present {
        presentBalance := discretionary[n] + emergency[n] + living[n];
      }
    }
    assert bills[..|bills|] == bills;
  }

  /** Each recorded day is the one after its predecessor. */
  predicate Consecutive(time: seq<Date>) {
    forall i :: 1 <= i < |time| ==> time[i] == NextDay(time[i - 1])
  }

  /** The three series have one entry per recorded day. */
  predicate Aligned(time: seq<Date>, living: seq<real>, emergency: seq<real>, discretionary: seq<real>) {
    |time| >= 1 && |living| == |time| && |emergency| == |time| && |discretionary| == |time|
  }

  /** Each day's balances are the previous day's with that day's bills applied. */
  predicate Settled(time: seq<Date>, living: seq<real>, emergency: seq<real>, discretionary: seq<real>,
                    bills: seq<Bill>, cfg: Settings)
    requires Aligned(time, living, emergency, discretionary)
  {
    forall i :: 1 <= i < |time| ==>
      BalancesAt(living, emergency, discretionary, i) ==
      ApplyBills(BalancesAt(living, emergency, discretionary, i - 1), bills, time[i], cfg)
  }

  /** The categories whose depletion toggle is on never go negative. */
  predicate Covered(living: seq<real>, emergency: seq<real>, cfg: Settings) {
    (cfg.livingDepletesDiscretionary ==> forall i :: 0 <= i < |living| ==> living[i] >= 0.0) &&
    (cfg.emergencyDepletesDiscretionary ==> forall i :: 0 <= i < |emergency| ==> emergency[i] >= 0.0)
  }

  /** The present balance is the total on the present day, or 0 when that day has not been recorded. */
  predicate PresentRecorded(time: seq<Date>, living: seq<real>, emergency: seq<real>, discretionary: seq<real>,
                            cfg: Settings, presentBalance: real)
    requires Aligned(time, living, emergency, discretionary)
  {
    (forall i :: 0 <= i < |time| && time[i] == cfg.present ==>
      presentBalance == Total(BalancesAt(living, emergency, discretionary, i))) &&
    (cfg.present !in time ==> presentBalance == 0.0)
  }

  /** Every recorded balance is zero. */
  predicate AllZero(living: seq<real>, emergency: seq<real>, discretionary: seq<real>)
    requires |living| == |emergency| == |discretionary|
  {
    forall i :: 0 <= i < |living| ==> BalancesAt(living, emergency, discretionary, i) == Zero
  }

  /** Appending the next day keeps the days consecutive and increasing, without passing the end. */
  lemma {:induction false} WalkOneDay(time: seq<Date>, end: Date)
    requires |time| >= 1 && Consecutive(time) && Before(time[|time| - 1], end)
    requires forall i :: 0 <= i < |time| - 1 ==> Rank(time[i]) < Rank(time[|time| - 1])
    ensures var next := time + [NextDay(time[|time| - 1])];
      Consecutive(next) && NotAfter(next[|next| - 1], end) &&
      forall i :: 0 <= i < |next| - 1 ==> Rank(next[i]) < Rank(next[|next| - 1])
  {
    var last := time[|time| - 1];
    var next := time + [NextDay(last)];
    NextDayIsSuccessor(last, end);
    BeforeIsRankOrder(last, NextDay(last));
    assert forall i :: 0 <= i < |time| ==> next[i] == time[i];
  }

  /** Series whose first n entries are kept agree with the old ones index by index. */
  lemma PrefixKept(living: seq<real>, emergency: seq<real>, discretionary: seq<real>,
                   living1: seq<real>, emergency1: seq<real>, discretionary1: seq<real>, n: nat)
    requires |living1| == n + 1 && |emergency1| == n + 1 && |discretionary1| == n + 1
    requires living1[..n] == living && emergency1[..n] == emergency && discretionary1[..n] == discretionary
    ensures |living| == n && |emergency| == n && |discretionary| == n
    ensures forall i :: 0 <= i < n ==>
      living1[i] == living[i] && emergency1[i] == emergency[i] && discretionary1[i] == discretionary[i]
  {
    forall i | 0 <= i < n
      ensures living1[i] == living[i] && emergency1[i] == emergency[i] && discretionary1[i] == discretionary[i]
    {
      assert living1[..n][i] == living1[i] && emergency1[..n][i] == emergency1[i];
      assert discretionary1[..n][i] == discretionary1[i];
    }
  }

  /** Appending a day whose balances settle the previous day's keeps the series settled. */
  lemma {:induction false} SettledExtends(
    time: seq<Date>, living: seq<real>, emergency: seq<real>, discretionary: seq<real>,
    day: Date, living1: seq<real>, emergency1: seq<real>, discretionary1: seq<real>,
    bills: seq<Bill>, cfg: Settings)
    requires Aligned(time, living, emergency, discretionary)
    requires Settled(time, living, emergency, discretionary, bills, cfg)
    requires var n := |time|;
      |living1| == n + 1 && |emergency1| == n + 1 && |discretionary1| == n + 1 &&
      (forall i :: 0 <= i < n ==>
        living1[i] == living[i] && emergency1[i] == emergency[i] && discretionary1[i] == discretionary[i]) &&
      BalancesAt(living1, emergency1, discretionary1, n) ==
      ApplyBills(BalancesAt(living, emergency, discretionary, n - 1), bills, day, cfg)
    ensures Aligned(time + [day], living1, emergency1, discretionary1)
    ensures Settled(time + [day], living1, emergency1, discretionary1, bills, cfg)
  {
    var n := |time|;
    var time1 := time + [day];
    forall i | 1 <= i < n + 1
      ensures BalancesAt(living1, emergency1, discretionary1, i) ==
        ApplyBills(BalancesAt(living1, emergency1, discretionary1, i - 1), bills, time1[i], cfg)
    {
      assert BalancesAt(living1, emergency1, discretionary1, i - 1) == BalancesAt(living, emergency, discretionary, i - 1);
      if i < n {
        assert time1[i] == time[i];
        assert BalancesAt(living1, emergency1, discretionary1, i) == BalancesAt(living, emergency, discretionary, i);
      }
    }
  }

  /** Appending non-negative toggled entries keeps the toggled categories covered. */
  lemma CoveredExtends(living: seq<real>, emergency: seq<real>, living1: seq<real>, emergency1: seq<real>,
                       cfg: Settings)
    requires Covered(living, emergency, cfg)
    requires |living1| == |living| + 1 && |emergency1| == |emergency| + 1
    requires forall i :: 0 <= i < |living| ==> living1[i] == living[i]
    requires forall i :: 0 <= i < |emergency| ==> emergency1[i] == emergency[i]
    requires cfg.livingDepletesDiscretionary ==> living1[|living|] >= 0.0
    requires cfg.emergencyDepletesDiscretionary ==> emergency1[|emergency|] >= 0.0
    ensures Covered(living1, emergency1, cfg)
  {
  }

  /**
   * Appending a settled day to settled series keeps them settled, keeps the
   * toggled categories non-negative and, with no bills, keeps them zero.
   */
  lemma {:induction false} RecordOneDay(
    time: seq<Date>, living: seq<real>, emergency: seq<real>, discretionary: seq<real>,
    day: Date, living1: seq<real>, emergency1: seq<real>, discretionary1: seq<real>,
    bills: seq<Bill>, cfg: Settings)
    requires Aligned(time, living, emergency, discretionary)
    requires Settled(time, living, emergency, discretionary, bills, cfg)
    requires Covered(living, emergency, cfg)
    requires |bills| == 0 ==> AllZero(living, emergency, discretionary)
    requires var n := |time|;
      |living1| == n + 1 && |emergency1| == n + 1 && |discretionary1| == n + 1 &&
      living1[..n] == living && emergency1[..n] == emergency && discretionary1[..n] == discretionary &&
      BalancesAt(living1, emergency1, discretionary1, n) ==
      ApplyBills(BalancesAt(living, emergency, discretionary, n - 1), bills, day, cfg)
    ensures Aligned(time + [day], living1, emergency1, discretionary1)
    ensures Settled(time + [day], living1, emergency1, discretionary1, bills, cfg)
    ensures Covered(living1, emergency1, cfg)
    ensures |bills| == 0 ==> AllZero(living1, emergency1, discretionary1)
  {
    var n := |time|;
    PrefixKept(living, emergency, discretionary, living1, emergency1, discretionary1, n);
    SettledExtends(time, living, emergency, discretionary, day, living1, emergency1, discretionary1, bills, cfg);
    var opening := BalancesAt(living, emergency, discretionary, n - 1);
    var closing := BalancesAt(living1, emergency1, discretionary1, n);
    assert cfg.livingDepletesDiscretionary ==> opening.living >= 0.0 && closing.living >= 0.0;
    assert cfg.emergencyDepletesDiscretionary ==> opening.emergency >= 0.0 && closing.emergency >= 0.0;
    CoveredExtends(living, emergency, living1, emergency1, cfg);
    if |bills| == 0 {
      assert QuietDay(bills, day, cfg.present);
      NoBillsStayZero(living, emergency, discretionary, living1, emergency1, discretionary1, n);
    }
  }

  /** Appending a copy of the last all-zero entry keeps the series all zero. */
  lemma NoBillsStayZero(living: seq<real>, emergency: seq<real>, discretionary: seq<real>,
                        living1: seq<real>, emergency1: seq<real>, discretionary1: seq<real>, n: nat)
    requires 0 < n == |living| == |emergency| == |discretionary|
    requires |living1| == n + 1 && |emergency1| == n + 1 && |discretionary1| == n + 1
    requires forall i :: 0 <= i < n ==>
      living1[i] == living[i] && emergency1[i] == emergency[i] && discretionary1[i] == discretionary[i]
    requires AllZero(living, emergency, discretionary)
    requires BalancesAt(living1, emergency1, discretionary1, n) == BalancesAt(living, emergency, discretionary, n - 1)
    ensures AllZero(living1, emergency1, discretionary1)
  {
    forall i | 0 <= i < n + 1
      ensures BalancesAt(living1, emergency1, discretionary1, i) == Zero
    {
      if i < n {
        assert BalancesAt(living1, emergency1, discretionary1, i) == BalancesAt(living, emergency, discretionary, i);
      }
    }
  }

  /** The present balance stays right when a day later than every recorded one is appended. */
  lemma {:induction false} RecordPresent(
    time: seq<Date>, living: seq<real>, emergency: seq<real>, discretionary: seq<real>, present0: real,
    day: Date, living1: seq<real>, emergency1: seq<real>, discretionary1: seq<real>, present1: real,
    bills: seq<Bill>, cfg: Settings)
    requires Aligned(time, living, emergency, discretionary)
    requires PresentRecorded(time, living, emergency, discretionary, cfg, present0)
    requires forall i :: 0 <= i < |time| ==> Rank(time[i]) < Rank(day)
    requires var n := |time|;
      |living1| == n + 1 && |emergency1| == n + 1 && |discretionary1| == n + 1 &&
      (|bills| == 0 ==> AllZero(living1, emergency1, discretionary1)) &&
      living1[..n] == living && emergency1[..n] == emergency && discretionary1[..n] == discretionary &&
      (day == cfg.present && |bills| > 0 ==> present1 == Total(BalancesAt(living1, emergency1, discretionary1, n))) &&
      (day != cfg.present || |bills| == 0 ==> present1 == present0)
    ensures Aligned(time + [day], living1, emergency1, discretionary1)
    ensures PresentRecorded(time + [day], living1, emergency1, discretionary1, cfg, present1)
  {
    var n := |time|;
    var time1 := time + [day];
    forall i | 0 <= i < n
      ensures BalancesAt(living1, emergency1, discretionary1, i) == BalancesAt(living, emergency, discretionary, i)
      ensures time1[i] == time[i]
    {
      assert living1[..n][i] == living1[i] && emergency1[..n][i] == emergency1[i];
      assert discretionary1[..n][i] == discretionary1[i];
    }
    if day == cfg.present {
      assert cfg.present !in time by {
        assert forall i :: 0 <= i < n ==> time[i] != cfg.present;
      }
    }
  }

  /** On settled series, a day on which no bill applies repeats the previous day's balances. */
  lemma QuietDayRepeatsBalances(time: seq<Date>, living: seq<real>, emergency: seq<real>,
                                discretionary: seq<real>, bills: seq<Bill>, cfg: Settings, i: nat)
    requires Aligned(time, living, emergency, discretionary)
    requires Settled(time, living, emergency, discretionary, bills, cfg)
    requires 1 <= i < |time| && QuietDay(bills, time[i], cfg.present)
    ensures BalancesAt(living, emergency, discretionary, i) == BalancesAt(living, emergency, discretionary, i - 1)
  {
  }

  /** On settled series, each day's change in the total is the sum of the amounts of that day's applied bills. */
  lemma DayChangeIsAppliedSum(time: seq<Date>, living: seq<real>, emergency: seq<real>,
                              discretionary: seq<real>, bills: seq<Bill>, cfg: Settings, i: nat)
    requires Aligned(time, living, emergency, discretionary)
    requires Settled(time, living, emergency, discretionary, bills, cfg)
    requires 1 <= i < |time|
    ensures living[i] + emergency[i] + discretionary[i] ==
      living[i - 1] + emergency[i - 1] + discretionary[i - 1] + AppliedSum(bills, time[i], cfg.present)
  {
    var opening := BalancesAt(living, emergency, discretionary, i - 1);
    assert BalancesAt(living, emergency, discretionary, i) == ApplyBills(opening, bills, time[i], cfg);
  }

  /** Everything the simulation loop keeps true of the days recorded so far. */
  predicate Recorded(time: seq<Date>, living: seq<real>, emergency: seq<real>, discretionary: seq<real>,
                     presentBalance: real, bills: seq<Bill>, cfg: Settings)
  {
    Aligned(time, living, emergency, discretionary) &&
    Consecutive(time) &&
    (forall i :: 0 <= i < |time| - 1 ==> Rank(time[i]) < Rank(time[|time| - 1])) &&
    Settled(time, living, emergency, discretionary, bills, cfg) &&
    Covered(living, emergency, cfg) &&
    PresentRecorded(time, living, emergency, discretionary, cfg, presentBalance) &&
    (|bills| == 0 ==> AllZero(living, emergency, discretionary))
  }

  /** Recording the day after the last one, settled as SettleDay settles it, keeps Recorded. */
  lemma {:induction false} RecordNextDay(
    time: seq<Date>, living: seq<real>, emergency: seq<real>, discretionary: seq<real>, present0: real,
    living1: seq<real>, emergency1: seq<real>, discretionary1: seq<real>, present1: real,
    bills: seq<Bill>, cfg: Settings)
    requires Recorded(time, living, emergency, discretionary, present0, bills, cfg)
    requires Before(time[|time| - 1], cfg.end)
    requires var n := |time|; var day := NextDay(time[n - 1]);
      |living1| == n + 1 && |emergency1| == n + 1 && |discretionary1| == n + 1 &&
      living1[..n] == living && emergency1[..n] == emergency && discretionary1[..n] == discretionary &&
      BalancesAt(living1, emergency1, discretionary1, n) ==
      ApplyBills(BalancesAt(living, emergency, discretionary, n - 1), bills, day, cfg) &&
      (day == cfg.present && |bills| > 0 ==> present1 == Total(BalancesAt(living1, emergency1, discretionary1, n))) &&
      (day != cfg.present || |bills| == 0 ==> present1 == present0)
    ensures var next := time + [NextDay(time[|time| - 1])];
      Recorded(next, living1, emergency1, discretionary1, present1, bills, cfg) &&
      NotAfter(next[|next| - 1], cfg.end)
  {
    var n := |time|;
    var day := NextDay(time[n - 1]);
    WalkOneDay(time, cfg.end);
    BeforeIsRankOrder(time[n - 1], day);
    RecordOneDay(time, living, emergency, discretionary, day, living1, emergency1, discretionary1, bills, cfg);
    assert forall i :: 0 <= i < n ==> Rank(time[i]) < Rank(day);
    RecordPresent(time, living, emergency, discretionary, present0, day,
                  living1, emergency1, discretionary1, present1, bills, cfg);
  }

  /**
   * One pass of the outer loop of main.py: append the next day, carrying the
   * last balances over, and settle that day's bills on it.
   */
  method RecordDay(bills: seq<Bill>, cfg: Settings, time0: seq<Date>, living0: seq<real>,
                   emergency0: seq<real>, discretionary0: seq<real>, present0: real)
    returns (time: seq<Date>, living: seq<real>, emergency: seq<real>, discretionary: seq<real>,
             presentBalance: real)
    requires Recorded(time0, living0, emergency0, discretionary0, present0, bills, cfg)
    requires Before(time0[|time0| - 1], cfg.end)
    ensures time == time0 + [NextDay(time0[|time0| - 1])]
    ensures Recorded(time, living, emergency, discretionary, presentBalance, bills, cfg)
    ensures living[..|time0|] == living0 && emergency[..|time0|] == emergency0
    ensures discretionary[..|time0|] == discretionary0
    ensures NotAfter(time[|time| - 1], cfg.end)
  {
    var n := |time0|;
    var day := NextDay(time0[n - 1]);
    living := living0 + [living0[n - 1]];
    emergency := emergency0 + [emergency0[n - 1]];
    discretionary := discretionary0 + [discretionary0[n - 1]];
    assert living[..n] == living0 && emergency[..n] == emergency0;
    assert discretionary[..n] == discretionary0;
    living, emergency, discretionary, presentBalance :=
      SettleDay(bills, day, cfg, living, emergency, discretionary, present0);
    RecordNextDay(time0, living0, emergency0, discretionary0, present0,
                  living, emergency, discretionary, presentBalance, bills, cfg);
    time := time0 + [day];
  }

  /** The day loop of main.py: record days until the last one reaches the end. */
  method WalkDays(bills: seq<Bill>, cfg: Settings)
    returns (time: seq<Date>, living: seq<real>, emergency: seq<real>, discretionary: seq<real>,
             presentBalance: real)
    ensures Recorded(time, living, emergency, discretionary, presentBalance, bills, cfg)
    ensures time[0] == PrevDay(cfg.start)
    ensures BalancesAt(living, emergency, discretionary, 0) == Zero
    ensures !Before(time[|time| - 1], cfg.end)
    ensures |time| > 1 ==> NotAfter(time[|time| - 1], cfg.end)
  {
    living := [0.0];
    emergency := [0.0];
    discretionary := [0.0];
    time := [PrevDay(cfg.start)];
    presentBalance := 0.0;
    while Before(time[|time| - 1], cfg.end)
      invariant Recorded(time, living, emergency, discretionary, presentBalance, bills, cfg)
      invariant time[0] == PrevDay(cfg.start)
      invariant BalancesAt(living, emergency, discretionary, 0) == Zero
      invariant |time| > 1 ==> NotAfter(time[|time| - 1], cfg.end)
      decreases Rank(cfg.end) - Rank(time[|time| - 1])
    {
      BeforeIsRankOrder(time[|time| - 1], cfg.end);
      ghost var before := time;
      time, living, emergency, discretionary, presentBalance :=
        RecordDay(bills, cfg, time, living, emergency, discretionary, presentBalance);
      BeforeIsRankOrder(before[|before| - 1], time[|time| - 1]);
    }
  }

  /** The simulation of main.py with the settings as parameters. */
  method Simulate(bills: seq<Bill>, cfg: Settings)
    returns (time: seq<Date>, living: seq<real>, emergency: seq<real>, discretionary: seq<real>,
             presentBalance: real)
    ensures Aligned(time, living, emergency, discretionary)
    ensures time[0] == PrevDay(cfg.start)
    ensures BalancesAt(living, emergency, discretionary, 0) == Zero
    ensures Consecutive(time)
    ensures !Before(time[|time| - 1], cfg.end)
    ensures Before(time[0], cfg.end) ==> time[|time| - 1] == cfg.end
    ensures !Before(time[0], cfg.end) ==> |time| == 1
    ensures Settled(time, living, emergency, discretionary, bills, cfg)
    ensures Covered(living, emergency, cfg)
    ensures PresentRecorded(time, living, emergency, discretionary, cfg, presentBalance)
    ensures |bills| == 0 ==> AllZero(living, emergency, discretionary)
  {
    time, living, emergency, discretionary, presentBalance := WalkDays(bills, cfg);
    var last := time[|time| - 1];
    BeforeIsRankOrder(last, cfg.end);
    BeforeIsRankOrder(cfg.end, last);
    BeforeIsRankOrder(time[0], cfg.end);
  }
}
