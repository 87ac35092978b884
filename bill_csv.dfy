/**
 * `Bill.from_csv` in bill.py: reading one line of the bills file.  The line
 * arrives split at its commas; stripping, splitting a rule into words and
 * parsing numbers and dates are library calls, taken here as given functions.
 */
module BillCsv {
  import opened Outcomes
  import opened Calendar
  import opened Bills

  /** The library calls the reader relies on. */
  datatype Lexer = Lexer(
    strip: string -> string,         // str.strip()
    words: string -> seq<string>,    // str.strip().split()
    toReal: string -> Option<real>,  // float(...), None where it raises
    toInt: string -> Option<int>,    // int(...), None where it raises
    toDate: string -> Option<Date>)  // strptime(..., "%Y-%m-%d").date(), None where it raises

  /** The locals bill_every, bill_until, bill_repeat, bill_distribution and bill_actual. */
  datatype RuleState = RuleState(
    every: Option<Every>,
    until: Option<Date>,
    repeat: int,
    dist: Distribution,
    actual: bool)

  /** Their values before the first rule; `projectedByDefault` is the setting PROJECTED_BY_DEFAULT. */
  function Defaults(projectedByDefault: bool): RuleState {
    RuleState(None, None, DefaultCap, DefaultDistribution, !projectedByDefault)
  }

  const PeriodUnits: seq<string> := ["month", "months", "day", "days"]

  /** `float(a) / 100` for each word, or None if one of them is not a number. */
  function ParsePercents(lex: Lexer, ws: seq<string>): (r: Option<seq<real>>)
    ensures r.Some? <==> forall i :: 0 <= i < |ws| ==> lex.toReal(ws[i]).Some?
    ensures r.Some? ==> (|r.value| == |ws| &&
      forall i :: 0 <= i < |ws| ==> r.value[i] == lex.toReal(ws[i]).value / 100.0)
  {
    if |ws| == 0 then Some([])
    else match (lex.toReal(ws[0]), ParsePercents(lex, ws[1..]))
      case (Some(x), Some(rest)) => Some([x / 100.0] + rest)
      case _ => None
  }

  /** One rule, already split into words, applied to the locals. */
  function ApplyRule(st: RuleState, lex: Lexer, ss: seq<string>): (r: Result<RuleState, BillError>)
    ensures r.Err? ==> r.error in {EmptyRule, MissingArgument, BadNumber, BadPeriodUnit, BadUntilDate, UnknownRule}
    ensures r.Ok? ==> FieldOf(ss).Some?
    ensures r.Ok? && r.value.every != st.every ==> r.value.every.Some? && r.value.every.value.unit in PeriodUnits
  {
    if |ss| == 0 then Err(EmptyRule)
    else if ss[0] == "every" then
      if |ss| < 3 then Err(MissingArgument)
      else if lex.toInt(ss[1]).None? then Err(BadNumber)
      else if ss[2] !in PeriodUnits then Err(BadPeriodUnit)
      else Ok(st.(every := Some(Every(lex.toInt(ss[1]).value, ss[2]))))
    else if ss[0] == "until" then
      if |ss| < 2 then Err(MissingArgument)
      else if lex.toDate(ss[1]).None? then Err(BadUntilDate)
      else Ok(st.(until := lex.toDate(ss[1])))
    else if ss[0] in ["occurs", "repeat", "repeats"] then
      if |ss| < 2 then Err(MissingArgument)
      else if lex.toInt(ss[1]).None? then Err(BadNumber)
      else Ok(st.(repeat := lex.toInt(ss[1]).value + (if HasSubstring(ss[0], "repeat") then 1 else 0)))
    else if ss[0] == "distribution" then
      var percents := ParsePercents(lex, ss[1..if |ss| < 4 then |ss| else 4]);
      if percents.None? then Err(BadNumber)
      else if |ss| < 4 then Err(MissingArgument)
      else Ok(st.(dist := Distribution(percents.value[0], percents.value[1], percents.value[2])))
    else if ss[0] == "actual" then Ok(st.(actual := true))
    else if ss[0] == "projected" then Ok(st.(actual := false))
    else Err(UnknownRule)
  }

  /** The rules in order; the first one that fails ends the reading. */
  function ApplyRules(st: RuleState, lex: Lexer, rules: seq<string>): (r: Result<RuleState, BillError>)
    ensures r.Err? ==> r.error in {EmptyRule, MissingArgument, BadNumber, BadPeriodUnit, BadUntilDate, UnknownRule}
    decreases |rules|
  {
    if |rules| == 0 then Ok(st)
    else match ApplyRule(st, lex, lex.words(rules[0]))
      case Err(e) => Err(e)
      case Ok(next) => ApplyRules(next, lex, rules[1..])
  }

  /** `Bill.from_csv` on a line already split at its commas. */
  function ParseBill(fields: seq<string>, lex: Lexer, projectedByDefault: bool): (r: Result<Bill, BillError>)
    ensures (r.Err? && r.error == TooFewFields) <==> |fields| < 3
    ensures r.Ok? ==> (
      && |fields| >= 3
      && lex.toReal(lex.strip(fields[1])).Some? && lex.toDate(lex.strip(fields[2])).Some?
      && r.value.name == lex.strip(fields[0])
      && r.value.total == lex.toReal(lex.strip(fields[1])).value
      && |r.value.dates| > 0 && r.value.dates[0] == lex.toDate(lex.strip(fields[2])).value)
    ensures |fields| >= 3 && lex.toReal(lex.strip(fields[1])).None? ==> r == Err(BadValue)
    ensures |fields| >= 3 && lex.toReal(lex.strip(fields[1])).Some? && lex.toDate(lex.strip(fields[2])).None? ==>
      r == Err(BadStartDate)
    ensures (|fields| >= 3 && lex.toReal(lex.strip(fields[1])).Some? && lex.toDate(lex.strip(fields[2])).Some? &&
             ApplyRules(Defaults(projectedByDefault), lex, fields[3..]).Err?) ==>
      r == Err(ApplyRules(Defaults(projectedByDefault), lex, fields[3..]).error)
    ensures (|fields| >= 3 && lex.toReal(lex.strip(fields[1])).Some? && lex.toDate(lex.strip(fields[2])).Some? &&
             ApplyRules(Defaults(projectedByDefault), lex, fields[3..]).Ok?) ==> (
      var st := ApplyRules(Defaults(projectedByDefault), lex, fields[3..]).value;
      r == Construct(lex.strip(fields[0]), lex.toReal(lex.strip(fields[1])).value,
                     lex.toDate(lex.strip(fields[2])).value, st.every, st.repeat, st.until, st.dist, st.actual))
    ensures r.Ok? ==> (
      && |fields| >= 3
      && lex.toReal(lex.strip(fields[1])).Some? && lex.toDate(lex.strip(fields[2])).Some?
      && ApplyRules(Defaults(projectedByDefault), lex, fields[3..]).Ok?
      && var st := ApplyRules(Defaults(projectedByDefault), lex, fields[3..]).value;
         r == Construct(lex.strip(fields[0]), lex.toReal(lex.strip(fields[1])).value,
                        lex.toDate(lex.strip(fields[2])).value, st.every, st.repeat, st.until, st.dist, st.actual))
  {
    if |fields| < 3 then Err(TooFewFields)
    else
      var value := lex.toReal(lex.strip(fields[1]));
      if value.None? then Err(BadValue)
      else
        var on := lex.toDate(lex.strip(fields[2]));
        if on.None? then Err(BadStartDate)
        else match ApplyRules(Defaults(projectedByDefault), lex, fields[3..])
          case Err(e) => Err(e)
          case Ok(st) =>
            Construct(lex.strip(fields[0]), value.value, on.value, st.every, st.repeat, st.until,
                      st.dist, st.actual)
  }

  /** Which local a rule sets. */
  datatype Field = EveryField | UntilField | RepeatField | DistributionField | ActualField

  function FieldOf(ss: seq<string>): Option<Field> {
    if |ss| == 0 then None
    else if ss[0] == "every" then Some(EveryField)
    else if ss[0] == "until" then Some(UntilField)
    else if ss[0] in ["occurs", "repeat", "repeats"] then Some(RepeatField)
    else if ss[0] == "distribution" then Some(DistributionField)
    else if ss[0] in ["actual", "projected"] then Some(ActualField)
    else None
  }

  predicate Agree(a: RuleState, b: RuleState, f: Field) {
    match f
    case EveryField => a.every == b.every
    case UntilField => a.until == b.until
    case RepeatField => a.repeat == b.repeat
    case DistributionField => a.dist == b.dist
    case ActualField => a.actual == b.actual
  }

  /**
   * A rule's verdict and the value it stores do not depend on the rules before
   * it, and it leaves every other local as it was.
   */
  lemma RuleIsLocal(s1: RuleState, s2: RuleState, lex: Lexer, ss: seq<string>)
    ensures ApplyRule(s1, lex, ss).Ok? <==> ApplyRule(s2, lex, ss).Ok?
    ensures ApplyRule(s1, lex, ss).Err? ==> ApplyRule(s1, lex, ss).error == ApplyRule(s2, lex, ss).error
    ensures ApplyRule(s1, lex, ss).Ok? ==> (FieldOf(ss).Some? &&
      Agree(ApplyRule(s1, lex, ss).value, ApplyRule(s2, lex, ss).value, FieldOf(ss).value))
    ensures ApplyRule(s1, lex, ss).Ok? ==>
      forall f :: FieldOf(ss) != Some(f) ==> Agree(ApplyRule(s1, lex, ss).value, s1, f)
  {
  }

  /** A local that no rule names keeps its default. */
  lemma {:induction false} UnnamedFieldKept(st: RuleState, lex: Lexer, rules: seq<string>, f: Field)
    requires ApplyRules(st, lex, rules).Ok?
    requires forall j :: 0 <= j < |rules| ==> FieldOf(lex.words(rules[j])) != Some(f)
    ensures Agree(ApplyRules(st, lex, rules).value, st, f)
    decreases |rules|
  {
    if |rules| > 0 {
      var next := ApplyRule(st, lex, lex.words(rules[0])).value;
      RuleIsLocal(st, st, lex, lex.words(rules[0]));
      assert forall j :: 0 <= j < |rules[1..]| ==> rules[1..][j] == rules[j + 1];
      UnnamedFieldKept(next, lex, rules[1..], f);
    }
  }

  /**
   * Later rules override earlier ones: a local ends with the value stored by
   * the last rule that names it, whatever came before that rule.
   */
  lemma {:induction false} LastRuleWins(st: RuleState, lex: Lexer, rules: seq<string>, k: nat, f: Field)
    requires ApplyRules(st, lex, rules).Ok?
    requires k < |rules| && FieldOf(lex.words(rules[k])) == Some(f)
    requires forall j :: k < j < |rules| ==> FieldOf(lex.words(rules[j])) != Some(f)
    ensures ApplyRule(st, lex, lex.words(rules[k])).Ok?
    ensures Agree(ApplyRules(st, lex, rules).value, ApplyRule(st, lex, lex.words(rules[k])).value, f)
    decreases |rules|
  {
    var next := ApplyRule(st, lex, lex.words(rules[0])).value;
    assert forall j :: 0 <= j < |rules[1..]| ==> rules[1..][j] == rules[j + 1];
    if k == 0 {
      UnnamedFieldKept(next, lex, rules[1..], f);
    } else {
      LastRuleWins(next, lex, rules[1..], k - 1, f);
      RuleIsLocal(next, st, lex, lex.words(rules[k]));
    }
  }

  /** A list of rules is accepted exactly when each rule is accepted on its own. */
  lemma {:induction false} RulesAcceptedIffEachIs(st: RuleState, lex: Lexer, rules: seq<string>)
    ensures ApplyRules(st, lex, rules).Ok? <==>
      forall k :: 0 <= k < |rules| ==> ApplyRule(st, lex, lex.words(rules[k])).Ok?
    decreases |rules|
  {
    if |rules| > 0 {
      var first := ApplyRule(st, lex, lex.words(rules[0]));
      if first.Ok? {
        RulesAcceptedIffEachIs(first.value, lex, rules[1..]);
        forall k | 1 <= k < |rules|
          ensures ApplyRule(st, lex, lex.words(rules[k])).Ok? <==>
                  ApplyRule(first.value, lex, lex.words(rules[1..][k - 1])).Ok?
        {
          assert rules[1..][k - 1] == rules[k];
          RuleIsLocal(st, first.value, lex, lex.words(rules[k]));
        }
      }
    }
  }

  /** A rule whose first word is no known rule is rejected. */
  lemma UnknownRuleRejected(st: RuleState, lex: Lexer, ss: seq<string>)
    requires |ss| > 0 && ss[0] !in ["every", "until", "occurs", "repeat", "repeats", "distribution", "actual", "projected"]
    ensures ApplyRule(st, lex, ss) == Err(UnknownRule)
    ensures FieldOf(ss).None?
  {
  }

  /**
   * `every N unit` stores the pair (N, unit); it needs both words, a number N
   * and one of the four unit words.
   */
  lemma EveryStoresPeriod(st: RuleState, lex: Lexer, ss: seq<string>)
    requires |ss| > 0 && ss[0] == "every"
    ensures |ss| < 3 ==> ApplyRule(st, lex, ss) == Err(MissingArgument)
    ensures |ss| >= 3 && lex.toInt(ss[1]).None? ==> ApplyRule(st, lex, ss) == Err(BadNumber)
    ensures |ss| >= 3 && lex.toInt(ss[1]).Some? && ss[2] !in PeriodUnits ==>
      ApplyRule(st, lex, ss) == Err(BadPeriodUnit)
    ensures |ss| >= 3 && lex.toInt(ss[1]).Some? && ss[2] in PeriodUnits ==>
      ApplyRule(st, lex, ss) == Ok(st.(every := Some(Every(lex.toInt(ss[1]).value, ss[2]))))
  {
  }

  /** `until D` stores the date D; it needs the word and a valid date. */
  lemma UntilStoresDate(st: RuleState, lex: Lexer, ss: seq<string>)
    requires |ss| > 0 && ss[0] == "until"
    ensures |ss| < 2 ==> ApplyRule(st, lex, ss) == Err(MissingArgument)
    ensures |ss| >= 2 && lex.toDate(ss[1]).None? ==> ApplyRule(st, lex, ss) == Err(BadUntilDate)
    ensures |ss| >= 2 && lex.toDate(ss[1]).Some? ==>
      ApplyRule(st, lex, ss) == Ok(st.(until := Some(lex.toDate(ss[1]).value)))
  {
  }

  /** `actual` sets the flag and `projected` clears it, whatever words follow. */
  lemma FlagRules(st: RuleState, lex: Lexer, ss: seq<string>)
    requires |ss| > 0 && ss[0] in ["actual", "projected"]
    ensures ApplyRule(st, lex, ss) == Ok(st.(actual := ss[0] == "actual"))
  {
  }

  /** `occurs`, `repeat` and `repeats` need a number after the keyword. */
  lemma RepeatRuleErrors(st: RuleState, lex: Lexer, ss: seq<string>)
    requires |ss| > 0 && ss[0] in ["occurs", "repeat", "repeats"]
    ensures |ss| < 2 ==> ApplyRule(st, lex, ss) == Err(MissingArgument)
    ensures |ss| >= 2 && lex.toInt(ss[1]).None? ==> ApplyRule(st, lex, ss) == Err(BadNumber)
    ensures |ss| >= 2 && lex.toInt(ss[1]).Some? ==> ApplyRule(st, lex, ss).Ok?
  {
  }

  /** `repeat N` and `repeats N` allow N + 1 occurrences; `occurs N` allows N. */
  lemma RepeatCountsRecurrences(st: RuleState, lex: Lexer, keyword: string, word: string, rest: seq<string>)
    requires keyword in ["occurs", "repeat", "repeats"] && lex.toInt(word).Some?
    ensures ApplyRule(st, lex, [keyword, word] + rest).Ok?
    ensures ApplyRule(st, lex, [keyword, word] + rest).value.repeat ==
      if keyword == "occurs" then lex.toInt(word).value else lex.toInt(word).value + 1
  {
    assert "repeat"[..6] == "repeat";
    assert "repeats"[..6] == "repeat";
    assert !HasSubstring("ccurs", "repeat");
    SkipFirstLetter("occurs", "repeat");
    assert "occurs"[1..] == "ccurs";
  }

  /** `distribution a b c` stores a/100, b/100 and c/100, in the order discretionary, emergency, living. */
  lemma DistributionIsPercent(st: RuleState, lex: Lexer, a: string, b: string, c: string, rest: seq<string>)
    requires lex.toReal(a).Some? && lex.toReal(b).Some? && lex.toReal(c).Some?
    ensures ApplyRule(st, lex, ["distribution", a, b, c] + rest) ==
      Ok(st.(dist := Distribution(lex.toReal(a).value / 100.0, lex.toReal(b).value / 100.0,
                                  lex.toReal(c).value / 100.0)))
  {
    var ss := ["distribution", a, b, c] + rest;
    assert ss[1..4] == [a, b, c];
  }

  /** Every `every` rule names a unit that the constructor recognises. */
  lemma {:induction false} RuleUnitsRecognised(st: RuleState, lex: Lexer, rules: seq<string>)
    requires st.every.Some? ==> st.every.value.unit in PeriodUnits
    requires ApplyRules(st, lex, rules).Ok?
    ensures ApplyRules(st, lex, rules).value.every.Some? ==>
      ApplyRules(st, lex, rules).value.every.value.unit in PeriodUnits
    decreases |rules|
  {
    if |rules| > 0 {
      RuleUnitsRecognised(ApplyRule(st, lex, lex.words(rules[0])).value, lex, rules[1..]);
    }
  }

  /** A bill read from a line never fails for an unknown period unit. */
  lemma ReadBillsHaveKnownUnits(fields: seq<string>, lex: Lexer, projectedByDefault: bool)
    ensures ParseBill(fields, lex, projectedByDefault).Err? ==>
      ParseBill(fields, lex, projectedByDefault).error != UnknownPeriodUnit
  {
    if |fields| >= 3 && ApplyRules(Defaults(projectedByDefault), lex, fields[3..]).Ok? {
      var st := ApplyRules(Defaults(projectedByDefault), lex, fields[3..]).value;
      RuleUnitsRecognised(Defaults(projectedByDefault), lex, fields[3..]);
      UnitNames();
      var on := lex.toDate(lex.strip(fields[2]));
      if on.Some? && st.repeat > 0 && Limit(on.value, st.until).Some? && st.every.Some? &&
         st.every.value.count > 0 {
        var limit := Limit(on.value, st.until).value;
        var unit := UnitOf(st.every.value.unit);
        assert unit.Some?;
        var step := Step(st.every.value.count, unit.value);
        if Expansion(on.value, step, st.repeat, limit).Err? {
          ExpandFromErrors([on.value], step, st.repeat, limit);
        }
        assert Occurrences(on.value, st.every, st.repeat, limit) != Err(UnknownPeriodUnit);
      }
    }
  }

  /** The loop of `Bill.from_csv` over the rules after the third field. */
  method ReadRules(rules: seq<string>, lex: Lexer, projectedByDefault: bool) returns (r: Result<RuleState, BillError>)
    ensures r == ApplyRules(Defaults(projectedByDefault), lex, rules)
  {
    var billEvery: Option<Every> := None;
    var billUntil: Option<Date> := None;
    var billRepeat := DefaultCap;
    var billDistribution := DefaultDistribution;
    var billActual := !projectedByDefault;
    for k := 0 to |rules|
      invariant ApplyRules(Defaults(projectedByDefault), lex, rules) ==
        ApplyRules(RuleState(billEvery, billUntil, billRepeat, billDistribution, billActual), lex, rules[k..])
    {
      ghost var before := RuleState(billEvery, billUntil, billRepeat, billDistribution, billActual);
      assert rules[k..][1..] == rules[k + 1..];
      var ss := lex.words(rules[k]);
      if |ss| == 0 {
        return Err(EmptyRule);
      }
      if ss[0] == "every" {
        if |ss| < 3 {
          return Err(MissingArgument);
        }
        var number := lex.toInt(ss[1]);
        if number.None? {
          return Err(BadNumber);
        }
        if ss[2] !in PeriodUnits {
          return Err(BadPeriodUnit);
        }
        billEvery := Some(Every(number.value, ss[2]));
      } else if ss[0] == "until" {
        if |ss| < 2 {
          return Err(MissingArgument);
        }
        billUntil := lex.toDate(ss[1]);
        if billUntil.None? {
          return Err(BadUntilDate);
        }
      } else if ss[0] in ["occurs", "repeat", "repeats"] {
        if |ss| < 2 {
          return Err(MissingArgument);
        }
        var number := lex.toInt(ss[1]);
        if number.None? {
          return Err(BadNumber);
        }
        billRepeat := number.value + (if HasSubstring(ss[0], "repeat") then 1 else 0);
      } else if ss[0] == "distribution" {
        var percents := ParsePercents(lex, ss[1..if |ss| < 4 then |ss| else 4]);
        if percents.None? {
          return Err(BadNumber);
        }
        if |ss| < 4 {
          return Err(MissingArgument);
        }
        billDistribution := Distribution(percents.value[0], percents.value[1], percents.value[2]);
      } else if ss[0] == "actual" {
        billActual := true;
      } else if ss[0] == "projected" {
        billActual := false;
      } else {
        return Err(UnknownRule);
      }
      assert ApplyRule(before, lex, ss) ==
        Ok(RuleState(billEvery, billUntil, billRepeat, billDistribution, billActual));
    }
    assert rules[|rules|..] == [];
    r := Ok(RuleState(billEvery, billUntil, billRepeat, billDistribution, billActual));
  }

  /** `Bill.from_csv`: the three leading fields, the rules, then the constructor. */
  method FromCsv(fields: seq<string>, lex: Lexer, projectedByDefault: bool) returns (r: Result<Bill, BillError>)
    ensures r == ParseBill(fields, lex, projectedByDefault)
  {
    if |fields| < 3 {
      return Err(TooFewFields);
    }
    var billName := lex.strip(fields[0]);
    var billValue := lex.toReal(lex.strip(fields[1]));
    if billValue.None? {
      return Err(BadValue);
    }
    var billDate := lex.toDate(lex.strip(fields[2]));
    if billDate.None? {
      return Err(BadStartDate);
    }
    var rules := ReadRules(fields[3..], lex, projectedByDefault);
    if rules.Err? {
      return Err(rules.error);
    }
    var st := rules.value;
    r := NewBill(billName, billValue.value, billDate.value, st.every, st.repeat, st.until,
                 st.dist, st.actual);
  }
}
