/** The pricing waterfall of a lead's cost simulation (`calculateTotals` in
    pages/LeadDetailPage.tsx). Office fixed costs contribute 15% of their applied subtotal;
    with the variable costs and the staffed stage items they make the direct cost; applied
    complexity factors add percentages of the direct cost; then profit and negotiation are
    added, the discount taken off and the tax added on top. */
module PricingWaterfall {
  import opened Wrappers
  import opened Domain
  import opened Collections
  import opened StagePricing

  /** The share of the office subtotal a simulation carries. */
  const OfficeShare: real := 0.15

  /** The editable state of the simulation tab: the calculator's inputs together with the
      project duration and style that are saved with them. */
  datatype SimulationForm = SimulationForm(
    durationMonths: int,
    office: seq<CostItem>,
    variable: seq<CostItem>,
    style: string,
    stages: seq<Stage>,
    factors: seq<ComplexityFactor>,
    profit: real,
    negotiation: real,
    tax: real,
    discount: real)

  // ---------------------------------------------------------------- the terms

  predicate IsApplied(item: CostItem) {
    item.isApplied
  }

  function CalculatedCost(item: CostItem): real {
    item.calculatedCost
  }

  /** An office item counts with its stored `calculatedCost`, and only when applied. */
  function AppliedCost(item: CostItem): real {
    if item.isApplied then item.calculatedCost else 0.0
  }

  /** A variable item costs `baseValue * (quantity || 1)`: a quantity of 0 counts as 1. */
  function VariableCost(item: CostItem): real {
    item.baseValue * NonZeroOr(item.quantity, 1.0)
  }

  /** The rate, as a fraction, an applied complexity factor adds. */
  function AppliedRate(f: ComplexityFactor): real {
    if f.isApplied then f.percentage / 100.0 else 0.0
  }

  function OfficeSubtotal(office: seq<CostItem>): real {
    Sum(office, AppliedCost)
  }

  function VariableSubtotal(variable: seq<CostItem>): real {
    Sum(variable, VariableCost)
  }

  /** The sum of the applied factors' rates. */
  function ComplexityRate(factors: seq<ComplexityFactor>): real {
    Sum(factors, AppliedRate)
  }

  /** The complexity value, accumulated factor by factor, each applied factor taking its
      percentage of the same direct cost. */
  function ComplexityValue(direct: real, factors: seq<ComplexityFactor>): real
    decreases |factors|
  {
    if factors == [] then 0.0
    else
      var f := factors[|factors| - 1];
      ComplexityValue(direct, factors[..|factors| - 1]) + (if f.isApplied then direct * (f.percentage / 100.0) else 0.0)
  }

  /** The variable items with `calculatedCost` brought up to date, as `calculateTotals`
      leaves them. */
  function RecomputeVariableCosts(variable: seq<CostItem>): (r: seq<CostItem>)
    ensures |r| == |variable|
    ensures forall i :: 0 <= i < |variable| ==> r[i] == variable[i].(calculatedCost := VariableCost(variable[i]))
  {
    if variable == [] then []
    else [variable[0].(calculatedCost := VariableCost(variable[0]))] + RecomputeVariableCosts(variable[1..])
  }

  /** The straight-line part of the waterfall, from the direct cost and its complexity
      value down to the final proposal. */
  function Descend(officeSubtotal: real, contribution: real, variableSubtotal: real, teamSubtotal: real,
                   direct: real, complexity: real,
                   profit: real, negotiation: real, discount: real, tax: real): Totals
  {
    var withComplexity := direct + complexity;
    var profitValue := withComplexity * (profit / 100.0);
    var costPlusProfit := withComplexity + profitValue;
    var negotiationValue := costPlusProfit * (negotiation / 100.0);
    var costPlusProfitAndNegotiation := costPlusProfit + negotiationValue;
    var discountValue := costPlusProfitAndNegotiation * (discount / 100.0);
    var beforeTax := costPlusProfitAndNegotiation - discountValue;
    var taxValue := beforeTax * (tax / 100.0);
    var final := beforeTax + taxValue;
    Totals(officeSubtotal, contribution, variableSubtotal, teamSubtotal, direct, complexity,
           withComplexity, profitValue, costPlusProfit, negotiationValue, costPlusProfitAndNegotiation,
           discountValue, beforeTax, taxValue, final, final)
  }

  /** Every value of the waterfall for a form and a team. */
  function Waterfall(form: SimulationForm, team: seq<TeamMember>): Totals {
    var officeSubtotal := OfficeSubtotal(form.office);
    var contribution := officeSubtotal * OfficeShare;
    var variableSubtotal := VariableSubtotal(form.variable);
    var teamSubtotal := StagesCost(team, form.stages);
    var direct := contribution + variableSubtotal + teamSubtotal;
    Descend(officeSubtotal, contribution, variableSubtotal, teamSubtotal, direct, ComplexityValue(direct, form.factors),
            form.profit, form.negotiation, form.discount, form.tax)
  }

  // ---------------------------------------------------------------- the calculator

  /** The office loop of `calculateTotals`: the applied items' `calculatedCost`. */
  method SumOfficeItems(office: seq<CostItem>) returns (subtotal: real)
    ensures subtotal == OfficeSubtotal(office)
  {
    subtotal := 0.0;
    var i := 0;
    while i < |office|
      invariant 0 <= i <= |office|
      invariant subtotal == OfficeSubtotal(office[..i])
    {
      if office[i].isApplied {
        subtotal := subtotal + office[i].calculatedCost;
      }
      assert office[..i + 1][..i] == office[..i];
      i := i + 1;
    }
    assert office[..i] == office;
  }

  /** The variable loop of `calculateTotals`: writes each item's `calculatedCost` back
      into the list and adds it up. */
  method RecomputeVariableItems(variable: array<CostItem>) returns (subtotal: real)
    modifies variable
    ensures variable[..] == RecomputeVariableCosts(old(variable[..]))
    ensures subtotal == VariableSubtotal(old(variable[..]))
  {
    ghost var before := variable[..];
    subtotal := 0.0;
    var j := 0;
    while j < variable.Length
      invariant 0 <= j <= variable.Length
      invariant forall m :: 0 <= m < j ==> variable[m] == before[m].(calculatedCost := VariableCost(before[m]))
      invariant forall m :: j <= m < variable.Length ==> variable[m] == before[m]
      invariant subtotal == VariableSubtotal(before[..j])
    {
      var item := variable[j];
      var cost := VariableCost(item);
      variable[j] := item.(calculatedCost := cost);
      subtotal := subtotal + cost;
      assert before[..j + 1] == before[..j] + [before[j]];
      SumSnoc(before[..j], before[j], VariableCost);
      j := j + 1;
    }
    assert before[..j] == before;
  }

  /** The nested stage loop of `calculateTotals`: hours times the responsible's rate over
      every item of every stage. */
  method SumStageItems(stages: seq<Stage>, team: seq<TeamMember>) returns (subtotal: real)
    ensures subtotal == StagesCost(team, stages)
  {
    subtotal := 0.0;
    var s := 0;
    while s < |stages|
      invariant 0 <= s <= |stages|
      invariant subtotal == StagesCost(team, stages[..s])
    {
      var items := stages[s].items;
      var k := 0;
      while k < |items|
        invariant 0 <= k <= |items|
        invariant subtotal == StagesCost(team, stages[..s]) + ItemsCost(team, items[..k])
      {
        var item := items[k];
        var responsible := if item.responsibleId.Some? then FindMember(team, item.responsibleId.value) else None;
        var hourlyRate := if responsible.Some? then NumOr(responsible.value.hourlyRate, 0.0) else 0.0;
        subtotal := subtotal + NumOr(item.hours, 0.0) * hourlyRate;
        assert items[..k + 1][..k] == items[..k];
        k := k + 1;
      }
      assert items[..k] == items;
      assert stages[..s + 1][..s] == stages[..s];
      s := s + 1;
    }
    assert stages[..s] == stages;
  }

  /** The complexity loop of `calculateTotals`. */
  method SumComplexity(direct: real, factors: seq<ComplexityFactor>) returns (complexity: real)
    ensures complexity == ComplexityValue(direct, factors)
  {
    complexity := 0.0;
    var f := 0;
    while f < |factors|
      invariant 0 <= f <= |factors|
      invariant complexity == ComplexityValue(direct, factors[..f])
    {
      if factors[f].isApplied {
        complexity := complexity + direct * (factors[f].percentage / 100.0);
      }
      assert factors[..f + 1][..f] == factors[..f];
      f := f + 1;
    }
    assert factors[..f] == factors;
  }

  /** `calculateTotals`: accumulates each subtotal in its loop, overwriting the
      `calculatedCost` of every variable item in place on the way, then walks down the
      waterfall. The variable items are the live list in `variable`; the form's own
      `variable` field is not read. */
  method CalculateTotals(form: SimulationForm, variable: array<CostItem>, team: seq<TeamMember>) returns (totals: Totals)
    modifies variable
    ensures variable[..] == RecomputeVariableCosts(old(variable[..]))
    ensures totals == Waterfall(form.(variable := old(variable[..])), team)
  {
    var officeSubtotal := SumOfficeItems(form.office);
    var contribution := officeSubtotal * OfficeShare;
    var variableSubtotal := RecomputeVariableItems(variable);
    var teamSubtotal := SumStageItems(form.stages, team);
    var direct := contribution + variableSubtotal + teamSubtotal;
    var complexity := SumComplexity(direct, form.factors);
    totals := Descend(officeSubtotal, contribution, variableSubtotal, teamSubtotal, direct, complexity,
                      form.profit, form.negotiation, form.discount, form.tax);
  }

  // ---------------------------------------------------------------- properties

  /** The office subtotal is the sum of `calculatedCost` over the applied items alone. */
  lemma {:induction false} OfficeSubtotalIsSumOfApplied(office: seq<CostItem>)
    ensures OfficeSubtotal(office) == Sum(Filter(office, IsApplied), CalculatedCost)
    decreases |office|
  {
    if office != [] {
      var init, last := office[..|office| - 1], office[|office| - 1];
      assert office == init + [last];
      OfficeSubtotalIsSumOfApplied(init);
      SumSnoc(init, last, AppliedCost);
      FilterSnoc(init, last, IsApplied);
      if last.isApplied {
        SumSnoc(Filter(init, IsApplied), last, CalculatedCost);
      } else {
        assert Filter(init, IsApplied) + [] == Filter(init, IsApplied);
      }
    }
  }

  /** Complexity factors do not compound: every applied factor takes its percentage of the
      same direct cost, so the complexity value is the direct cost times the summed rate. */
  lemma {:induction false} ComplexityIsLinear(direct: real, factors: seq<ComplexityFactor>)
    ensures ComplexityValue(direct, factors) == direct * ComplexityRate(factors)
    decreases |factors|
  {
    if factors != [] {
      ComplexityIsLinear(direct, factors[..|factors| - 1]);
    }
  }

  /** The final value in closed form: the direct cost times one factor per stage of the
      waterfall. */
  function ClosedForm(direct: real, rate: real, profit: real, negotiation: real, discount: real, tax: real): real {
    direct * (1.0 + rate) * (1.0 + profit / 100.0) * (1.0 + negotiation / 100.0) * (1.0 - discount / 100.0) * (1.0 + tax / 100.0)
  }

  /** The waterfall's final value is its closed form over the summed complexity rate, and
      the value "with discount" is the final value itself. */
  lemma {:induction false} WaterfallClosedForm(form: SimulationForm, team: seq<TeamMember>)
    ensures var t := Waterfall(form, team);
      t.complexityValue == t.directSubtotal * ComplexityRate(form.factors) &&
      t.finalProposedValueWithDiscount == t.finalProposedValue &&
      t.finalProposedValue ==
        ClosedForm(t.directSubtotal, ComplexityRate(form.factors), form.profit, form.negotiation, form.discount, form.tax)
  {
    var t := Waterfall(form, team);
    ComplexityIsLinear(t.directSubtotal, form.factors);
  }

  lemma {:induction false} MulLeft(a: real, b: real, c: real)
    requires 0.0 <= c && a <= b
    ensures a * c <= b * c
  {
  }

  /** A product of non-negative factors does not shrink when every factor grows. */
  lemma {:induction false} ProductMonotone(d: real, a1: real, a2: real, b1: real, b2: real, c1: real, c2: real, e1: real, e2: real)
    requires 0.0 <= d
    requires 0.0 <= a1 <= a2 && 0.0 <= b1 <= b2 && 0.0 <= c1 <= c2 && 0.0 <= e1 <= e2
    ensures d * a1 * b1 * c1 * e1 <= d * a2 * b2 * c2 * e2
  {
    MulLeft(a1, a2, d);
    assert d * a1 <= d * a2;
    MulLeft(d * a1, d * a2, b1);
    MulLeft(b1, b2, d * a2);
    assert d * a1 * b1 <= d * a2 * b2;
    MulLeft(d * a1 * b1, d * a2 * b2, c1);
    MulLeft(c1, c2, d * a2 * b2);
    assert d * a1 * b1 * c1 <= d * a2 * b2 * c2;
    MulLeft(d * a1 * b1 * c1, d * a2 * b2 * c2, e1);
    MulLeft(e1, e2, d * a2 * b2 * c2);
  }

  /** The closed form grows with profit, negotiation and tax and shrinks with the discount. */
  lemma {:induction false} ClosedFormMonotone(direct: real, rate: real, p1: real, p2: real, n1: real, n2: real,
                           d1: real, d2: real, x1: real, x2: real)
    requires 0.0 <= direct && 0.0 <= rate
    requires 0.0 <= p1 <= p2 && 0.0 <= n1 <= n2 && 0.0 <= d2 <= d1 <= 100.0 && 0.0 <= x1 <= x2
    ensures ClosedForm(direct, rate, p1, n1, d1, x1) <= ClosedForm(direct, rate, p2, n2, d2, x2)
  {
    MulLeft(0.0, direct, 1.0 + rate);
    ProductMonotone(direct * (1.0 + rate), 1.0 + p1 / 100.0, 1.0 + p2 / 100.0, 1.0 + n1 / 100.0, 1.0 + n2 / 100.0,
                    1.0 - d1 / 100.0, 1.0 - d2 / 100.0, 1.0 + x1 / 100.0, 1.0 + x2 / 100.0);
  }

  /** The percentages of the proposal do not reach the direct cost. */
  lemma {:induction false} DirectIgnoresPercentages(form: SimulationForm, team: seq<TeamMember>,
                                 profit: real, negotiation: real, discount: real, tax: real)
    ensures Waterfall(form.(profit := profit, negotiation := negotiation, discount := discount, tax := tax), team).directSubtotal
         == Waterfall(form, team).directSubtotal
  {
  }

  /** With a non-negative direct cost, non-negative complexity percentages and discounts
      within 0..100, raising the profit, negotiation or tax percentage or lowering the
      discount never lowers the final value. */
  lemma {:induction false} FinalValueMonotone(form: SimulationForm, team: seq<TeamMember>,
                           profit: real, negotiation: real, discount: real, tax: real)
    requires Waterfall(form, team).directSubtotal >= 0.0
    requires forall i :: 0 <= i < |form.factors| ==> form.factors[i].percentage >= 0.0
    requires 0.0 <= form.profit <= profit
    requires 0.0 <= form.negotiation <= negotiation
    requires 0.0 <= discount <= form.discount <= 100.0
    requires 0.0 <= form.tax <= tax
    ensures Waterfall(form, team).finalProposedValue
         <= Waterfall(form.(profit := profit, negotiation := negotiation, discount := discount, tax := tax), team).finalProposedValue
  {
    var form2 := form.(profit := profit, negotiation := negotiation, discount := discount, tax := tax);
    WaterfallClosedForm(form, team);
    WaterfallClosedForm(form2, team);
    DirectIgnoresPercentages(form, team, profit, negotiation, discount, tax);
    SumNonNegative(form.factors, AppliedRate);
    var direct := Waterfall(form, team).directSubtotal;
    var rate := ComplexityRate(form.factors);
    ClosedFormMonotone(direct, rate, form.profit, profit, form.negotiation, negotiation, form.discount, discount, form.tax, tax);
    assert Waterfall(form2, team).finalProposedValue == ClosedForm(direct, rate, profit, negotiation, discount, tax);
  }

  /** One applied office item of 1600 for one month, one variable item of 500, two hours
      of a member at 150 an hour, 25% profit and 6% tax: the contribution is 240, the
      direct cost 1040 and the proposal 1378. */
  lemma {:induction false} WorkedExample()
    ensures var team := [TeamMember("u", "Clarissa", None, Some(150.0))];
      var form := SimulationForm(
        1,
        [CostItem("o", None, "Aluguel", OfficeFixed, Monthly, 1600.0, 1.0, 1600.0, true, true, false)],
        [CostItem("v", None, "Maquete", ProjectVariable, PerUnit, 500.0, 1.0, 0.0, true, false, true)],
        "Padrão",
        [Stage("s", "Etapa", [StageItem("i", "Briefing", Some("u"), Some(2.0))], false)],
        [], 25.0, 0.0, 6.0, 0.0);
      var t := Waterfall(form, team);
      t.officeContribution == 240.0 && t.directSubtotal == 1040.0 && t.finalProposedValue == 1378.0
  {
    var office := [CostItem("o", None, "Aluguel", OfficeFixed, Monthly, 1600.0, 1.0, 1600.0, true, true, false)];
    var variable := [CostItem("v", None, "Maquete", ProjectVariable, PerUnit, 500.0, 1.0, 0.0, true, false, true)];
    var item := StageItem("i", "Briefing", Some("u"), Some(2.0));
    var team := [TeamMember("u", "Clarissa", None, Some(150.0))];
    assert OfficeSubtotal(office) == 1600.0 by { assert office[..0] == []; }
    assert VariableSubtotal(variable) == 500.0 by { assert variable[..0] == []; }
    ItemsCostSingle(team, item);
    StagesCostSingle(team, Stage("s", "Etapa", [item], false));
  }

  /** The cost a variable row displays, `baseValue * (quantity || 0)`, agrees with what the
      subtotal counts for it exactly when the quantity is not 0 or the base value is 0. */
  lemma {:induction false} VariableRowCostDisplayed(item: CostItem)
    ensures item.baseValue * item.quantity == VariableCost(item) <==> item.quantity != 0.0 || item.baseValue == 0.0
  {
  }
}
