/** What the calculator promises, proved about its specification
    (and therefore, through CalculateTax's postcondition, about the
    calculator itself). */
module TaxProperties {
  import opened Types
  import opened Rules
  import opened TaxCalculator

  // ---------------------------------------------------------------------
  // Gross estate and exemption
  // ---------------------------------------------------------------------

  /** The gross estate is exactly the four asset fields; nothing (not even the
      land later deducted) is removed at this step. */
  lemma GrossEstateIsAssetSum(estate: EstateParams, heirs: HeirParams, deductions: DeductionParams)
    ensures Assessment(estate, heirs, deductions).totalEstateValue ==
      estate.totalRealEstate + estate.cashAndSavings + estate.stocksAndInvestments + estate.otherAssets
  {
  }

  /** Exactly one exemption applies: duty-related when the flag is set, general
      otherwise, and it is the one and only exemption line. */
  lemma SingleExemptionLine(estate: EstateParams, heirs: HeirParams, deductions: DeductionParams)
    ensures var r := Assessment(estate, heirs, deductions);
      r.exemptionAmount == (if estate.isDutyRelatedDeath then 26660000 else 13330000) &&
      |r.breakdown.exemptionDetails| == 1 &&
      r.breakdown.exemptionDetails[0].amount == r.exemptionAmount &&
      (r.breakdown.exemptionDetails[0].kind == DutyRelatedExemption <==> estate.isDutyRelatedDeath)
  {
  }

  // ---------------------------------------------------------------------
  // Minor heirs
  // ---------------------------------------------------------------------

  /** The minor-heir sum splits over concatenation, so it does not depend on
      how the list is cut. */
  lemma {:induction false} MinorTotalAppend(base: nat, s: seq<nat>, t: seq<nat>)
    ensures MinorTotal(base, s + t) == MinorTotal(base, s) + MinorTotal(base, t)
    decreases |t|
  {
    if |t| == 0 {
      assert s + t == s;
    } else {
      var u := s + t;
      assert u[..|u| - 1] == s + t[..|t| - 1];
      MinorTotalAppend(base, s, t[..|t| - 1]);
    }
  }

  /** Each minor heir contributes the base plus (18 - age) yearly additions
      when under 18, and the base alone otherwise. */
  lemma MinorHeirContribution(base: nat, ages: seq<nat>, k: nat)
    requires k < |ages|
    ensures MinorTotal(base, ages) ==
      MinorTotal(base, ages[..k])
      + (if ages[k] < 18 then base + (18 - ages[k]) * 560000 else base)
      + MinorTotal(base, ages[k + 1..])
  {
    assert ages == ages[..k] + ([ages[k]] + ages[k + 1..]);
    MinorTotalAppend(base, ages[..k], [ages[k]] + ages[k + 1..]);
    MinorTotalAppend(base, [ages[k]], ages[k + 1..]);
    assert [ages[k]][..0] == [];
  }

  lemma MultiplySuccessor(n: nat, b: nat)
    ensures (n + 1) * b == n * b + b
  {
  }

  /** The sum lies between |ages| bases and |ages| bases plus the largest
      addition (18 years) each. */
  lemma {:induction false} MinorTotalBounds(base: nat, ages: seq<nat>)
    ensures |ages| * base <= MinorTotal(base, ages) <= |ages| * (base + 18 * 560000)
  {
    if |ages| > 0 {
      var n := |ages| - 1;
      MinorTotalBounds(base, ages[..n]);
      MultiplySuccessor(n, base);
      MultiplySuccessor(n, base + 18 * 560000);
    }
  }

  /** With a positive base, the minor-heir sum is positive exactly when there is a minor heir. */
  lemma MinorTotalPositive(base: nat, ages: seq<nat>)
    requires base > 0
    ensures MinorTotal(base, ages) > 0 <==> |ages| > 0
  {
    MinorTotalBounds(base, ages);
  }

  // ---------------------------------------------------------------------
  // Deduction lines
  // ---------------------------------------------------------------------

  /** A category is active exactly when it contributes a positive amount. */
  lemma ActiveIffPositive(c: Category, heirs: HeirParams, deductions: DeductionParams)
    ensures Active(c, heirs, deductions) <==> CategoryAmount(c, heirs, deductions) > 0
  {
    MinorTotalPositive(DEDUCTIONS.linealDescendant, heirs.minorChildrenAges);
    MinorTotalPositive(DEDUCTIONS.dependentSiblingGrandparent, heirs.minorSiblingsAges);
  }

  /** Some line of `lines` is of category c. */
  ghost predicate Emitted(lines: seq<LineItem>, c: Category) {
    exists k :: 0 <= k < |lines| && lines[k].category == c
  }

  /** Categories strictly ascending in the calculator's order. */
  ghost predicate Ranked(cs: seq<Category>) {
    forall i, j :: 0 <= i < j < |cs| ==> Rank(cs[i]) < Rank(cs[j])
  }

  /** Every line of Lines(cs) is the item of an active category of cs. */
  lemma {:induction false} LinesAreActiveItems(cs: seq<Category>, heirs: HeirParams, deductions: DeductionParams)
    ensures forall k :: 0 <= k < |Lines(cs, heirs, deductions)| ==>
      Lines(cs, heirs, deductions)[k].category in cs &&
      Active(Lines(cs, heirs, deductions)[k].category, heirs, deductions) &&
      Lines(cs, heirs, deductions)[k] == Item(Lines(cs, heirs, deductions)[k].category, heirs, deductions)
  {
    if |cs| > 0 {
      var init := cs[..|cs| - 1];
      var last := cs[|cs| - 1];
      LinesAreActiveItems(init, heirs, deductions);
      var prev := Lines(init, heirs, deductions);
      var lines := Lines(cs, heirs, deductions);
      assert lines == Emit(prev, last, heirs, deductions);
      forall k | 0 <= k < |lines|
        ensures lines[k].category in cs && Active(lines[k].category, heirs, deductions) &&
                lines[k] == Item(lines[k].category, heirs, deductions)
      {
        if k < |prev| {
          assert lines[k] == prev[k];
          var c := prev[k].category;
          assert c in init;
          var i :| 0 <= i < |init| && init[i] == c;
          assert cs[i] == c;
        } else {
          assert lines[k] == Item(last, heirs, deductions);
          assert cs[|cs| - 1] == last;
        }
      }
    }
  }

  /** Every active category of cs has a line in Lines(cs). */
  lemma {:induction false} ActiveCategoriesEmitted(cs: seq<Category>, heirs: HeirParams, deductions: DeductionParams)
    ensures forall c :: c in cs && Active(c, heirs, deductions) ==> Emitted(Lines(cs, heirs, deductions), c)
  {
    if |cs| > 0 {
      var init := cs[..|cs| - 1];
      var last := cs[|cs| - 1];
      ActiveCategoriesEmitted(init, heirs, deductions);
      var prev := Lines(init, heirs, deductions);
      var lines := Lines(cs, heirs, deductions);
      assert lines == Emit(prev, last, heirs, deductions);
      forall c | c in cs && Active(c, heirs, deductions)
        ensures Emitted(lines, c)
      {
        if c == last {
          assert lines[|lines| - 1].category == c;
        } else {
          var i :| 0 <= i < |cs| && cs[i] == c;
          assert init[i] == c;
          assert Emitted(prev, c);
          var k :| 0 <= k < |prev| && prev[k].category == c;
          assert lines[k] == prev[k];
        }
      }
    }
  }

  /** Lines(cs) keeps the order of cs. */
  lemma {:induction false} LinesOrdered(cs: seq<Category>, heirs: HeirParams, deductions: DeductionParams)
    requires Ranked(cs)
    ensures forall i, j :: 0 <= i < j < |Lines(cs, heirs, deductions)| ==>
      Rank(Lines(cs, heirs, deductions)[i].category) < Rank(Lines(cs, heirs, deductions)[j].category)
  {
    if |cs| > 0 {
      var init := cs[..|cs| - 1];
      var last := cs[|cs| - 1];
      assert Ranked(init);
      LinesOrdered(init, heirs, deductions);
      LinesAreActiveItems(init, heirs, deductions);
      var prev := Lines(init, heirs, deductions);
      var lines := Lines(cs, heirs, deductions);
      assert lines == Emit(prev, last, heirs, deductions);
      forall k | 0 <= k < |prev|
        ensures Rank(prev[k].category) < Rank(last)
      {
        var c := prev[k].category;
        assert c in init;
        var i :| 0 <= i < |init| && init[i] == c;
        assert cs[i] == init[i];
      }
      forall i, j | 0 <= i < j < |lines|
        ensures Rank(lines[i].category) < Rank(lines[j].category)
      {
        assert lines[i] == prev[i];
        if j < |prev| {
          assert lines[j] == prev[j];
        } else {
          assert lines[j].category == last;
        }
      }
    }
  }

  /** Every category has its place in CATEGORY_ORDER, and the places ascend. */
  lemma CategoryOrderComplete()
    ensures forall c :: c in CATEGORY_ORDER
    ensures Ranked(CATEGORY_ORDER)
  {
    forall c: Category
      ensures c in CATEGORY_ORDER
    {
      assert CATEGORY_ORDER[Rank(c)] == c;
    }
    assert forall i :: 0 <= i < |CATEGORY_ORDER| ==> Rank(CATEGORY_ORDER[i]) == i;
  }

  /** The deduction breakdown: a line is emitted iff its category is active;
      each line carries its category's headcount and amount, which is
      positive; the lines come in the fixed order spouse, parents, adult
      children, minor children, siblings, minor siblings, grandparents,
      disability, funeral, debts, taxes, public land, farm land. */
  lemma DeductionLinesCharacterized(heirs: HeirParams, deductions: DeductionParams)
    ensures forall c :: Emitted(DeductionLines(heirs, deductions), c) <==> Active(c, heirs, deductions)
    ensures forall k :: 0 <= k < |DeductionLines(heirs, deductions)| ==>
      var line := DeductionLines(heirs, deductions)[k];
      line == LineItem(line.category, HeadCount(line.category, heirs), CategoryAmount(line.category, heirs, deductions)) &&
      line.amount > 0
    ensures forall i, j :: 0 <= i < j < |DeductionLines(heirs, deductions)| ==>
      Rank(DeductionLines(heirs, deductions)[i].category) < Rank(DeductionLines(heirs, deductions)[j].category)
  {
    CategoryOrderComplete();
    var lines := DeductionLines(heirs, deductions);
    assert lines == Lines(CATEGORY_ORDER, heirs, deductions);
    LinesAreActiveItems(CATEGORY_ORDER, heirs, deductions);
    ActiveCategoriesEmitted(CATEGORY_ORDER, heirs, deductions);
    LinesOrdered(CATEGORY_ORDER, heirs, deductions);
    forall k | 0 <= k < |lines|
      ensures lines[k].amount > 0
    {
      ActiveIffPositive(lines[k].category, heirs, deductions);
    }
    forall c | Emitted(lines, c)
      ensures Active(c, heirs, deductions)
    {
      var k :| 0 <= k < |lines| && lines[k].category == c;
    }
  }

  /** With no active category there are no lines. */
  lemma {:induction false} NoActiveNoLines(cs: seq<Category>, heirs: HeirParams, deductions: DeductionParams)
    requires forall c :: !Active(c, heirs, deductions)
    ensures Lines(cs, heirs, deductions) == []
  {
    if |cs| > 0 {
      NoActiveNoLines(cs[..|cs| - 1], heirs, deductions);
    }
  }

  /** The deduction amount is the sum of the deduction lines. */
  lemma DeductionAmountIsSumOfLines(estate: EstateParams, heirs: HeirParams, deductions: DeductionParams)
    ensures var r := Assessment(estate, heirs, deductions);
      r.deductionAmount == SumAmounts(r.breakdown.deductionDetails)
  {
    ItemisationSum(heirs, deductions);
  }

  /** The flat sibling line and the age-based minor-sibling line are
      independent: both are emitted when both inputs are present, and both
      amounts are counted. */
  lemma SiblingLinesBothCount(heirs: HeirParams, deductions: DeductionParams)
    requires heirs.siblingsCount > 0 && |heirs.minorSiblingsAges| > 0
    ensures Emitted(DeductionLines(heirs, deductions), Siblings)
    ensures Emitted(DeductionLines(heirs, deductions), MinorSiblings)
    ensures TotalDeductions(heirs, deductions) >=
      heirs.siblingsCount * 560000 + |heirs.minorSiblingsAges| * 560000
  {
    DeductionLinesCharacterized(heirs, deductions);
    MinorTotalBounds(DEDUCTIONS.dependentSiblingGrandparent, heirs.minorSiblingsAges);
  }

  /** Lines depend on the deduction inputs only through Active and CategoryAmount. */
  lemma {:induction false} LinesAgree(cs: seq<Category>, heirs: HeirParams, d1: DeductionParams, d2: DeductionParams)
    requires forall c :: Active(c, heirs, d1) == Active(c, heirs, d2)
    requires forall c :: CategoryAmount(c, heirs, d1) == CategoryAmount(c, heirs, d2)
    ensures Lines(cs, heirs, d1) == Lines(cs, heirs, d2)
  {
    if |cs| > 0 {
      LinesAgree(cs[..|cs| - 1], heirs, d1, d2);
      assert Item(cs[|cs| - 1], heirs, d1) == Item(cs[|cs| - 1], heirs, d2);
    }
  }

  /** The actual-funeral-expense input never affects any output. */
  lemma FuneralActualIgnored(estate: EstateParams, heirs: HeirParams, deductions: DeductionParams, actual: nat)
    ensures Assessment(estate, heirs, deductions.(funeralExpensesActual := actual)) ==
            Assessment(estate, heirs, deductions)
  {
    var d' := deductions.(funeralExpensesActual := actual);
    forall c: Category
      ensures Active(c, heirs, d') == Active(c, heirs, deductions)
      ensures CategoryAmount(c, heirs, d') == CategoryAmount(c, heirs, deductions)
    {
    }
    LinesAgree(CATEGORY_ORDER, heirs, d', deductions);
    assert TotalDeductions(heirs, d') == TotalDeductions(heirs, deductions);
  }

  // ---------------------------------------------------------------------
  // Net taxable estate
  // ---------------------------------------------------------------------

  /** The net taxable estate is total - exemption - deductions when that is
      positive and 0 otherwise. */
  lemma TaxableFloor(estate: EstateParams, heirs: HeirParams, deductions: DeductionParams)
    ensures var r := Assessment(estate, heirs, deductions);
      (r.taxableEstateValue == 0 <==> r.totalEstateValue <= r.exemptionAmount + r.deductionAmount) &&
      (r.taxableEstateValue > 0 ==>
        r.taxableEstateValue == r.totalEstateValue - r.exemptionAmount - r.deductionAmount) &&
      r.taxableEstateValue <= r.totalEstateValue
  {
  }

  // ---------------------------------------------------------------------
  // Bracket lookup
  // ---------------------------------------------------------------------

  /** FindBracket returns the first covering bracket at or after `from`, or None if there is none. */
  lemma {:induction false} FindBracketFirstMatch(brackets: seq<Bracket>, x: nat, from: nat)
    ensures match FindBracket(brackets, x, from)
      case Some(i) => from <= i < |brackets| && Covers(brackets[i].limit, x) &&
                      forall j :: from <= j < i ==> !Covers(brackets[j].limit, x)
      case None => forall j :: from <= j < |brackets| ==> !Covers(brackets[j].limit, x)
    decreases |brackets| - from
  {
    if from < |brackets| && !Covers(brackets[from].limit, x) {
      FindBracketFirstMatch(brackets, x, from + 1);
    }
  }

  /** The selected bracket is the first one whose inclusive limit covers x;
      only when none does is it the last one. */
  lemma SelectBracketIsFirstMatch(brackets: seq<Bracket>, x: nat)
    requires |brackets| > 0
    ensures var i := SelectBracketIndex(brackets, x);
      i < |brackets| &&
      (forall j :: 0 <= j < i ==> !Covers(brackets[j].limit, x)) &&
      (Covers(brackets[i].limit, x) ||
       (i == |brackets| - 1 && forall j :: 0 <= j < |brackets| ==> !Covers(brackets[j].limit, x)))
  {
    FindBracketFirstMatch(brackets, x, 0);
  }

  /** With the statutory table a covering bracket always exists, so the
      fallback is never taken, and the selected bracket is 0, 1 or 2 by the
      two limits. */
  lemma StatutoryBracketSelection(x: nat)
    ensures FindBracket(TAX_BRACKETS, x, 0).Some?
    ensures SelectBracketIndex(TAX_BRACKETS, x) ==
      if x <= 56210000 then 0 else if x <= 112420000 then 1 else 2
  {
    FindBracketFirstMatch(TAX_BRACKETS, x, 0);
    SelectBracketIsFirstMatch(TAX_BRACKETS, x);
  }

  /** Rate and quick deduction of the result are those of the bracket the
      taxable value falls in. */
  lemma ResultBracket(estate: EstateParams, heirs: HeirParams, deductions: DeductionParams)
    ensures var r := Assessment(estate, heirs, deductions);
      var t := r.taxableEstateValue;
      (t <= 56210000 ==> r.taxBracketRate == 0.10 && r.progressiveDifference == 0) &&
      (56210000 < t <= 112420000 ==> r.taxBracketRate == 0.15 && r.progressiveDifference == 2810500) &&
      (112420000 < t ==> r.taxBracketRate == 0.20 && r.progressiveDifference == 8431500)
  {
    StatutoryBracketSelection(Assessment(estate, heirs, deductions).taxableEstateValue);
  }

  // ---------------------------------------------------------------------
  // The tax formula
  // ---------------------------------------------------------------------

  /** Reference definition: each slice of the taxable value taxed at its own
      bracket's rate. */
  function MarginalTax(x: nat): real {
    var r := x as real;
    if r <= 56210000.0 then 0.10 * r
    else if r <= 112420000.0 then 0.10 * 56210000.0 + 0.15 * (r - 56210000.0)
    else 0.10 * 56210000.0 + 0.15 * (112420000.0 - 56210000.0) + 0.20 * (r - 112420000.0)
  }

  /** The piecewise tax is continuous at the first limit: 5,621,000 by either formula. */
  lemma ContinuousAtFirstLimit()
    ensures BracketTax(TAX_BRACKETS[0], 56210000) == 5621000.0
    ensures BracketTax(TAX_BRACKETS[1], 56210000) == 5621000.0
  {
  }

  /** The piecewise tax is continuous at the second limit: 14,052,500 by either formula. */
  lemma ContinuousAtSecondLimit()
    ensures BracketTax(TAX_BRACKETS[1], 112420000) == 14052500.0
    ensures BracketTax(TAX_BRACKETS[2], 112420000) == 14052500.0
  {
  }

  /** Rate times taxable minus quick deduction equals taxing each slice at its
      own rate, and is never negative, so the floor never changes the result. */
  lemma QuickDeductionIsMarginal(x: nat)
    ensures BracketTax(TAX_BRACKETS[SelectBracketIndex(TAX_BRACKETS, x)], x) == MarginalTax(x)
    ensures MarginalTax(x) >= 0.0
    ensures TaxPayable(x) == MarginalTax(x)
  {
    StatutoryBracketSelection(x);
  }

  /** Up to the first limit the tax is exactly 10% of the taxable value. */
  lemma FirstBracketIsTenPercent(x: nat)
    requires x <= 56210000
    ensures TaxPayable(x) == 0.10 * (x as real)
  {
    QuickDeductionIsMarginal(x);
  }

  /** The tax payable never decreases when the taxable value grows. */
  lemma TaxPayableMonotone(x: nat, y: nat)
    requires x <= y
    ensures TaxPayable(x) <= TaxPayable(y)
  {
    QuickDeductionIsMarginal(x);
    QuickDeductionIsMarginal(y);
  }

  /** For every taxable value, the tax payable is the gross tax less the
      bracket's quick deduction and lies between 0 and the gross tax. */
  lemma GrossLessQuickDeduction(x: nat)
    ensures var b := TAX_BRACKETS[SelectBracketIndex(TAX_BRACKETS, x)];
      GrossTax(x) == (x as real) * b.rate &&
      TaxPayable(x) == GrossTax(x) - (b.quickDeduction as real) &&
      0.0 <= TaxPayable(x) <= GrossTax(x)
  {
    QuickDeductionIsMarginal(x);
  }

  /** Final tax is the gross tax less the quick deduction, and lies between 0 and the gross tax. */
  lemma FinalTaxBounds(estate: EstateParams, heirs: HeirParams, deductions: DeductionParams)
    ensures var r := Assessment(estate, heirs, deductions);
      r.finalTaxPayable == r.grossTax - (r.progressiveDifference as real) &&
      0.0 <= r.finalTaxPayable <= r.grossTax &&
      r.grossTax == (r.taxableEstateValue as real) * r.taxBracketRate
  {
    GrossLessQuickDeduction(Assessment(estate, heirs, deductions).taxableEstateValue);
  }

  // ---------------------------------------------------------------------
  // Monotonicity in the inputs
  // ---------------------------------------------------------------------

  /** Growing any asset field (same duty flag) never lowers the final tax. */
  lemma TaxGrowsWithAssets(estate: EstateParams, richer: EstateParams, heirs: HeirParams, deductions: DeductionParams)
    requires richer.isDutyRelatedDeath == estate.isDutyRelatedDeath
    requires richer.totalRealEstate >= estate.totalRealEstate
    requires richer.cashAndSavings >= estate.cashAndSavings
    requires richer.stocksAndInvestments >= estate.stocksAndInvestments
    requires richer.otherAssets >= estate.otherAssets
    ensures Assessment(richer, heirs, deductions).finalTaxPayable >= Assessment(estate, heirs, deductions).finalTaxPayable
  {
    TaxPayableMonotone(Assessment(estate, heirs, deductions).taxableEstateValue,
                       Assessment(richer, heirs, deductions).taxableEstateValue);
  }

  /** A larger total deduction never raises the final tax. */
  lemma TaxShrinksWithDeductions(estate: EstateParams, heirs: HeirParams, deductions: DeductionParams,
                                 heirs': HeirParams, deductions': DeductionParams)
    requires TotalDeductions(heirs, deductions) <= TotalDeductions(heirs', deductions')
    ensures Assessment(estate, heirs', deductions').finalTaxPayable <= Assessment(estate, heirs, deductions).finalTaxPayable
  {
    TaxPayableMonotone(Assessment(estate, heirs', deductions').taxableEstateValue,
                       Assessment(estate, heirs, deductions).taxableEstateValue);
  }

  /** The minor-heir sum never shrinks when heirs are added to the list. */
  lemma MinorTotalGrows(base: nat, ages: seq<nat>, more: seq<nat>)
    ensures MinorTotal(base, ages) <= MinorTotal(base, ages + more)
  {
    MinorTotalAppend(base, ages, more);
  }

  /** h2/d2 have at least the deduction-eligible inputs of h1/d1: every flag
      that is set stays set, every count and value is at least as large, and
      the minor-heir lists are extended. */
  ghost predicate AtLeastAsEligible(h1: HeirParams, d1: DeductionParams, h2: HeirParams, d2: DeductionParams) {
    (h1.hasSpouse ==> h2.hasSpouse) &&
    h1.parentsCount <= h2.parentsCount &&
    h1.adultChildrenCount <= h2.adultChildrenCount &&
    h1.minorChildrenAges <= h2.minorChildrenAges &&
    h1.siblingsCount <= h2.siblingsCount &&
    h1.minorSiblingsAges <= h2.minorSiblingsAges &&
    h1.grandparentsCount <= h2.grandparentsCount &&
    h1.disabledDependentsCount <= h2.disabledDependentsCount &&
    (d1.funeralExpenses ==> d2.funeralExpenses) &&
    d1.outstandingDebts <= d2.outstandingDebts &&
    d1.unpaidTaxes <= d2.unpaidTaxes &&
    d1.publicLandValue <= d2.publicLandValue &&
    d1.farmingLandValue <= d2.farmingLandValue
  }

  /** More heirs or larger declared deductions never raise the final tax. */
  lemma TaxNeverRisesWithMoreEligibility(estate: EstateParams, heirs: HeirParams, deductions: DeductionParams,
                                         heirs': HeirParams, deductions': DeductionParams)
    requires AtLeastAsEligible(heirs, deductions, heirs', deductions')
    ensures TotalDeductions(heirs, deductions) <= TotalDeductions(heirs', deductions')
    ensures Assessment(estate, heirs', deductions').finalTaxPayable <= Assessment(estate, heirs, deductions).finalTaxPayable
  {
    var a, a' := heirs.minorChildrenAges, heirs'.minorChildrenAges;
    assert a' == a + a'[|a|..];
    MinorTotalGrows(DEDUCTIONS.linealDescendant, a, a'[|a|..]);
    var s, s' := heirs.minorSiblingsAges, heirs'.minorSiblingsAges;
    assert s' == s + s'[|s|..];
    MinorTotalGrows(DEDUCTIONS.dependentSiblingGrandparent, s, s'[|s|..]);
    forall c: Category
      ensures CategoryAmount(c, heirs, deductions) <= CategoryAmount(c, heirs', deductions')
    {
    }
    TaxShrinksWithDeductions(estate, heirs, deductions, heirs', deductions');
  }

  // ---------------------------------------------------------------------
  // Worked scenarios
  // ---------------------------------------------------------------------

  /** An estate no larger than its exemption owes nothing, whatever the heirs and deductions. */
  lemma WithinExemptionOwesNothing(estate: EstateParams, heirs: HeirParams, deductions: DeductionParams)
    requires GrossEstate(estate) <= ExemptionFor(ExemptionKindOf(estate))
    ensures var r := Assessment(estate, heirs, deductions);
      r.taxableEstateValue == 0 && r.grossTax == 0.0 && r.finalTaxPayable == 0.0
  {
    StatutoryBracketSelection(0);
  }

  /** With no flag set, no count or value positive and no minor heir, there is
      neither a deduction line nor a deduction. */
  lemma NothingDeclaredNoDeduction(estate: EstateParams, heirs: HeirParams, deductions: DeductionParams)
    requires forall c :: !Active(c, heirs, deductions)
    ensures var r := Assessment(estate, heirs, deductions);
      r.deductionAmount == 0 && r.breakdown.deductionDetails == []
  {
    NoActiveNoLines(CATEGORY_ORDER, heirs, deductions);
    forall c: Category
      ensures CategoryAmount(c, heirs, deductions) == 0
    {
      ActiveIffPositive(c, heirs, deductions);
    }
  }

  /** An empty estate with nothing declared: the general exemption, or the
      duty-related one when the flag is set, no deduction line, and no tax. */
  lemma EmptyEstateOwesNothing(isDutyRelatedDeath: bool, heirs: HeirParams, deductions: DeductionParams)
    requires forall c :: !Active(c, heirs, deductions)
    ensures var r := Assessment(EstateParams(0, 0, 0, 0, isDutyRelatedDeath), heirs, deductions);
      r.totalEstateValue == 0 &&
      r.exemptionAmount == (if isDutyRelatedDeath then 26660000 else 13330000) &&
      r.deductionAmount == 0 && r.breakdown.deductionDetails == [] &&
      r.taxableEstateValue == 0 && r.finalTaxPayable == 0.0
  {
    var estate := EstateParams(0, 0, 0, 0, isDutyRelatedDeath);
    NothingDeclaredNoDeduction(estate, heirs, deductions);
    WithinExemptionOwesNothing(estate, heirs, deductions);
  }

  /** 100,000,000 of assets, a spouse, one child aged 10 and the funeral
      deduction: deductions 5,530,000 + 1,380,000 + (560,000 + 8 * 560,000),
      taxable 74,720,000 in the 15% bracket, tax 8,397,500. */
  lemma SpouseChildFuneralScenario()
    ensures var r := Assessment(EstateParams(100000000, 0, 0, 0, false),
                                HeirParams(true, 0, 0, [10], 0, [], 0, 0),
                                DeductionParams(true, 0, 0, 0, 0, 0));
      r.exemptionAmount == 13330000 && r.deductionAmount == 11950000 &&
      r.taxableEstateValue == 74720000 && r.taxBracketRate == 0.15 &&
      r.finalTaxPayable == 8397500.0
  {
    assert MinorTotal(560000, [10]) == 5040000 by {
      assert [10][..0] == [];
    }
    StatutoryBracketSelection(74720000);
  }
}
