/** The estate-tax calculation engine: the pure definition of every figure
    of the result (functions), and the calculator itself (methods), which
    builds the result step by step as the source does and is proved to
    produce exactly the defined result. */
module TaxCalculator {
  import opened Types
  import opened Rules

  // ---------------------------------------------------------------------
  // Specification: what each figure of the result is
  // ---------------------------------------------------------------------

  /** Gross estate: the four declared asset fields, nothing subtracted. */
  function GrossEstate(estate: EstateParams): nat {
    estate.totalRealEstate + estate.cashAndSavings + estate.stocksAndInvestments + estate.otherAssets
  }

  function ExemptionKindOf(estate: EstateParams): ExemptionKind {
    if estate.isDutyRelatedDeath then DutyRelatedExemption else GeneralExemption
  }

  function ExemptionFor(kind: ExemptionKind): nat {
    match kind
    case GeneralExemption => EXEMPTIONS.general
    case DutyRelatedExemption => EXEMPTIONS.dutyRelated
  }

  /** Deduction for one minor heir: the base, plus one yearly addition for
      every year still missing to the age of majority. */
  function MinorHeirDeduction(base: nat, age: nat): nat {
    if age < DEDUCTIONS.ageOfMajority
    then base + (DEDUCTIONS.ageOfMajority - age) * DEDUCTIONS.minorYearlyAddition
    else base
  }

  /** Sum of MinorHeirDeduction over a list of ages, accumulated from the front. */
  function MinorTotal(base: nat, ages: seq<nat>): nat {
    if |ages| == 0 then 0
    else MinorTotal(base, ages[..|ages| - 1]) + MinorHeirDeduction(base, ages[|ages| - 1])
  }

  /** A category is active, and gets a line, when its flag is set, its count
      or value is positive, or its age list is non-empty. */
  predicate Active(c: Category, heirs: HeirParams, deductions: DeductionParams) {
    match c
    case Spouse => heirs.hasSpouse
    case Parents => heirs.parentsCount > 0
    case AdultChildren => heirs.adultChildrenCount > 0
    case MinorChildren => |heirs.minorChildrenAges| > 0
    case Siblings => heirs.siblingsCount > 0
    case MinorSiblings => |heirs.minorSiblingsAges| > 0
    case Grandparents => heirs.grandparentsCount > 0
    case Disability => heirs.disabledDependentsCount > 0
    case Funeral => deductions.funeralExpenses
    case Debts => deductions.outstandingDebts > 0
    case UnpaidTaxes => deductions.unpaidTaxes > 0
    case PublicLand => deductions.publicLandValue > 0
    case FarmLand => deductions.farmingLandValue > 0
  }

  /** What a category contributes to the total deduction (0 when inactive). */
  function CategoryAmount(c: Category, heirs: HeirParams, deductions: DeductionParams): nat {
    match c
    case Spouse => if heirs.hasSpouse then DEDUCTIONS.spouse else 0
    case Parents => heirs.parentsCount * DEDUCTIONS.parent
    case AdultChildren => heirs.adultChildrenCount * DEDUCTIONS.linealDescendant
    case MinorChildren => MinorTotal(DEDUCTIONS.linealDescendant, heirs.minorChildrenAges)
    case Siblings => heirs.siblingsCount * DEDUCTIONS.dependentSiblingGrandparent
    case MinorSiblings => MinorTotal(DEDUCTIONS.dependentSiblingGrandparent, heirs.minorSiblingsAges)
    case Grandparents => heirs.grandparentsCount * DEDUCTIONS.dependentSiblingGrandparent
    case Disability => heirs.disabledDependentsCount * DEDUCTIONS.disability
    case Funeral => if deductions.funeralExpenses then DEDUCTIONS.funeral else 0
    case Debts => deductions.outstandingDebts
    case UnpaidTaxes => deductions.unpaidTaxes
    case PublicLand => deductions.publicLandValue
    case FarmLand => deductions.farmingLandValue
  }

  /** Number of persons a category's label shows. */
  function HeadCount(c: Category, heirs: HeirParams): nat {
    match c
    case Parents => heirs.parentsCount
    case AdultChildren => heirs.adultChildrenCount
    case MinorChildren => |heirs.minorChildrenAges|
    case Siblings => heirs.siblingsCount
    case MinorSiblings => |heirs.minorSiblingsAges|
    case Grandparents => heirs.grandparentsCount
    case Disability => heirs.disabledDependentsCount
    case _ => 0
  }

  function Item(c: Category, heirs: HeirParams, deductions: DeductionParams): LineItem {
    LineItem(c, HeadCount(c, heirs), CategoryAmount(c, heirs, deductions))
  }

  /** The deduction lines after considering category c: its item is pushed
      when the category is active, otherwise the lines are unchanged. */
  function Emit(lines: seq<LineItem>, c: Category, heirs: HeirParams, deductions: DeductionParams): seq<LineItem> {
    if Active(c, heirs, deductions) then lines + [Item(c, heirs, deductions)] else lines
  }

  /** The order in which the calculator considers the categories. */
  const CATEGORY_ORDER: seq<Category> := [
    Spouse, Parents, AdultChildren, MinorChildren, Siblings, MinorSiblings,
    Grandparents, Disability, Funeral, Debts, UnpaidTaxes, PublicLand, FarmLand
  ]

  /** Position of a category in CATEGORY_ORDER. */
  function Rank(c: Category): nat {
    match c
    case Spouse => 0
    case Parents => 1
    case AdultChildren => 2
    case MinorChildren => 3
    case Siblings => 4
    case MinorSiblings => 5
    case Grandparents => 6
    case Disability => 7
    case Funeral => 8
    case Debts => 9
    case UnpaidTaxes => 10
    case PublicLand => 11
    case FarmLand => 12
  }

  /** The lines of the categories cs, considered in the order of cs. */
  function Lines(cs: seq<Category>, heirs: HeirParams, deductions: DeductionParams): seq<LineItem> {
    if |cs| == 0 then [] else Emit(Lines(cs[..|cs| - 1], heirs, deductions), cs[|cs| - 1], heirs, deductions)
  }

  function DeductionLines(heirs: HeirParams, deductions: DeductionParams): seq<LineItem> {
    Lines(CATEGORY_ORDER, heirs, deductions)
  }

  /** Reference definition of the total deduction: every category's contribution. */
  function TotalDeductions(heirs: HeirParams, deductions: DeductionParams): nat {
    CategoryAmount(Spouse, heirs, deductions)
    + CategoryAmount(Parents, heirs, deductions)
    + CategoryAmount(AdultChildren, heirs, deductions)
    + CategoryAmount(MinorChildren, heirs, deductions)
    + CategoryAmount(Siblings, heirs, deductions)
    + CategoryAmount(MinorSiblings, heirs, deductions)
    + CategoryAmount(Grandparents, heirs, deductions)
    + CategoryAmount(Disability, heirs, deductions)
    + CategoryAmount(Funeral, heirs, deductions)
    + CategoryAmount(Debts, heirs, deductions)
    + CategoryAmount(UnpaidTaxes, heirs, deductions)
    + CategoryAmount(PublicLand, heirs, deductions)
    + CategoryAmount(FarmLand, heirs, deductions)
  }

  /** Sum of the amounts of a list of lines. */
  function SumAmounts(lines: seq<LineItem>): nat {
    if |lines| == 0 then 0 else SumAmounts(lines[..|lines| - 1]) + lines[|lines| - 1].amount
  }

  /** Net taxable estate: the gross less exemption and deductions, never below 0. */
  function TaxableEstate(gross: nat, exemption: nat, deductions: nat): nat {
    if gross <= exemption + deductions then 0 else gross - exemption - deductions
  }

  /** Index of the first bracket at or after `from` whose limit covers x. */
  function FindBracket(brackets: seq<Bracket>, x: nat, from: nat): Option<nat>
    decreases |brackets| - from
  {
    if from >= |brackets| then None
    else if Covers(brackets[from].limit, x) then Some(from)
    else FindBracket(brackets, x, from + 1)
  }

  /** The bracket the calculator uses: the first covering one, else the last. */
  function SelectBracketIndex(brackets: seq<Bracket>, x: nat): nat
    requires |brackets| > 0
  {
    match FindBracket(brackets, x, 0)
    case Some(i) => if i < |brackets| then i else |brackets| - 1
    case None => |brackets| - 1
  }

  /** The bracket formula before the floor: taxable * rate - quick deduction. */
  function BracketTax(b: Bracket, x: nat): real {
    (x as real) * b.rate - (b.quickDeduction as real)
  }

  function FloorAtZero(t: real): real {
    if t < 0.0 then 0.0 else t
  }

  /** The gross tax reported for a taxable value: its bracket's rate times the value. */
  function GrossTax(taxable: nat): real {
    (taxable as real) * TAX_BRACKETS[SelectBracketIndex(TAX_BRACKETS, taxable)].rate
  }

  /** The tax payable on a taxable value: the selected bracket's formula, floored at 0. */
  function TaxPayable(taxable: nat): real {
    FloorAtZero(BracketTax(TAX_BRACKETS[SelectBracketIndex(TAX_BRACKETS, taxable)], taxable))
  }

  /** The complete result the calculator must return. */
  function Assessment(estate: EstateParams, heirs: HeirParams, deductions: DeductionParams): TaxResult {
    AssessWith(estate, TotalDeductions(heirs, deductions), DeductionLines(heirs, deductions))
  }

  /** The result for an estate once its deductions are itemised. */
  function AssessWith(estate: EstateParams, deductionAmount: nat, lines: seq<LineItem>): TaxResult {
    var gross := GrossEstate(estate);
    var kind := ExemptionKindOf(estate);
    var exemption := ExemptionFor(kind);
    var taxable := TaxableEstate(gross, exemption, deductionAmount);
    var b := TAX_BRACKETS[SelectBracketIndex(TAX_BRACKETS, taxable)];
    TaxResult(
      gross, taxable, exemption, deductionAmount,
      GrossTax(taxable), b.rate, b.quickDeduction,
      TaxPayable(taxable),
      Breakdown([ExemptionLine(kind, exemption)], lines))
  }

  // ---------------------------------------------------------------------
  // Small facts the calculator's proof uses
  // ---------------------------------------------------------------------

  lemma LinesStep(cs: seq<Category>, k: nat, heirs: HeirParams, deductions: DeductionParams)
    requires k < |cs|
    ensures Lines(cs[..k + 1], heirs, deductions) == Emit(Lines(cs[..k], heirs, deductions), cs[k], heirs, deductions)
  {
    assert cs[..k + 1][..k] == cs[..k];
  }

  /** DeductionLines written out category by category. */
  lemma DeductionLinesUnfold(heirs: HeirParams, deductions: DeductionParams)
    ensures DeductionLines(heirs, deductions) ==
      var h, d := heirs, deductions;
      Emit(Emit(Emit(Emit(Emit(Emit(Emit(Emit(Emit(Emit(Emit(Emit(Emit([],
        Spouse, h, d), Parents, h, d), AdultChildren, h, d), MinorChildren, h, d),
        Siblings, h, d), MinorSiblings, h, d), Grandparents, h, d), Disability, h, d),
        Funeral, h, d), Debts, h, d), UnpaidTaxes, h, d), PublicLand, h, d), FarmLand, h, d)
  {
    var cs := CATEGORY_ORDER;
    LinesStep(cs, 0, heirs, deductions);
    LinesStep(cs, 1, heirs, deductions);
    LinesStep(cs, 2, heirs, deductions);
    LinesStep(cs, 3, heirs, deductions);
    LinesStep(cs, 4, heirs, deductions);
    LinesStep(cs, 5, heirs, deductions);
    LinesStep(cs, 6, heirs, deductions);
    LinesStep(cs, 7, heirs, deductions);
    LinesStep(cs, 8, heirs, deductions);
    LinesStep(cs, 9, heirs, deductions);
    LinesStep(cs, 10, heirs, deductions);
    LinesStep(cs, 11, heirs, deductions);
    LinesStep(cs, 12, heirs, deductions);
    assert cs[..0] == [];
    assert cs[..13] == cs;
  }

  lemma SumAmountsPush(lines: seq<LineItem>, item: LineItem)
    ensures SumAmounts(lines + [item]) == SumAmounts(lines) + item.amount
  {
    assert (lines + [item])[..|lines|] == lines;
  }

  /** Considering one more category adds exactly its contribution to the sum of the lines. */
  lemma EmitSum(lines: seq<LineItem>, c: Category, heirs: HeirParams, deductions: DeductionParams)
    ensures SumAmounts(Emit(lines, c, heirs, deductions)) == SumAmounts(lines) + CategoryAmount(c, heirs, deductions)
  {
    if Active(c, heirs, deductions) {
      SumAmountsPush(lines, Item(c, heirs, deductions));
    } else if c == MinorChildren || c == MinorSiblings {
      assert CategoryAmount(c, heirs, deductions) == MinorTotal(if c == MinorChildren then DEDUCTIONS.linealDescendant else DEDUCTIONS.dependentSiblingGrandparent, []);
    }
  }

  /** The deduction lines add up to the total deduction. */
  lemma ItemisationSum(heirs: HeirParams, deductions: DeductionParams)
    ensures SumAmounts(DeductionLines(heirs, deductions)) == TotalDeductions(heirs, deductions)
  {
    DeductionLinesUnfold(heirs, deductions);
    var h, d := heirs, deductions;
    var s0: seq<LineItem> := [];
    EmitSum(s0, Spouse, h, d);
    var s1 := Emit(s0, Spouse, h, d);
    EmitSum(s1, Parents, h, d);
    var s2 := Emit(s1, Parents, h, d);
    EmitSum(s2, AdultChildren, h, d);
    var s3 := Emit(s2, AdultChildren, h, d);
    EmitSum(s3, MinorChildren, h, d);
    var s4 := Emit(s3, MinorChildren, h, d);
    EmitSum(s4, Siblings, h, d);
    var s5 := Emit(s4, Siblings, h, d);
    EmitSum(s5, MinorSiblings, h, d);
    var s6 := Emit(s5, MinorSiblings, h, d);
    EmitSum(s6, Grandparents, h, d);
    var s7 := Emit(s6, Grandparents, h, d);
    EmitSum(s7, Disability, h, d);
    var s8 := Emit(s7, Disability, h, d);
    EmitSum(s8, Funeral, h, d);
    var s9 := Emit(s8, Funeral, h, d);
    EmitSum(s9, Debts, h, d);
    var s10 := Emit(s9, Debts, h, d);
    EmitSum(s10, UnpaidTaxes, h, d);
    var s11 := Emit(s10, UnpaidTaxes, h, d);
    EmitSum(s11, PublicLand, h, d);
    var s12 := Emit(s11, PublicLand, h, d);
    EmitSum(s12, FarmLand, h, d);
  }

  // ---------------------------------------------------------------------
  // The calculator
  // ---------------------------------------------------------------------

  /** The per-age accumulation of a minor-heir category. */
  method MinorDeduction(base: nat, ages: seq<nat>) returns (amount: nat)
    ensures amount == MinorTotal(base, ages)
  {
    amount := 0;
    for i := 0 to |ages|
      invariant amount == MinorTotal(base, ages[..i])
    {
      var each := base;
      if ages[i] < DEDUCTIONS.ageOfMajority {
        each := each + (DEDUCTIONS.ageOfMajority - ages[i]) * DEDUCTIONS.minorYearlyAddition;
      }
      assert ages[..i + 1][..i] == ages[..i];
      amount := amount + each;
    }
    assert ages[..|ages|] == ages;
  }

  /** The linear search for the first bracket whose inclusive limit covers x,
      falling back to the last bracket when none does. */
  method LookupBracket(brackets: seq<Bracket>, x: nat) returns (i: nat)
    requires |brackets| > 0
    ensures i < |brackets|
    ensures forall j :: 0 <= j < i ==> !Covers(brackets[j].limit, x)
    ensures Covers(brackets[i].limit, x) ||
            (i == |brackets| - 1 && forall j :: 0 <= j < |brackets| ==> !Covers(brackets[j].limit, x))
    ensures i == SelectBracketIndex(brackets, x)
  {
    i := 0;
    while i < |brackets| && !Covers(brackets[i].limit, x)
      invariant i <= |brackets|
      invariant forall j :: 0 <= j < i ==> !Covers(brackets[j].limit, x)
      invariant FindBracket(brackets, x, i) == FindBracket(brackets, x, 0)
    {
      i := i + 1;
    }
    if i == |brackets| {
      i := |brackets| - 1;
    }
  }

  /** The itemisation: one line pushed per active category, in the fixed
      order, and a running total to which each push adds the pushed amount. */
  method ItemiseDeductions(heirs: HeirParams, deductions: DeductionParams)
    returns (deductionDetails: seq<LineItem>, totalDeductions: int)
    ensures deductionDetails == DeductionLines(heirs, deductions)
    ensures totalDeductions == TotalDeductions(heirs, deductions)
  {
    deductionDetails, totalDeductions := [], 0;
    deductionDetails, totalDeductions := PushFamilyLines(deductionDetails, totalDeductions, heirs, deductions);
    deductionDetails, totalDeductions := PushDependentLines(deductionDetails, totalDeductions, heirs, deductions);
    deductionDetails, totalDeductions := PushDeclaredLines(deductionDetails, totalDeductions, heirs, deductions);
    DeductionLinesUnfold(heirs, deductions);
  }

  /** Spouse, parents, adult children and minor children. */
  method PushFamilyLines(details0: seq<LineItem>, total0: int, heirs: HeirParams, deductions: DeductionParams)
    returns (details: seq<LineItem>, total: int)
    ensures details == Emit(Emit(Emit(Emit(details0, Spouse, heirs, deductions), Parents, heirs, deductions), AdultChildren, heirs, deductions), MinorChildren, heirs, deductions)
    ensures total == total0 + CategoryAmount(Spouse, heirs, deductions) + CategoryAmount(Parents, heirs, deductions) + CategoryAmount(AdultChildren, heirs, deductions) + CategoryAmount(MinorChildren, heirs, deductions)
  {
    details, total := details0, total0;

    if heirs.hasSpouse {
      var item := LineItem(Spouse, 0, DEDUCTIONS.spouse);
      details := details + [item];
      total := total + DEDUCTIONS.spouse;
    }

    if heirs.parentsCount > 0 {
      var amount := heirs.parentsCount * DEDUCTIONS.parent;
      var item := LineItem(Parents, heirs.parentsCount, amount);
      details := details + [item];
      total := total + amount;
    }

    if heirs.adultChildrenCount > 0 {
      var amount := heirs.adultChildrenCount * DEDUCTIONS.linealDescendant;
      var item := LineItem(AdultChildren, heirs.adultChildrenCount, amount);
      details := details + [item];
      total := total + amount;
    }

    if |heirs.minorChildrenAges| > 0 {
      var amount := MinorDeduction(DEDUCTIONS.linealDescendant, heirs.minorChildrenAges);
      var item := LineItem(MinorChildren, |heirs.minorChildrenAges|, amount);
      details := details + [item];
      total := total + amount;
    }
  }

  /** Dependent siblings (flat count and by age), grandparents and disabled dependents. */
  method PushDependentLines(details0: seq<LineItem>, total0: int, heirs: HeirParams, deductions: DeductionParams)
    returns (details: seq<LineItem>, total: int)
    ensures details == Emit(Emit(Emit(Emit(details0, Siblings, heirs, deductions), MinorSiblings, heirs, deductions), Grandparents, heirs, deductions), Disability, heirs, deductions)
    ensures total == total0 + CategoryAmount(Siblings, heirs, deductions) + CategoryAmount(MinorSiblings, heirs, deductions) + CategoryAmount(Grandparents, heirs, deductions) + CategoryAmount(Disability, heirs, deductions)
  {
    details, total := details0, total0;

    if heirs.siblingsCount > 0 {
      var amount := heirs.siblingsCount * DEDUCTIONS.dependentSiblingGrandparent;
      var item := LineItem(Siblings, heirs.siblingsCount, amount);
      details := details + [item];
      total := total + amount;
    }

    if |heirs.minorSiblingsAges| > 0 {
      var amount := MinorDeduction(DEDUCTIONS.dependentSiblingGrandparent, heirs.minorSiblingsAges);
      var item := LineItem(MinorSiblings, |heirs.minorSiblingsAges|, amount);
      details := details + [item];
      total := total + amount;
    }

    if heirs.grandparentsCount > 0 {
      var amount := heirs.grandparentsCount * DEDUCTIONS.dependentSiblingGrandparent;
      var item := LineItem(Grandparents, heirs.grandparentsCount, amount);
      details := details + [item];
      total := total + amount;
    }

    if heirs.disabledDependentsCount > 0 {
      var amount := heirs.disabledDependentsCount * DEDUCTIONS.disability;
      var item := LineItem(Disability, heirs.disabledDependentsCount, amount);
      details := details + [item];
      total := total + amount;
    }
  }

  /** Funeral, debts, unpaid taxes and the two land deductions. */
  method PushDeclaredLines(details0: seq<LineItem>, total0: int, heirs: HeirParams, deductions: DeductionParams)
    returns (details: seq<LineItem>, total: int)
    ensures details == Emit(Emit(Emit(Emit(Emit(details0, Funeral, heirs, deductions), Debts, heirs, deductions), UnpaidTaxes, heirs, deductions), PublicLand, heirs, deductions), FarmLand, heirs, deductions)
    ensures total == total0 + CategoryAmount(Funeral, heirs, deductions) + CategoryAmount(Debts, heirs, deductions) + CategoryAmount(UnpaidTaxes, heirs, deductions) + CategoryAmount(PublicLand, heirs, deductions) + CategoryAmount(FarmLand, heirs, deductions)
  {
    details, total := details0, total0;

    if deductions.funeralExpenses {
      var item := LineItem(Funeral, 0, DEDUCTIONS.funeral);
      details := details + [item];
      total := total + DEDUCTIONS.funeral;
    }

    if deductions.outstandingDebts > 0 {
      var item := LineItem(Debts, 0, deductions.outstandingDebts);
      details := details + [item];
      total := total + deductions.outstandingDebts;
    }

    if deductions.unpaidTaxes > 0 {
      var item := LineItem(UnpaidTaxes, 0, deductions.unpaidTaxes);
      details := details + [item];
      total := total + deductions.unpaidTaxes;
    }

    if deductions.publicLandValue > 0 {
      var item := LineItem(PublicLand, 0, deductions.publicLandValue);
      details := details + [item];
      total := total + deductions.publicLandValue;
    }

    if deductions.farmingLandValue > 0 {
      var item := LineItem(FarmLand, 0, deductions.farmingLandValue);
      details := details + [item];
      total := total + deductions.farmingLandValue;
    }
  }

  /** The bracket phase: look up the bracket of the taxable value, apply
      rate * taxable - quick deduction, and floor the result at 0; the gross
      tax reported beside it is rate * taxable. */
  method ApplyBrackets(taxableEstateValue: nat)
    returns (grossTax: real, taxBracketRate: real, progressiveDifference: nat, finalTaxPayable: real)
    ensures var b := TAX_BRACKETS[SelectBracketIndex(TAX_BRACKETS, taxableEstateValue)];
      taxBracketRate == b.rate && progressiveDifference == b.quickDeduction
    ensures grossTax == GrossTax(taxableEstateValue)
    ensures finalTaxPayable == TaxPayable(taxableEstateValue)
  {
    var index := LookupBracket(TAX_BRACKETS, taxableEstateValue);
    var bracket := TAX_BRACKETS[index];
    taxBracketRate := bracket.rate;
    progressiveDifference := bracket.quickDeduction;
    finalTaxPayable := (taxableEstateValue as real) * taxBracketRate - (progressiveDifference as real);
    if finalTaxPayable < 0.0 {
      finalTaxPayable := 0.0;
    }
    grossTax := (taxableEstateValue as real) * taxBracketRate;
  }

  /** The estate-tax calculation: one pass that sums the estate, picks the
      exemption, pushes one line per active deduction category while
      accumulating their total, floors the net estate, looks up the bracket
      and applies the floored bracket formula. */
  method CalculateTax(estate: EstateParams, heirs: HeirParams, deductions: DeductionParams)
    returns (r: TaxResult)
    ensures r == Assessment(estate, heirs, deductions)
  {
    var totalEstateValue := estate.totalRealEstate + estate.cashAndSavings
                            + estate.stocksAndInvestments + estate.otherAssets;
    var exemptionAmount := if estate.isDutyRelatedDeath then EXEMPTIONS.dutyRelated else EXEMPTIONS.general;
    assert exemptionAmount == ExemptionFor(ExemptionKindOf(estate));

    var deductionDetails, totalDeductions := ItemiseDeductions(heirs, deductions);

    var net: int := totalEstateValue - exemptionAmount - totalDeductions;
    if net < 0 {
      net := 0;
    }
    var taxableEstateValue: nat := net;
    assert taxableEstateValue == TaxableEstate(totalEstateValue, exemptionAmount, totalDeductions);

    var grossTax, taxBracketRate, progressiveDifference, finalTaxPayable := ApplyBrackets(taxableEstateValue);

    r := TaxResult(
      totalEstateValue, taxableEstateValue, exemptionAmount, totalDeductions,
      grossTax, taxBracketRate, progressiveDifference,
      finalTaxPayable,
      Breakdown(
        [ExemptionLine(if estate.isDutyRelatedDeath then DutyRelatedExemption else GeneralExemption, exemptionAmount)],
        deductionDetails));
    assert r == AssessWith(estate, totalDeductions, deductionDetails);
  }
}
