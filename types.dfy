/** Record shapes of the estate-tax calculator: the three input snapshots
    and the itemised result, plus the tags that stand for display labels. */
module Types {

  datatype Option<T> = None | Some(value: T)

  /** Gross asset declaration of the estate. */
  datatype EstateParams = EstateParams(
    totalRealEstate: nat,       // land and house, assessed value
    cashAndSavings: nat,
    stocksAndInvestments: nat,
    otherAssets: nat,
    isDutyRelatedDeath: bool)   // died in the line of duty (doubles the exemption)

  /** Heirs whose presence gives rise to a deduction. Ages are whole years,
      one entry per minor heir, duplicates allowed. */
  datatype HeirParams = HeirParams(
    hasSpouse: bool,
    parentsCount: nat,
    adultChildrenCount: nat,
    minorChildrenAges: seq<nat>,
    siblingsCount: nat,
    minorSiblingsAges: seq<nat>,
    grandparentsCount: nat,
    disabledDependentsCount: nat)

  /** Declared deductions. `funeralExpensesActual` is part of the input
      contract but never read by the calculation. */
  datatype DeductionParams = DeductionParams(
    funeralExpenses: bool,      // standard funeral deduction elected
    funeralExpensesActual: nat,
    outstandingDebts: nat,
    unpaidTaxes: nat,
    publicLandValue: nat,       // public-facility reserved land
    farmingLandValue: nat)      // agricultural land in agricultural use

  /** The thirteen deduction categories, declared in the order in which
      the calculator emits their lines. */
  datatype Category =
    | Spouse
    | Parents
    | AdultChildren
    | MinorChildren
    | Siblings
    | MinorSiblings
    | Grandparents
    | Disability
    | Funeral
    | Debts
    | UnpaidTaxes
    | PublicLand
    | FarmLand

  /** One deduction line of the breakdown. The category stands for the display
      label; `headcount` is the number of persons the label shows (0 for the
      labels that show none: spouse, funeral, debts, taxes and the two land lines). */
  datatype LineItem = LineItem(category: Category, headcount: nat, amount: nat)

  /** Which of the two exemptions applies; stands for the exemption label. */
  datatype ExemptionKind = GeneralExemption | DutyRelatedExemption

  datatype ExemptionLine = ExemptionLine(kind: ExemptionKind, amount: nat)

  datatype Breakdown = Breakdown(
    exemptionDetails: seq<ExemptionLine>,
    deductionDetails: seq<LineItem>)

  /** The result record. Tax figures are exact rationals; money inputs and
      intermediate totals are whole currency units. */
  datatype TaxResult = TaxResult(
    totalEstateValue: nat,
    taxableEstateValue: nat,
    exemptionAmount: nat,
    deductionAmount: nat,
    grossTax: real,
    taxBracketRate: real,
    progressiveDifference: nat,
    finalTaxPayable: real,
    breakdown: Breakdown)
}
