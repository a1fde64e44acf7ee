/** The statutory rule table in force for 2025 (ROC year 114), in New
    Taiwan Dollars: exemptions, per-category deductions and the three
    progressive brackets with their quick deductions. */
module Rules {

  datatype ExemptionTable = ExemptionTable(general: nat, dutyRelated: nat)

  datatype DeductionTable = DeductionTable(
    spouse: nat,
    parent: nat,                       // per parent
    linealDescendant: nat,             // per child, also the base for a minor child
    dependentSiblingGrandparent: nat,  // per person, also the base for a minor sibling
    disability: nat,                   // per person
    funeral: nat,
    minorYearlyAddition: nat,          // per year still missing to majority
    ageOfMajority: nat)

  const EXEMPTIONS: ExemptionTable := ExemptionTable(13330000, 26660000)

  const DEDUCTIONS: DeductionTable :=
    DeductionTable(5530000, 1380000, 560000, 560000, 6930000, 1380000, 560000, 18)

  /** Inclusive upper limit of a bracket; the last bracket has none. */
  datatype Limit = Bounded(value: nat) | Unbounded

  /** A progressive bracket: tax = taxable * rate - quickDeduction. */
  datatype Bracket = Bracket(limit: Limit, rate: real, quickDeduction: nat)

  const TAX_BRACKETS: seq<Bracket> := [
    Bracket(Bounded(56210000), 0.10, 0),
    Bracket(Bounded(112420000), 0.15, 2810500),
    Bracket(Unbounded, 0.20, 8431500)
  ]

  /** Does a bracket with this limit take a taxable value of x? */
  predicate Covers(limit: Limit, x: nat) {
    match limit
    case Unbounded => true
    case Bounded(v) => x <= v
  }

  /** Strict order on limits, with Unbounded above every bound. */
  predicate LimitBelow(a: Limit, b: Limit) {
    match (a, b)
    case (Bounded(u), Bounded(v)) => u < v
    case (Bounded(_), Unbounded) => true
    case (Unbounded, _) => false
  }

  /** The duty-related exemption is exactly double the general one. */
  lemma DutyRelatedDoublesGeneral()
    ensures EXEMPTIONS.dutyRelated == 2 * EXEMPTIONS.general
  {
  }

  /** Limits and rates strictly ascend, and only the last bracket is unbounded. */
  lemma BracketsAscending()
    ensures |TAX_BRACKETS| == 3
    ensures forall i, j :: 0 <= i < j < |TAX_BRACKETS| ==>
      LimitBelow(TAX_BRACKETS[i].limit, TAX_BRACKETS[j].limit) &&
      TAX_BRACKETS[i].rate < TAX_BRACKETS[j].rate
    ensures TAX_BRACKETS[|TAX_BRACKETS| - 1].limit == Unbounded
    ensures forall i :: 0 <= i < |TAX_BRACKETS| - 1 ==> TAX_BRACKETS[i].limit.Bounded?
  {
  }
}
