# Estate-tax calculator

A Dafny model of the estate-tax engine `calculateTax` in `utils/taxCalculator.ts`, and of the rule table it reads from `constants.ts`. The calculator computes Taiwanese estate tax under the rules for 2025 (ROC year 114), in New Taiwan Dollars. It takes an estate, heir and deduction snapshot and, in one pass:

- sums the gross estate;
- picks exactly one exemption (general, or duty-related for a death in the line of duty);
- pushes one deduction line per active category in a fixed order, while accumulating their total;
- floors the net taxable estate at 0;
- picks the first progressive bracket whose inclusive limit covers the taxable value;
- returns `taxable * rate - quick deduction`, floored at 0, with the breakdown.

Modules:

- `Types` (`types.dfy`): the input and result records of `types.ts`. A deduction line's label is a `Category` tag plus the headcount that the label shows (0 for labels without a count).
- `Rules` (`constants.dfy`): the exemption table, the deduction table and the three brackets. The last bracket's `Infinity` limit is `Unbounded`.
- `TaxCalculator` (`tax_calculator.dfy`):
  - a pure definition of every figure of the result, ending in `Assessment`;
  - the calculator itself as imperative methods. They push onto a sequence, accumulate a running total, sum ages in a loop and search the brackets linearly. `CalculateTax` is proved to return exactly `Assessment` of its inputs.
- `TaxProperties` (`tax_properties.dfy`): what the calculator promises, proved about `Assessment`. Through `CalculateTax`'s postcondition these facts also hold of the calculator.

Representation:

- Money, counts and ages are `nat`.
- The rates 0.10, 0.15 and 0.20 are exact `real`s.
- The gross and final tax are `real`.

Because `CalculateTax` returns the value of a function of its inputs, calling it twice on equal inputs gives equal results.

## Model

| member | source | states |
|---|---|---|
| Rules.DutyRelatedDoublesGeneral | constants.ts:4-7 | the duty-related exemption (26,660,000) is exactly twice the general one (13,330,000) |
| Rules.BracketsAscending | constants.ts:25-29 | three brackets; limits and rates strictly ascend; every bracket but the last is bounded, and the last is unbounded |
| TaxCalculator.MinorDeduction | utils/taxCalculator.ts:48-57 | the per-age loop returns the sum over the ages of base + (18 - age) * 560,000 for each age under 18, and base otherwise |
| TaxCalculator.LookupBracket | utils/taxCalculator.ts:134 | the linear search returns the first bracket whose inclusive limit covers x; if none covers x it returns the last bracket, and no earlier bracket covers x |
| TaxCalculator.PushFamilyLines | utils/taxCalculator.ts:26-60 | spouse, parents, adult and minor children: a line is pushed only for an active category; the total grows by exactly each category's amount |
| TaxCalculator.PushDependentLines | utils/taxCalculator.ts:62-95 | siblings, minor siblings, grandparents and disability, with the same push-and-add guarantee |
| TaxCalculator.PushDeclaredLines | utils/taxCalculator.ts:97-121 | funeral, debts, unpaid taxes, public land and farm land, with the same push-and-add guarantee |
| TaxCalculator.ItemiseDeductions | utils/taxCalculator.ts:23-121 | the itemisation produces the defined line list and the defined total deduction |
| TaxCalculator.ItemisationSum | utils/taxCalculator.ts:23-121 | the amounts of the deduction lines add up to the total deduction |
| TaxCalculator.ApplyBrackets | utils/taxCalculator.ts:127-140 | rate and quick deduction are those of the selected bracket; the final tax is the floored bracket formula; the gross tax is rate * taxable |
| TaxCalculator.CalculateTax | utils/taxCalculator.ts:4-158 | the calculator returns exactly the defined result `Assessment` for every input |
| TaxProperties.GrossEstateIsAssetSum | utils/taxCalculator.ts:13-17 | the total estate value is the sum of the four asset fields, with nothing deducted |
| TaxProperties.SingleExemptionLine | utils/taxCalculator.ts:152-154 | the exemption is 26,660,000 when the death is duty-related and 13,330,000 otherwise; there is exactly one exemption line; its amount is the exemption and its kind follows the flag |
| TaxProperties.MinorTotalAppend | utils/taxCalculator.ts:49-57 | the minor-heir sum over a concatenation is the sum of the two parts |
| TaxProperties.MinorHeirContribution | utils/taxCalculator.ts:49-57 | each minor heir at any position contributes base + (18 - age) * 560,000 when under 18, and only the base otherwise |
| TaxProperties.MinorTotalBounds | utils/taxCalculator.ts:47-60 | n minor heirs contribute at least n bases and at most n * (base + 18 * 560,000) |
| TaxProperties.MinorTotalPositive | utils/taxCalculator.ts:47-60 | with a positive base, the minor-heir sum is positive iff the age list is non-empty |
| TaxProperties.MinorTotalGrows | utils/taxCalculator.ts:49-57 | adding minor heirs to the list never lowers the minor-heir sum |
| TaxProperties.ActiveIffPositive | utils/taxCalculator.ts:27-121 | a category is active (flag set, count or value positive, age list non-empty) iff its amount is positive |
| TaxProperties.LinesAreActiveItems | utils/taxCalculator.ts:27-121 | every emitted line belongs to an active category considered, and carries that category's headcount and amount |
| TaxProperties.ActiveCategoriesEmitted | utils/taxCalculator.ts:27-121 | every active category considered has a line |
| TaxProperties.LinesOrdered | utils/taxCalculator.ts:27-121 | the lines come in the order in which their categories are considered |
| TaxProperties.CategoryOrderComplete | utils/taxCalculator.ts:26-121 | the calculator considers all 13 categories, in a strictly ascending fixed order |
| TaxProperties.NoActiveNoLines | utils/taxCalculator.ts:23-121 | with no active category there is no line |
| TaxProperties.DeductionLinesCharacterized | utils/taxCalculator.ts:26-121 | a line for a category is emitted iff the category is active; each line carries its category's headcount and a positive amount; the lines are ordered spouse, parents, adult children, minor children, siblings, minor siblings, grandparents, disability, funeral, debts, taxes, public land, farm land |
| TaxProperties.DeductionAmountIsSumOfLines | utils/taxCalculator.ts:146 | the reported deduction amount is the sum of the amounts in the deduction breakdown |
| TaxProperties.SiblingLinesBothCount | utils/taxCalculator.ts:64-82 | with both a sibling count and minor-sibling ages, both lines are emitted and both amounts count toward the total |
| TaxProperties.LinesAgree | utils/taxCalculator.ts:27-121 | the lines depend on the deduction inputs only through the categories' activity and amounts |
| TaxProperties.FuneralActualIgnored | utils/taxCalculator.ts:97-101 | changing the actual funeral expense changes no output at all |
| TaxProperties.TaxableFloor | utils/taxCalculator.ts:124-125 | the taxable estate is 0 iff total <= exemption + deductions; otherwise it is total - exemption - deductions; it never exceeds the total |
| TaxProperties.FindBracketFirstMatch | utils/taxCalculator.ts:134 | the search from a position returns the first covering bracket at or after it, or nothing when no later bracket covers the value |
| TaxProperties.SelectBracketIsFirstMatch | utils/taxCalculator.ts:134 | the selected bracket is the first covering one; only when none covers is it the last |
| TaxProperties.StatutoryBracketSelection | constants.ts:25-29 | with the statutory table some bracket always covers, so the fallback is never taken; the bracket is 0 up to 56,210,000, 1 up to 112,420,000, and 2 above |
| TaxProperties.ResultBracket | utils/taxCalculator.ts:134-137 | the reported rate and quick deduction are 10%/0, 15%/2,810,500 or 20%/8,431,500, according to the two limits |
| TaxProperties.ContinuousAtFirstLimit | constants.ts:22-27 | at 56,210,000 both the first and the second bracket formulas give 5,621,000 |
| TaxProperties.ContinuousAtSecondLimit | constants.ts:23-28 | at 112,420,000 both the second and the third bracket formulas give 14,052,500 |
| TaxProperties.QuickDeductionIsMarginal | constants.ts:21-29 | rate * taxable - quick deduction equals taxing each slice at its own bracket's rate; the result is never negative, so the tax payable equals it |
| TaxProperties.FirstBracketIsTenPercent | constants.ts:26 | up to 56,210,000 the tax is exactly 10% of the taxable value |
| TaxProperties.TaxPayableMonotone | utils/taxCalculator.ts:134-140 | the tax payable never decreases as the taxable value grows |
| TaxProperties.GrossLessQuickDeduction | utils/taxCalculator.ts:138-140 | for every taxable value, the tax payable is the gross tax minus the quick deduction, and lies between 0 and the gross tax |
| TaxProperties.FinalTaxBounds | utils/taxCalculator.ts:138-147 | the final tax is the gross tax minus the progressive difference, lies between 0 and the gross tax, and the gross tax is taxable * rate |
| TaxProperties.TaxGrowsWithAssets | utils/taxCalculator.ts:13-140 | raising any asset field, with the duty flag fixed, never lowers the final tax |
| TaxProperties.TaxShrinksWithDeductions | utils/taxCalculator.ts:124-140 | a larger total deduction never raises the final tax |
| TaxProperties.TaxNeverRisesWithMoreEligibility | utils/taxCalculator.ts:23-140 | more heirs of any kind, more minor heirs appended, or larger declared deductions give a total deduction at least as large and a final tax no larger |
| TaxProperties.WithinExemptionOwesNothing | utils/taxCalculator.ts:124-140 | an estate no larger than its exemption has taxable value 0, gross tax 0 and final tax 0 |
| TaxProperties.NothingDeclaredNoDeduction | utils/taxCalculator.ts:23-121 | with nothing active there is neither a deduction line nor a deduction |
| TaxProperties.EmptyEstateOwesNothing | utils/taxCalculator.ts:4-158 | an empty estate with nothing declared has the general exemption, or the duty-related one when that flag is set, no deductions, taxable value 0 and tax 0 |
| TaxProperties.SpouseChildFuneralScenario | utils/taxCalculator.ts:4-158 | 100,000,000 of assets, a spouse, one child aged 10 and the funeral deduction give 11,950,000 of deductions, taxable value 74,720,000, the 15% bracket and tax 8,397,500 |

## Left out

- `App.tsx` and `components/` (form state, list editing of minor heirs, rendering, charts) are not part of this model. They only gather the inputs and display `TaxResult`. This includes the form binding that shows `siblingsCount + grandparentsCount` but writes only `siblingsCount`.
- `formatCurrency` and `formatNumber` in `constants.ts` are not modelled. They are display formatting over the platform number formatter.
- JavaScript floating point is not modelled. Inputs are exact non-negative integers and the tax is exact rational arithmetic, so rounding of `taxable * 0.15` and similar products does not appear.
- The `|| 0` fallbacks for missing or NaN inputs are not modelled, because every input is a `nat`. The input widget's `parseFloat(...) || 0` coercion, and negative or non-finite inputs, are likewise outside the model.
- The label text of the breakdown lines is represented by a `Category` tag plus the headcount the label shows. The Chinese strings are display text.
- `MinorHeirInput.id` is not modelled. It exists only for editing the list in the form, and the calculator sees only the ages.
- `funeralExpensesActual` is kept as an input. As in the code, nothing reads it; `FuneralActualIgnored` proves this.
- Input validation is not modelled, because the code has none. The system's design calls for rejecting negative or non-finite inputs (`InvalidInput`) and a malformed rule table (`ConfigurationError`), but the code validates neither. The model follows the code: every `nat` input is accepted. The table's well-formedness is proved once (`BracketsAscending`) rather than checked at run time.
- The rule table is a fixed constant, as in the code, rather than swappable by effective date.
- The itemisation is one function body in the code. The model splits it into three push methods (`PushFamilyLines`, `PushDependentLines`, `PushDeclaredLines`) called in sequence, with the same branches in the same order. The bracket phase is likewise a separate method, `ApplyBrackets`.
- `totalDeductions` is accumulated in an `int` local and returned as `nat`. Every step adds a non-negative amount, as in the code.
