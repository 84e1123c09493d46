# Package sorter — a verified model

The repository is a single classifier, `PackageSorter.sort`. It takes a
package's width, height and length in centimetres and its mass in kilograms.
It sends the package to one of three handling stacks: `STANDARD`, `SPECIAL` or
`REJECTED`. It uses three fixed limits:

- a volume limit of 1,000,000 cm³;
- a single-side limit of 150 cm;
- a mass limit of 20 kg.

The rule works as follows:

- A package is *bulky* when its volume reaches the volume limit or any side
  reaches the side limit.
- A package is *heavy* when its mass reaches the mass limit.
- Every limit is inclusive.
- Bulky and heavy gives `REJECTED`. Exactly one of the two gives `SPECIAL`.
  Neither gives `STANDARD`.
- Before any of this, every argument must be strictly positive. Otherwise the
  call throws.

`PackageSorter.dfy` holds one module, `PackageSorter`, with these parts:

- The stacks (`Stack`, PackageSorter.ts:3-7) are a datatype.
- The three limits (PackageSorter.ts:12-14) are the module constants
  `BulkyMaxVolumeCm`, `BulkyMaxDimensionLengthCm` and `HeavyMaxMassKg`.
  The source's `readonly` fields never change, so no class is needed.
- The private helpers (`validateInput`, `volume`, `exceedsMaxDimension`,
  `exceedsMaxVolume`, `isBulky`, `isHeavy`) and `sort` are pure functions.
- The thrown validation error becomes the `Err` case of a `Result`.
- The `.some` over the list `[width, height, length]` is modelled by the
  recursive function `AnyAtLeast`, whose contract is the existential it
  computes.

Beyond the decision table, the model proves two properties of the rule:

- A stack's rank (0, 1, 2) is the number of limits the package reaches.
- Sorting is monotone: a package that is at least as large in every dimension
  and at least as heavy never goes to a less severe stack.

## Model

| member | source | states |
|---|---|---|
| PackageSorter.ValidateInput | PackageSorter.ts:17-31 | validation passes exactly when all four arguments are > 0; on failure the error names precisely the arguments that are ≤ 0, each checked on its own |
| PackageSorter.Volume | PackageSorter.ts:34-36 | the volume of a package with positive sides is positive |
| PackageSorter.AnyAtLeast | PackageSorter.ts:40-42 | the `.some` over the sides holds exactly when some side reaches the limit |
| PackageSorter.ExceedsMaxDimension | PackageSorter.ts:39-43 | true exactly when width, height or length is ≥ 150 |
| PackageSorter.ExceedsMaxVolume | PackageSorter.ts:46-48 | the volume limit is that of a 100 cm cube: all sides ≥ 100 exceeds it, all sides in (0, 100) does not |
| PackageSorter.IsBulky | PackageSorter.ts:51-56 | bulky exactly when volume ≥ 1,000,000 or some side ≥ 150 |
| PackageSorter.IsHeavy | PackageSorter.ts:59-61 | heavy exactly when mass ≥ 20 (inclusive; see ThresholdsInclusive) |
| PackageSorter.Sort | PackageSorter.ts:64-82 | fails exactly when some argument is ≤ 0, with the validation error unchanged; otherwise REJECTED iff bulky and heavy, SPECIAL iff exactly one of them, STANDARD iff neither |
| PackageSorter.VolumeMonotone | PackageSorter.ts:34-36 | growing any side of a package never decreases its volume |
| PackageSorter.VolumeBelowCube | PackageSorter.ts:46-48 | a package whose sides are all under 100 is under the volume limit |
| PackageSorter.ExceedsMaxVolumeCube | PackageSorter.ts:46-48 | a package whose sides all reach 100 is at or over the volume limit; one whose sides all lie in (0, 100) is under it |
| PackageSorter.SortAcceptsPositive | PackageSorter.ts:23-30 | sort never fails on strictly positive arguments, decimals included (1.2, 2.1, 3.1, 4.1) |
| PackageSorter.SortRejectsEachNonPositive | PackageSorter.ts:23-30 | any single argument ≤ 0 makes sort fail, and the error names that argument |
| PackageSorter.SeverityCountsLimits | PackageSorter.ts:75-81 | the stack's rank equals the number of limits (bulk, mass) the package reaches |
| PackageSorter.SortMonotone | PackageSorter.ts:51-81 | a package at least as large in every dimension and at least as heavy is valid and goes to a stack at least as severe |
| PackageSorter.ThresholdsInclusive | PackageSorter.ts:40-60 | 100³ = 1,000,000; the 100 cm cube of mass 20 is bulky, heavy and REJECTED; a side of 150 is bulky and 149 is not; mass 19 is not heavy; (149,10,10,19) is STANDARD and (150,10,10,5) is SPECIAL |
| PackageSorter.TestFixtures | PackageSorter.test.ts:22-59 | the five fixtures of the test suite sort to REJECTED, REJECTED, SPECIAL, SPECIAL and STANDARD, as the tests expect |

## Left out

- Floating point: measurements are exact reals. IEEE-754 rounding in the volume product is not modelled. Neither is the `Math.cbrt` that builds the test fixtures: the fixture cube side is taken as exactly 100.
- NaN, infinities and non-numeric arguments: reals have none of them, so the model cannot express those calls. The code relies on `z.number().positive()`, which rejects NaN and non-numbers. No `.finite()` check is applied, so the model makes no claim about infinities.
- The validation library (zod): replaced by an explicit positivity check. Its error object is reduced to the list of offending arguments, in schema order. Its messages and issue codes are not modelled.
- Throwing: a failed validation is the `Err` case of the result, not an exception.
- The `PackageSorter` class and its instance: its only fields are constants, so the model uses module constants and plain functions.
- Module exports, the `StackKey` type alias and the test harness are not modelled.
