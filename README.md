# Pro forma cost buildup, modelled in Dafny

This project models the opening of the pro forma calculation of a real-estate
development app: the function `calculateProForma(projectData, selectedType)`.
From a project's areas, rates and tenant list it derives the rentable and
useable areas (percentages of the gross building area), the site area (land
acres converted at 43,560 square feet per acre), the site area left once the
building is taken out, and the tenant-improvement (TI) total. An office prices
TI on the whole gross area at the office TI rate. Every other property type, and
no type at all, sums each tenant's area times its TI rate. The function returns
exactly four values: rentable area, useable area, site area and TI total.

Everything is a pure function on values, as in the source:

- `wrappers.dfy`: `Option` (JavaScript's `null`/`undefined` versus a value) and `Result` (a value versus a thrown error).
- `calculations.dfy` (module `Calculations`): the entities (`Tenant`, `PropertyType`, `ProjectData`, the returned `ProForma`) and the computation.
  - `ReduceTI` is the source's `Array.reduce`, a left fold from a starting accumulator.
  - `SumTI` is the structural sum. It serves as the reference definition, and the laws of the fold are proved about it.
- `property_defaults.dfy` (module `PropertyDefaults`): the retail and office presets, as worked examples of the cost buildup.
  - The four retail suites give a TI total of 2800·35 + 1200·35 + 2500·35 + 2500·35 = 315,000.
  - The office preset gives 11,700 rentable, 10,800 useable, 101,494.8 site and 720,000 TI.

Modelling choices:

- Quantities are exact `real`s.
- `selectedType` is an `Option<PropertyType>`. Following the optional chaining `selectedType?.id === 'office'`, an absent type is not an office.
- `tenants` is an `Option<seq<Tenant>>`. The office preset has no tenant list, and the office branch never reads it. For any other type, the reduce over a missing list throws a TypeError. The model returns `Failure(TenantsMissing)` in that case.
- The site-less-building area (`SiteLessBuildingSF`) is computed and dropped, as in the source. It is not a field of `ProForma`.
- No property type is rejected: every non-office type, including hotel, condo, senior, mixed and an unknown id, takes the tenant-sum branch (src/utils/calculations.js:10-12). `TotalTI` and `OfficeDefaultsOtherType` state this.

## Model

| member | source | states |
|---|---|---|
| `Calculations.PercentOf` | src/utils/calculations.js:4-5 | a percentage of an area: 0% gives 0, 100% gives the whole area, and a percentage in [0, 100] of a non-negative area lies between 0 and that area |
| `Calculations.RentableSF` | src/utils/calculations.js:4 | rentable area lies in [0, gross area] when gross ≥ 0 and the rentable percentage is in [0, 100]; at 100% it equals gross area |
| `Calculations.UseableSF` | src/utils/calculations.js:5 | useable area lies in [0, gross area] when gross ≥ 0 and the useable percentage is in [0, 100]; at 100% it equals gross area |
| `Calculations.PercentOfMonotone` | src/utils/calculations.js:4-5 | on a positive gross area, the derived area is monotone in the percentage, in both directions |
| `Calculations.RentableAtMostUseable` | src/utils/calculations.js:4-5 | on a positive gross area, rentable ≤ useable exactly when rentable% ≤ useable% |
| `Calculations.SiteAreaSF` | src/utils/calculations.js:6 | site area is zero exactly when the acreage is zero and non-negative exactly when the acreage is; dividing it by 43,560 gives back the acreage |
| `Calculations.SiteAreaMonotone` | src/utils/calculations.js:6 | site area is ordered as the acreages are, and equal exactly when the acreages are |
| `Calculations.SiteAreaLinear` | src/utils/calculations.js:6 | site area is additive and homogeneous in the acreage |
| `Calculations.SiteLessBuildingSF` | src/utils/calculations.js:7 | site-less-building area is non-negative exactly when the building fits on the site; it is at most the site area exactly when gross area is non-negative; adding gross area back gives the site area |
| `Calculations.TenantTI` | src/utils/calculations.js:12 | one tenant's contribution, sqft × tiPerSF: non-negative for a non-negative area and rate, and zero when either is zero |
| `Calculations.ReduceTI` | src/utils/calculations.js:12 | the reduce as a left fold of the callback from a starting accumulator: the empty list returns the accumulator, and non-negative contributions never bring the result below it; `ReduceIsSum` ties it to `SumTI` |
| `Calculations.ReduceIsSum` | src/utils/calculations.js:12 | the reduce from any starting accumulator adds the structural TI sum to it |
| `Calculations.SumTIEmpty` | src/utils/calculations.js:12 | an empty tenant list gives a TI total of 0, for both the reduce and the sum |
| `Calculations.SumTIAppend` | src/utils/calculations.js:12 | appending a tenant adds exactly its sqft × tiPerSF, for both the reduce and the sum |
| `Calculations.SumTIConcat` | src/utils/calculations.js:12 | the TI total of two lists joined is the sum of their totals |
| `Calculations.SumTIRemoveAt` | src/utils/calculations.js:12 | taking one tenant out of the list removes exactly its TI from the total |
| `Calculations.SumTIPermutation` | src/utils/calculations.js:12 | two tenant lists with the same multiset of tenants have the same TI total (order does not matter) |
| `Calculations.SumTINonNegative` | src/utils/calculations.js:12 | non-negative areas and TI rates give a non-negative TI total |
| `Calculations.SumTIUniformRate` | src/utils/calculations.js:12 | when all tenants share one TI rate, the total is that rate times the total leased area |
| `Calculations.IsOffice` | src/utils/calculations.js:10 | only a present type can be office; `IsOfficeExactId` shows the comparison is exact and case-sensitive |
| `Calculations.IsOfficeExactId` | src/utils/calculations.js:10 | `"office"` selects the office branch; no type, `"Office"`, `"OFFICE"`, `"retail"` and the empty id do not |
| `Calculations.TotalTI` | src/utils/calculations.js:10-12 | for an office: gross area × office TI rate. For any other or absent type with a tenant list: the structural TI sum of that list. It fails exactly when the type is not office and the tenant list is missing |
| `Calculations.CalculateProForma` | src/utils/calculations.js:3-24 | succeeds exactly when the type is office or a tenant list exists; the four returned fields are the rentable area, useable area, site area and TI total as defined above |
| `Calculations.OfficeIgnoresTenants` | src/utils/calculations.js:10-11 | for an office the call always succeeds, and its whole result is unchanged by replacing, adding or removing the tenant list; TI is gross area × office TI rate |
| `Calculations.TenantOrderIrrelevant` | src/utils/calculations.js:12 | reordering the tenants leaves the whole result unchanged |
| `Calculations.ProFormaBounds` | src/utils/calculations.js:3-23 | with non-negative inputs and percentages in [0, 100], every returned field is non-negative and the two derived areas are at most the gross area |
| `PropertyDefaults.RetailTenantsTI` | src/data/propertyDefaults.js:22-27 | the retail suites lease 9,000 square feet and their TI total is 35 × 9,000 = 315,000 |
| `PropertyDefaults.RetailDefaultTI` | src/utils/calculations.js:10-12 | a project with the retail suites, typed retail or untyped, succeeds with TI total 315,000 |
| `PropertyDefaults.OfficeDefaultsProForma` | src/data/propertyDefaults.js:30-57 | the office preset typed office gives rentable 11,700, useable 10,800, site area 101,494.8 and TI 720,000 |
| `PropertyDefaults.OfficeDefaultsOtherType` | src/utils/calculations.js:12 | the office preset has no tenant list, so pricing it untyped, as retail or as hotel fails with the missing-tenants error |

## Left out

- Everything past the TI total: the source holds only placeholder comments there (src/utils/calculations.js lines 14-15 and 22), so no financing, operating metrics, projections, IRR, exit, waterfall, sensitivity or validation logic exists to model.
- IEEE double-precision arithmetic: all quantities are exact reals, so rounding (for example in 2.33 × 43,560) is not reproduced.
- Missing numeric fields: in JavaScript an absent number (the retail preset has no `landAcres`) turns the arithmetic into `NaN`. Here every numeric field of `ProjectData` is a present real. Only a missing tenant list, which throws rather than producing a number, is modelled.
- Fields of a project that the cost buildup does not read (costs, rents, financing terms, growth rates) are not part of `ProjectData`.
- The property-type selector component (src/components/PropertyTypeSelector.jsx): UI rendering and an `alert` side effect. Only the `id` and `name` of a type are kept, and its retail/office availability gate is presentation.
- The repository scripts (scripts/update.js and scripts/auto-commit.js): command-line argument handling, console output, process exit and git operations through an external library.
