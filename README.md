# Vietnamese payroll engine — Dafny model

This project models the payroll core of a single-page HR application
(`index.tsx`). For each employee record, the engine `calculateSalary`
produces a payslip:

- the BHXH/BHYT insurance basis, capped at 20 × the statutory base salary;
- the BHTN basis, capped separately at 20 × the regional minimum wage;
- the employee contributions (8 %, 1.5 %, 1 %);
- the employer cost (17.5 %, 3 %, 1 % and the 2 % KPCD union levy, charged
  on the uncapped insurance salary);
- the family deductions (11,000,000 for the taxpayer and 4,400,000 per
  dependent);
- the taxable income `max(0, ·)`;
- the personal income tax, from a loop over seven progressive tiers;
- the net pay.

Around the engine, the model covers the dashboard's employer-wide totals,
saving and deleting records, and the role- and search-filtered list that a
signed-in user sees.

Files:

- `tax.dfy` (module `Tax`): marginal tax over any ascending tier table.
  - `TaxFrom` is the specification: the sum over tiers of slice × rate.
  - `TierLoop` is the source's loop, proved equal to `TaxFrom`.
  - Lemmas cover the slices partitioning the income, bounds, monotonicity
    and continuity, piecewise linearity, and the tax at tier bounds.
- `rates.dfy` (module `Rates`): the statutory constants and the seven-tier
  table. It proves the table progressive and gives the tax at each
  statutory bound.
- `salary.dfy` (module `Payroll`): the employee record, the payslip,
  `Salary` (the payslip as a function of the record) and the engine
  `CalculateSalary`. It also holds the lemmas on caps, insurance, taxable
  income, tax, net pay and worked examples.
- `seqs.dfy` (module `Seqs`): an order-preserving `Filter` (the
  `Array.prototype.filter` the list logic uses) and subsequences.
- `roster.dfy` (module `Roster`): the totals reduce, `handleSaveEmployee`,
  `handleDelete` and `filteredEmployees`.

Money is an exact `real`. The source's `Infinity` tier bound is
`Bound.NoLimit`. The React state setters become functions from the old
state to the new one. `window.confirm`'s answer and the signed-in user
become parameters.

With a gross salary of 0 on the gross insurance basis and a non-negative
dependent count, every payment on the payslip is 0, but the family
deductions are not: `deductionSelf` is still 11,000,000 and
`totalDeductions` is 11,000,000 + 4,400,000 × dependents
(index.tsx:208-211). `Payroll.ZeroGross` states this.

## Model

| member | source | states |
|---|---|---|
| Tax.TaxFrom | index.tsx:221-226 | the tax the tier walk computes, in closed form: the sum over tiers of the income's slice in the tier times the tier's rate |
| Tax.Range | index.tsx:222 | the width of a tier, `tier.max - previousTierMax`, open when the tier is open (`Infinity - m`) |
| Tax.MinBound | index.tsx:223 | `Math.min(v, range)`: at most `v` and at most a finite range, and equal to one of them; `v` itself when the range is open |
| Rates.RegionalMinWage | index.tsx:43-48 | the monthly minimum wage of regions 1 to 4 (4,960,000; 4,410,000; 3,860,000; 3,450,000), so always between 3,450,000 and 4,960,000 |
| Rates.EmployeeBhxh | index.tsx:51 | employee social insurance: 8 % of its basis |
| Rates.EmployeeBhyt | index.tsx:52 | employee health insurance: 1.5 % of its basis |
| Rates.EmployeeBhtn | index.tsx:53 | employee unemployment insurance: 1 % of its basis |
| Rates.EmployerBhxh | index.tsx:57 | employer social insurance: 17.5 % of its basis |
| Rates.EmployerBhyt | index.tsx:58 | employer health insurance: 3 % of its basis |
| Rates.EmployerBhtn | index.tsx:59 | employer unemployment insurance: 1 % of its basis |
| Rates.EmployerKpcd | index.tsx:60 | employer union levy: 2 % of its basis |
| Rates.DependentDeduction | index.tsx:210 | the dependents' deduction: 4,400,000 per dependent |
| Payroll.InsuranceSalary | index.tsx:186 | the amount insurance is charged on: the gross salary on the gross basis, the declared amount otherwise |
| Payroll.Salary | index.tsx:186-249 | the whole payslip of a record, field by field, with the tax as `TaxFrom` over the statutory tiers; `CalculateSalary` is proved equal to it and the payslip lemmas are stated on it |
| Roster.AddPayslip | index.tsx:859-864 | the accumulator after one payslip: its gross, net, tax and employer cost added to the four totals |
| Roster.Totals | index.tsx:858-865 | the reduce's result over a roster: the payslips added one by one from the first record to the last, starting from four zeros |
| Roster.LowerChar | index.tsx:957-959 | `toLowerCase` on one character: never returns a capital A–Z, moves a capital by 32 code points to its small letter, and keeps every other character |
| Roster.Includes | index.tsx:957-959 | `s.includes(t)`: `t` occurs at some position of `s` |
| Roster.SearchMatches | index.tsx:956-959 | the lowered search term occurs in the lowered name, department or ID |
| Roster.RoleAllows | index.tsx:951-955 | an admin passes every record; anyone else passes only records with their own ID; with nobody signed in no record passes |
| Tax.TierLoop | index.tsx:217-230 | the loop's tax equals `TaxFrom`, the sum over tiers of slice × rate; what remains of the income after the last (open) tier is 0 for any non-negative income |
| Tax.WalkStep | index.tsx:221-230 | one pass of the loop body keeps the walk's state: tax so far plus the tax of the tiers still ahead is the whole tax, and the remaining income is the income above the last bound passed |
| Tax.TierStep | index.tsx:222-228 | the amount the loop taxes in a tier is exactly the income's slice in that tier, and subtracting it leaves the income above the tier's bound |
| Tax.TaxFromUnfold | index.tsx:221-226 | the tax is the first tier's slice at its rate plus the tax charged by the remaining tiers |
| Tax.SlicesPartition | index.tsx:221-230 | the slices add up to all the income above the first bound, so the open last tier absorbs whatever the bounded tiers leave |
| Tax.SlicesGrow | index.tsx:222-223 | every tier's slice grows with the income |
| Tax.WeightedGrowth | index.tsx:226 | slices that grow, charged at rates between 0 and the top rate, raise the charge by at least 0 and at most the top rate times their growth |
| Tax.TaxGrowthBySlices | index.tsx:221-230 | the tax grows by at least 0 and at most the top rate times the growth of the slices, which is at most the growth of the income |
| Tax.TaxFromContinuous | index.tsx:221-230 | tax is monotone in income, and extra income `y - x` adds at most top rate × `(y - x)`: no jump anywhere |
| Tax.TaxFromBelow | index.tsx:223-225 | income at or below the first bound is not taxed |
| Tax.TaxFromBounds | index.tsx:217-230 | 0 ≤ tax ≤ top rate × income above the first bound |
| Tax.TaxInFirstTier | index.tsx:221-228 | inside the first tier the tax is the first rate on the income above its lower bound |
| Tax.TaxInTier | index.tsx:221-230 | inside tier `k` the tax is the full tax of the tiers below plus tier `k`'s rate on the excess over its lower bound |
| Tax.TaxAtBound | index.tsx:221-230 | at each finite bound the formulas of the two neighbouring tiers agree and equal the full tax of the tiers up to that bound |
| Tax.BoundedBelowLast | index.tsx:68-76 | in an ascending table every tier but the last has a finite bound above the one before it |
| Tax.LastUnbounded | index.tsx:75 | the last tier of an ascending table is unbounded |
| Tax.RatesBelowTop | index.tsx:68-76 | every rate of a progressive table lies between 0 and the top rate |
| Rates.TaxTiersProgressive | index.tsx:68-76 | the statutory table ascends from 0 with only the last tier open, the rates rise, and the top rate is 35 % |
| Rates.TaxTiersAscend | index.tsx:68-76 | the statutory bounds ascend from 0 and only the last tier has no bound |
| Rates.RegionalCapAboveBaseCap | index.tsx:41-48 | in every region the BHTN cap is above the BHXH cap and at most 99,200,000 |
| Rates.StatutoryFullTax | index.tsx:68-76 | the tax on the full tiers below each finite bound: 250,000; 750,000; 1,950,000; 4,750,000; 9,750,000; 18,150,000 |
| Rates.TaxAtStatutoryBounds | index.tsx:68-76 | the tax at 5M, 10M, 18M, 32M, 52M and 80M equals those full-tier sums |
| Payroll.Min | index.tsx:189-190 | the result is at most both arguments and is one of them |
| Payroll.Max | index.tsx:214 | the result is at least both arguments and is one of them |
| Payroll.BhtnCap | index.tsx:190 | the regional BHTN cap is above the BHXH cap of 46,800,000 and at most 99,200,000 |
| Payroll.BhxhBase | index.tsx:189 | the BHXH/BHYT basis is the smaller of the insurance salary and 46,800,000 |
| Payroll.BhtnBase | index.tsx:190 | the BHTN basis is the smaller of the insurance salary and the region's cap |
| Payroll.CalculateSalary | index.tsx:185-250 | the engine, tier loop included, returns exactly the payslip `Salary` describes |
| Payroll.CapsIndependent | index.tsx:188-195 | above the BHXH cap, BHXH and BHYT are fixed at 3,744,000 and 702,000, while the BHTN basis is still larger and BHTN exceeds 468,000 |
| Payroll.InsuranceSums | index.tsx:192-203 | employee insurance = 9.5 % of the BHXH basis + 1 % of the BHTN basis; employer cost = gross + 20.5 % of the BHXH basis + 1 % of the BHTN basis + 2 % of the uncapped insurance salary |
| Payroll.InsuranceBounds | index.tsx:186-203 | employee insurance never exceeds 5,438,000; for a non-negative basis it lies between 0 and 10.5 % of the basis, and the employer cost is at least gross + 2 % of the basis |
| Payroll.KpcdUncapped | index.tsx:199-203 | at or above the BHTN cap the employee insurance is constant (4,446,000 + 1 % of the cap), but the employer cost keeps growing with the insurance salary through KPCD |
| Payroll.TaxableIncome | index.tsx:205-214 | deductions are 11,000,000 + 4,400,000 per dependent; taxable income is never negative, is 0 exactly when income before tax does not exceed the deductions, and otherwise equals their difference |
| Payroll.TaxBounds | index.tsx:216-230 | 0 ≤ tax ≤ 35 % of taxable income, and tax is 0 when taxable income is 0 |
| Payroll.NetPay | index.tsx:232-233 | net + insurance + tax = gross; net lies between income before tax minus 35 % of taxable income and income before tax; with a non-negative insurance basis, net never exceeds gross |
| Payroll.NetNonNegative | index.tsx:185-233 | a gross-basis employee with non-negative salary and dependents never gets a negative net |
| Payroll.RaiseNeverLowersNet | index.tsx:185-233 | a higher gross never lowers income before tax, tax or net pay |
| Payroll.DependentsLowerTax | index.tsx:208-233 | more dependents never raise the tax and never lower the net pay |
| Payroll.Sample30MPayslip | index.tsx:185-250 | gross 30,000,000, region 1, gross basis, 1 dependent: insurance 3,150,000, taxable 11,450,000, tax 967,500, net 25,882,500, employer cost 37,050,000 |
| Payroll.Sample10MPayslip | index.tsx:185-250 | gross 10,000,000, no dependents: insurance 1,050,000, taxable 0, tax 0, net 8,950,000 |
| Payroll.ZeroGross | index.tsx:185-250 | gross 0 on the gross basis gives 0 insurance, employer cost, taxable income, tax and net, while the deductions stay 11,000,000 + 4,400,000 per dependent |
| Roster.ComputeStats | index.tsx:857-866 | the reduce returns `Totals`: the sum of gross, net, tax and employer cost over the payslips of the roster |
| Roster.PlusAddPayslip | index.tsx:858-865 | adding a payslip to a sum of two totals is adding it to the second |
| Roster.TotalsAppend | index.tsx:857-866 | the totals of two rosters put together are the sums of their totals |
| Roster.TotalsBalance | index.tsx:857-866 | when every record's insurance basis is non-negative: total tax ≥ 0, and total net + total tax ≤ total gross ≤ total employer cost |
| Roster.Replace | index.tsx:877 | records with the matched ID become the edited record, all others stay in place |
| Roster.SaveEmployee | index.tsx:869-882 | adding with a taken ID changes nothing; adding with a fresh ID appends; editing replaces by the original ID; the dialog closes |
| Roster.DeleteEmployee | index.tsx:884-887 | without confirmation nothing changes; with it, no record keeps the ID and the rest stay in order |
| Roster.DeleteExactly | index.tsx:886 | deletion removes every occurrence of records with the ID and no occurrence of any other record |
| Roster.DeleteAbsent | index.tsx:884-887 | deleting an ID that no record carries changes nothing |
| Roster.DeleteUndoesAdd | index.tsx:869-887 | deleting a freshly added record restores the roster |
| Roster.AddKeepsIdsUnique | index.tsx:870-879 | adding keeps IDs unique |
| Roster.EditKeepsIdsUnique | index.tsx:876-877 | editing keeps IDs unique when the edited record keeps its ID or takes an unused one |
| Roster.EditCanDuplicateIds | index.tsx:870-877 | the ID check guards additions only: an edit can give two records the same ID |
| Roster.Lower | index.tsx:957-959 | `toLowerCase` maps each character and keeps the length |
| Roster.LowerIdempotent | index.tsx:957-959 | lowering twice is lowering once |
| Roster.VisibleEmployees | index.tsx:950-960 | the visible list is a subsequence of the roster, and each of its records passes the role test and the search |
| Roster.VisibleMember | index.tsx:950-960 | a record is visible exactly when it is on the roster, passes the role test and matches the search |
| Roster.NonAdminSeesOwnRecord | index.tsx:951-955 | a non-admin sees only records carrying their own ID |
| Roster.SignedOutSeesNothing | index.tsx:951-955 | with no user signed in, no record is visible |
| Roster.EmptyTermMatches | index.tsx:956-959 | an empty search term matches every record |
| Roster.EmptySearchKeepsAll | index.tsx:950-960 | an empty search keeps everything the role test lets through |
| Roster.AdminSeesAll | index.tsx:950-960 | an admin with an empty search sees the whole roster, in order |
| Roster.SearchIgnoresCase | index.tsx:956-960 | searching for the lowered term gives the same list as searching for the term |
| Seqs.Filter | index.tsx:886 | each kept element passes the test and comes from the input; the result is a subsequence of the input |
| Seqs.FilterCount | index.tsx:886 | each value keeps all its occurrences if it passes the test, and none otherwise |
| Seqs.FilterMember | index.tsx:950-960 | a value is kept exactly when it occurs and passes |
| Seqs.FilterAllPass | index.tsx:886 | filtering with a test every element passes changes nothing |
| Seqs.FilterNonePass | index.tsx:951-955 | filtering with a test no element passes leaves nothing |
| Seqs.FilterAppend | index.tsx:879-886 | filtering distributes over concatenation |
| Seqs.FilterCongruent | index.tsx:956-960 | tests that agree on every element give the same result |
| Seqs.SubsequenceReflexive | index.tsx:884-887 | a sequence is a subsequence of itself |
| Seqs.SubsequenceTransitive | index.tsx:950-960 | a subsequence of a subsequence is a subsequence |

## Left out

- The React UI: rendering, modals, the login screen, the admin credentials and `localStorage` persistence. It is presentation and browser state, not payroll logic.
- Cloud sync (`pullFromCloud`, `pushToCloud`) and the Apps Script template. They are network I/O. The `Number(...) || 0` coercion of fetched fields is also left out; records in the model are already typed.
- `generateId` is left out because it uses `Math.random`. `formatCurrency` is left out because it only formats output.
- `window.confirm` and `alert` are user interaction. The confirmation becomes the `confirmed` parameter of `DeleteEmployee`. The alert on a duplicate ID is modelled only as the unchanged state.
- IEEE-754 floating-point rounding: money is an exact real, so results the browser rounds (e.g. 0.015 × basis) are exact here.
- A region outside 1..4: the type of `emp.region` allows only 1..4, and the model's `Region` subset type keeps that. Values read from a sheet that the type does not allow, which would make the source compute `NaN`, are not modelled.
- Payroll.Employee: `dependents` is an integer (which may be negative, as the source does not check). Fractional dependent counts, which a JavaScript `number` would allow, are not modelled.
- Roster.LowerChar, Roster.Lower: `toLowerCase` is modelled for ASCII `A`–`Z` only. Unicode case mapping (e.g. Vietnamese capitals with diacritics) is not modelled.
- Roster.ComputeStats: `useMemo` caching is not modelled. Mutation of the shared accumulator object is modelled as a datatype value updated field by field.
- Payroll.NetNonNegative is stated only for the gross insurance basis with non-negative salary and dependents. With a custom insurance salary, insurance can exceed the gross and the net can be negative. Roster.TotalsBalance likewise needs every record's insurance basis to be non-negative.
