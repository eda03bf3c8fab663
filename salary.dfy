/** The payroll engine `calculateSalary` (index.tsx:185-250): from one
    employee record it derives every figure of the payslip, namely the capped
    insurance bases, employee and employer contributions, family deductions,
    taxable income, progressive personal income tax and net pay.

    `Salary` states the whole payslip as a function of the record;
    `CalculateSalary` is the engine itself, whose tax step is the tier loop
    `Tax.TierLoop`. */
module Payroll {
  import opened Tax
  import opened Rates

  /** Which amount insurance is charged on: the gross salary or a separately
      declared amount. */
  datatype InsuranceType = Gross | Custom

  /** An employee record (index.tsx:141-151). */
  datatype Employee = Employee(
    id: string,
    name: string,
    role: string,
    grossSalary: real,
    insuranceType: InsuranceType,
    customInsuranceSalary: real,
    dependents: int,
    region: Region,
    department: string)

  /** Every figure of a payslip (index.tsx:153-167). */
  datatype SalaryResult = SalaryResult(
    gross: real,
    bhxh: real,
    bhyt: real,
    bhtn: real,
    totalInsurance: real,
    companyCost: real,
    incomeBeforeTax: real,
    deductionSelf: real,
    deductionDependents: real,
    totalDeductions: real,
    taxableIncome: real,
    tax: real,
    net: real)

  /** `Math.min(a, b)`. */
  function Min(a: real, b: real): (m: real)
    ensures m <= a && m <= b
    ensures m == a || m == b
  {
    if a < b then a else b
  }

  /** `Math.max(a, b)`. */
  function Max(a: real, b: real): (m: real)
    ensures a <= m && b <= m
    ensures m == a || m == b
  {
    if a < b then b else a
  }

  /** The cap on the BHXH and BHYT basis: 20 times the base salary. */
  const BhxhCap: real := 20.0 * BaseSalary

  /** The cap on the BHTN basis: 20 times the regional minimum wage. */
  function BhtnCap(region: Region): (cap: real)
    ensures BhxhCap < cap <= 99200000.0
  {
    RegionalCapAboveBaseCap(region);
    20.0 * RegionalMinWage(region)
  }

  /** The amount insurance is charged on, before any cap. */
  function InsuranceSalary(emp: Employee): real
  {
    if emp.insuranceType == Gross then emp.grossSalary else emp.customInsuranceSalary
  }

  /** The BHXH and BHYT basis: the insurance salary, but no more than
      46,800,000. */
  function BhxhBase(emp: Employee): (b: real)
    ensures b <= InsuranceSalary(emp) && b <= 46800000.0
    ensures b == InsuranceSalary(emp) || b == 46800000.0
  {
    Min(InsuranceSalary(emp), BhxhCap)
  }

  /** The BHTN basis: the insurance salary, but no more than the cap of the
      employee's own region, whatever the BHXH cap did. */
  function BhtnBase(emp: Employee): (b: real)
    ensures b <= InsuranceSalary(emp) && b <= BhtnCap(emp.region)
    ensures b == InsuranceSalary(emp) || b == BhtnCap(emp.region)
  {
    Min(InsuranceSalary(emp), BhtnCap(emp.region))
  }

  /** The payslip of `emp`, figure by figure as index.tsx:186-249 derives
      it; the tax is the marginal tax of the statutory tiers. */
  function Salary(emp: Employee): SalaryResult
  {
    var insuranceSalary := InsuranceSalary(emp);
    var bhxhBase := BhxhBase(emp);
    var bhtnBase := BhtnBase(emp);
    var bhxh := EmployeeBhxh(bhxhBase);
    var bhyt := EmployeeBhyt(bhxhBase);
    var bhtn := EmployeeBhtn(bhtnBase);
    var totalInsurance := bhxh + bhyt + bhtn;
    var companyCost := emp.grossSalary + EmployerBhxh(bhxhBase) + EmployerBhyt(bhxhBase)
                       + EmployerBhtn(bhtnBase) + EmployerKpcd(insuranceSalary);
    var incomeBeforeTax := emp.grossSalary - totalInsurance;
    var deductionDependents := DependentDeduction(emp.dependents);
    var totalDeductions := PersonalDeduction + deductionDependents;
    var taxableIncome := Max(0.0, incomeBeforeTax - totalDeductions);
    TaxTiersAscend();
    var tax := TaxFrom(TaxTiers, taxableIncome, 0.0);
    SalaryResult(emp.grossSalary, bhxh, bhyt, bhtn, totalInsurance, companyCost, incomeBeforeTax,
                 PersonalDeduction, deductionDependents, totalDeductions, taxableIncome, tax,
                 emp.grossSalary - totalInsurance - tax)
  }

  /** The engine: straight-line arithmetic around the tier loop. It computes
      exactly the payslip `Salary` describes, and the loop leaves no income
      untaxed. */
  method CalculateSalary(emp: Employee) returns (r: SalaryResult)
    ensures r == Salary(emp)
  {
    var insuranceSalary := if emp.insuranceType == Gross then emp.grossSalary else emp.customInsuranceSalary;

    var bhxhBase := Min(insuranceSalary, 20.0 * BaseSalary);
    var bhtnBase := Min(insuranceSalary, 20.0 * RegionalMinWage(emp.region));
    assert bhxhBase == BhxhBase(emp) && bhtnBase == BhtnBase(emp);

    var bhxh := EmployeeBhxh(bhxhBase);
    var bhyt := EmployeeBhyt(bhxhBase);
    var bhtn := EmployeeBhtn(bhtnBase);
    var totalInsurance := bhxh + bhyt + bhtn;

    var companyBhxh := EmployerBhxh(bhxhBase);
    var companyBhyt := EmployerBhyt(bhxhBase);
    var companyBhtn := EmployerBhtn(bhtnBase);
    var companyKpcd := EmployerKpcd(insuranceSalary);
    var companyCost := emp.grossSalary + companyBhxh + companyBhyt + companyBhtn + companyKpcd;

    var incomeBeforeTax := emp.grossSalary - totalInsurance;

    var deductionSelf := PersonalDeduction;
    var deductionDependents := DependentDeduction(emp.dependents);
    var totalDeductions := deductionSelf + deductionDependents;

    var taxableIncome := Max(0.0, incomeBeforeTax - totalDeductions);

    TaxTiersProgressive();
    var tax, remainingTaxable := TierLoop(TaxTiers, taxableIncome);
    assert remainingTaxable == 0.0;

    var net := emp.grossSalary - totalInsurance - tax;

    r := SalaryResult(emp.grossSalary, bhxh, bhyt, bhtn, totalInsurance, companyCost, incomeBeforeTax,
                      deductionSelf, deductionDependents, totalDeductions, taxableIncome, tax, net);
  }

  /** The two caps are applied separately: once the insurance salary passes
      the BHXH cap, BHXH and BHYT stop growing at 46,800,000 while BHTN is
      still charged on more than that in every region. */
  lemma CapsIndependent(emp: Employee)
    requires InsuranceSalary(emp) > BhxhCap
    ensures BhxhBase(emp) == 46800000.0
    ensures BhxhBase(emp) < BhtnBase(emp)
    ensures Salary(emp).bhxh == 3744000.0 && Salary(emp).bhyt == 702000.0
    ensures Salary(emp).bhtn > 468000.0
  {
  }

  /** The insurance sums: employees pay 9.5% of the BHXH basis and 1% of
      the BHTN basis; the employer pays 20.5% and 1% of the same bases plus
      the 2% union levy on the insurance salary before any cap. */
  lemma InsuranceSums(emp: Employee)
    ensures Salary(emp).totalInsurance
            == Salary(emp).bhxh + Salary(emp).bhyt + Salary(emp).bhtn
            == 0.095 * BhxhBase(emp) + 0.01 * BhtnBase(emp)
    ensures Salary(emp).companyCost
            == emp.grossSalary + 0.205 * BhxhBase(emp) + 0.01 * BhtnBase(emp)
               + 0.02 * InsuranceSalary(emp)
  {
  }

  /** Employee insurance never exceeds 5,438,000 (both bases at their
      highest caps). On a non-negative insurance salary it lies between 0
      and 10.5% of it, and the employer pays at least the gross salary plus
      the 2% levy. */
  lemma InsuranceBounds(emp: Employee)
    ensures Salary(emp).totalInsurance <= 5438000.0
    ensures 0.0 <= InsuranceSalary(emp) ==>
              0.0 <= Salary(emp).totalInsurance <= 0.105 * InsuranceSalary(emp)
    ensures 0.0 <= InsuranceSalary(emp) ==>
              emp.grossSalary + 0.02 * InsuranceSalary(emp) <= Salary(emp).companyCost
  {
  }

  /** Past both caps the employee's insurance and the employer's insurance
      stay fixed, but the union levy keeps growing at 2% of the uncapped
      insurance salary. */
  lemma KpcdUncapped(emp: Employee)
    requires InsuranceSalary(emp) >= BhtnCap(emp.region)
    ensures Salary(emp).totalInsurance == 4446000.0 + 0.01 * BhtnCap(emp.region)
    ensures Salary(emp).companyCost
            == emp.grossSalary + 9594000.0 + 0.01 * BhtnCap(emp.region) + 0.02 * InsuranceSalary(emp)
  {
  }

  /** Taxable income: income before tax less 11,000,000 and 4,400,000 per
      dependent, floored at 0. It is 0 exactly when the deductions cover
      the income. */
  lemma TaxableIncome(emp: Employee)
    ensures Salary(emp).deductionSelf == 11000000.0
    ensures Salary(emp).totalDeductions == 11000000.0 + 4400000.0 * emp.dependents as real
    ensures Salary(emp).taxableIncome >= 0.0
    ensures Salary(emp).taxableIncome == 0.0 <==> Salary(emp).incomeBeforeTax <= Salary(emp).totalDeductions
    ensures Salary(emp).taxableIncome > 0.0 ==>
              Salary(emp).taxableIncome == Salary(emp).incomeBeforeTax - Salary(emp).totalDeductions
  {
  }

  /** The tax lies between 0 and the top rate, 35%, of taxable income; no
      taxable income means no tax. */
  lemma TaxBounds(emp: Employee)
    ensures 0.0 <= Salary(emp).tax <= 0.35 * Salary(emp).taxableIncome
    ensures Salary(emp).taxableIncome == 0.0 ==> Salary(emp).tax == 0.0
  {
    TaxTiersProgressive();
    TaxFromBounds(TaxTiers, Salary(emp).taxableIncome, 0.0);
  }

  /** Net pay: gross less insurance less tax. Tax takes at most 35% of the
      taxable part of income before tax, and on a non-negative insurance
      salary net pay never exceeds gross. */
  lemma NetPay(emp: Employee)
    ensures Salary(emp).net + Salary(emp).totalInsurance + Salary(emp).tax == Salary(emp).gross
    ensures Salary(emp).incomeBeforeTax - 0.35 * Salary(emp).taxableIncome
            <= Salary(emp).net <= Salary(emp).incomeBeforeTax
    ensures 0.0 <= InsuranceSalary(emp) ==> Salary(emp).net <= Salary(emp).gross
  {
    TaxBounds(emp);
  }

  /** On the gross basis with a non-negative gross and dependent count, net
      pay is never negative. */
  lemma NetNonNegative(emp: Employee)
    requires emp.insuranceType == Gross && 0.0 <= emp.grossSalary && 0 <= emp.dependents
    ensures 0.0 <= Salary(emp).net
  {
    TaxBounds(emp);
    InsuranceBounds(emp);
  }

  /** A raise never costs take-home pay: with everything else equal, more
      gross means no less income before tax, no less tax and no less net
      pay. */
  lemma RaiseNeverLowersNet(emp: Employee, gross: real)
    requires emp.grossSalary <= gross
    ensures Salary(emp).incomeBeforeTax <= Salary(emp.(grossSalary := gross)).incomeBeforeTax
    ensures Salary(emp).tax <= Salary(emp.(grossSalary := gross)).tax
    ensures Salary(emp).net <= Salary(emp.(grossSalary := gross)).net
  {
    var raised := emp.(grossSalary := gross);
    var s, t := Salary(emp), Salary(raised);
    assert 0.0 <= BhxhBase(raised) - BhxhBase(emp) <= gross - emp.grossSalary;
    assert 0.0 <= BhtnBase(raised) - BhtnBase(emp) <= gross - emp.grossSalary;
    assert s.taxableIncome <= t.taxableIncome;
    assert t.taxableIncome - s.taxableIncome <= t.incomeBeforeTax - s.incomeBeforeTax;
    TaxTiersProgressive();
    TaxFromContinuous(TaxTiers, s.taxableIncome, t.taxableIncome, 0.0);
  }

  /** Each extra dependent can only lower the tax and raise net pay. */
  lemma DependentsLowerTax(emp: Employee, dependents: int)
    requires emp.dependents <= dependents
    ensures Salary(emp.(dependents := dependents)).tax <= Salary(emp).tax
    ensures Salary(emp).net <= Salary(emp.(dependents := dependents)).net
  {
    TaxTiersProgressive();
    TaxFromContinuous(TaxTiers, Salary(emp.(dependents := dependents)).taxableIncome,
                       Salary(emp).taxableIncome, 0.0);
  }

  /** A 30,000,000 salary in region 1, insured on gross, with one
      dependent. */
  const Sample30M: Employee :=
    Employee("NV001", "Nguyen Van A", "Developer", 30000000.0, Gross, 0.0, 1, 1, "IT")

  /** The worked example: taxable income 11,450,000 falls in the third tier,
      so the tax is 250,000 + 500,000 + 15% of 1,450,000 = 967,500. */
  lemma Sample30MPayslip()
    ensures Salary(Sample30M).totalInsurance == 3150000.0
    ensures Salary(Sample30M).incomeBeforeTax == 26850000.0
    ensures Salary(Sample30M).totalDeductions == 15400000.0
    ensures Salary(Sample30M).taxableIncome == 11450000.0
    ensures Salary(Sample30M).tax == 967500.0
    ensures Salary(Sample30M).net == 25882500.0
    ensures Salary(Sample30M).companyCost == 37050000.0
  {
    TaxTiersProgressive();
    StatutoryFullTax();
    TaxInTier(TaxTiers, 0.0, 2, 11450000.0);
  }

  /** A 10,000,000 salary in region 1 without dependents. */
  const Sample10M: Employee :=
    Employee("NV002", "Tran Thi B", "Designer", 10000000.0, Gross, 0.0, 0, 1, "Design")

  /** The deductions exceed income before tax, so no tax is due. */
  lemma Sample10MPayslip()
    ensures Salary(Sample10M).totalInsurance == 1050000.0
    ensures Salary(Sample10M).taxableIncome == 0.0
    ensures Salary(Sample10M).tax == 0.0
    ensures Salary(Sample10M).net == 8950000.0
  {
    TaxTiersProgressive();
    TaxFromBelow(TaxTiers, 0.0, 0.0);
  }

  /** On a zero salary insured on gross, every amount is 0 except the
      deductions: the personal deduction is always 11,000,000. */
  lemma ZeroGross(emp: Employee)
    requires emp.grossSalary == 0.0 && emp.insuranceType == Gross && 0 <= emp.dependents
    ensures Salary(emp).totalInsurance == 0.0 && Salary(emp).companyCost == 0.0
    ensures Salary(emp).taxableIncome == 0.0 && Salary(emp).tax == 0.0
    ensures Salary(emp).net == 0.0
    ensures Salary(emp).deductionSelf == 11000000.0
    ensures Salary(emp).totalDeductions == 11000000.0 + 4400000.0 * emp.dependents as real
  {
    assert Salary(emp).totalInsurance == 0.0 && Salary(emp).companyCost == 0.0 by {
      assert BhxhBase(emp) == 0.0;
      assert BhtnBase(emp) == 0.0;
    }
    assert Salary(emp).tax == 0.0 by {
      TaxBounds(emp);
    }
  }
}
