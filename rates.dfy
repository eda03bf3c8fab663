/** The fixed rate table the payroll engine reads (index.tsx:41-76):
    Vietnamese statutory amounts in VND, effective July 2024. */
module Rates {
  import opened Tax

  /** The four minimum-wage regions; `REGIONAL_MIN_WAGE` has no other key. */
  type Region = r: int | 1 <= r <= 4 witness 1

  /** Statutory base salary, whose 20-fold caps the BHXH and BHYT basis. */
  const BaseSalary: real := 2340000.0

  /** Monthly minimum wage of each region. */
  function RegionalMinWage(region: Region): (w: real)
    ensures 3450000.0 <= w <= 4960000.0
  {
    if region == 1 then 4960000.0
    else if region == 2 then 4410000.0
    else if region == 3 then 3860000.0
    else 3450000.0
  }

  /* Each rate is applied through a function of the amount it is charged
     on, so that a contribution is a literal multiple of its basis. */

  /** Employee social insurance (BHXH): 8%. */
  function EmployeeBhxh(base: real): real { 0.08 * base }

  /** Employee health insurance (BHYT): 1.5%. */
  function EmployeeBhyt(base: real): real { 0.015 * base }

  /** Employee unemployment insurance (BHTN): 1%. */
  function EmployeeBhtn(base: real): real { 0.01 * base }

  /** Employer social insurance: 17.5%. */
  function EmployerBhxh(base: real): real { 0.175 * base }

  /** Employer health insurance: 3%. */
  function EmployerBhyt(base: real): real { 0.03 * base }

  /** Employer unemployment insurance: 1%. */
  function EmployerBhtn(base: real): real { 0.01 * base }

  /** Employer union levy (KPCD): 2%. */
  function EmployerKpcd(base: real): real { 0.02 * base }

  /** Monthly family deduction for the taxpayer. */
  const PersonalDeduction: real := 11000000.0

  /** Monthly family deduction for `dependents` dependents, 4,400,000
      each. */
  function DependentDeduction(dependents: int): real { 4400000.0 * dependents as real }

  /** The seven personal-income-tax tiers, the last without bound. */
  const TaxTiers: seq<Tier> := [
    Tier(UpTo(5000000.0), 0.05),
    Tier(UpTo(10000000.0), 0.10),
    Tier(UpTo(18000000.0), 0.15),
    Tier(UpTo(32000000.0), 0.20),
    Tier(UpTo(52000000.0), 0.25),
    Tier(UpTo(80000000.0), 0.30),
    Tier(NoLimit, 0.35)
  ]

  /** The statutory table is well formed and progressive: bounds ascend from
      0, only the last tier is open, and the rates rise from 5% to a top rate
      of 35%. */
  lemma TaxTiersProgressive()
    ensures Progressive(TaxTiers, 0.0)
    ensures TopRate(TaxTiers) == 0.35
  {
    TaxTiersAscend();
  }

  /** The statutory bounds ascend from 0 and only the last tier is open. */
  lemma TaxTiersAscend()
    ensures BoundsAscend(TaxTiers, 0.0)
  {
    assert BoundsAscend(TaxTiers[6..], 80000000.0);
    assert BoundsAscend(TaxTiers[5..], 52000000.0);
    assert BoundsAscend(TaxTiers[4..], 32000000.0);
    assert BoundsAscend(TaxTiers[3..], 18000000.0);
    assert BoundsAscend(TaxTiers[2..], 10000000.0);
    assert BoundsAscend(TaxTiers[1..], 5000000.0);
  }

  /** The regional cap on the BHTN basis is above the national cap on the
      BHXH basis in every region. */
  lemma RegionalCapAboveBaseCap(region: Region)
    ensures 20.0 * BaseSalary < 20.0 * RegionalMinWage(region)
    ensures 20.0 * RegionalMinWage(region) <= 99200000.0
  {
  }

  /** The tax on the full tiers below each finite bound: the sum of width
      times rate. */
  lemma StatutoryFullTax()
    ensures FullTax(TaxTiers, 0.0, 1) == 250000.0
    ensures FullTax(TaxTiers, 0.0, 2) == 750000.0
    ensures FullTax(TaxTiers, 0.0, 3) == 1950000.0
    ensures FullTax(TaxTiers, 0.0, 4) == 4750000.0
    ensures FullTax(TaxTiers, 0.0, 5) == 9750000.0
    ensures FullTax(TaxTiers, 0.0, 6) == 18150000.0
  {
    TaxTiersProgressive();
    assert FullTax(TaxTiers[5..], 52000000.0, 1) == 8400000.0;
    assert FullTax(TaxTiers[4..], 32000000.0, 2) == 13400000.0;
    assert FullTax(TaxTiers[3..], 18000000.0, 3) == 16200000.0;
    assert FullTax(TaxTiers[2..], 10000000.0, 4) == 17400000.0;
    assert FullTax(TaxTiers[1..], 5000000.0, 5) == 17900000.0;
    assert FullTax(TaxTiers[4..], 32000000.0, 1) == 5000000.0;
    assert FullTax(TaxTiers[3..], 18000000.0, 2) == 7800000.0;
    assert FullTax(TaxTiers[2..], 10000000.0, 3) == 9000000.0;
    assert FullTax(TaxTiers[1..], 5000000.0, 4) == 9500000.0;
    assert FullTax(TaxTiers[3..], 18000000.0, 1) == 2800000.0;
    assert FullTax(TaxTiers[2..], 10000000.0, 2) == 4000000.0;
    assert FullTax(TaxTiers[1..], 5000000.0, 3) == 4500000.0;
    assert FullTax(TaxTiers[2..], 10000000.0, 1) == 1200000.0;
    assert FullTax(TaxTiers[1..], 5000000.0, 2) == 1700000.0;
    assert FullTax(TaxTiers[1..], 5000000.0, 1) == 500000.0;
  }

  /** The tax at each finite tier bound equals the full tax of the tiers
      below it, so the curve meets each bound without a jump. */
  lemma TaxAtStatutoryBounds()
    ensures TaxFrom(TaxTiers, 5000000.0, 0.0) == 250000.0
    ensures TaxFrom(TaxTiers, 10000000.0, 0.0) == 750000.0
    ensures TaxFrom(TaxTiers, 18000000.0, 0.0) == 1950000.0
    ensures TaxFrom(TaxTiers, 32000000.0, 0.0) == 4750000.0
    ensures TaxFrom(TaxTiers, 52000000.0, 0.0) == 9750000.0
    ensures TaxFrom(TaxTiers, 80000000.0, 0.0) == 18150000.0
  {
    TaxTiersProgressive();
    StatutoryFullTax();
    TaxAtBound(TaxTiers, 0.0, 0);
    TaxAtBound(TaxTiers, 0.0, 1);
    TaxAtBound(TaxTiers, 0.0, 2);
    TaxAtBound(TaxTiers, 0.0, 3);
    TaxAtBound(TaxTiers, 0.0, 4);
    TaxAtBound(TaxTiers, 0.0, 5);
  }
}
