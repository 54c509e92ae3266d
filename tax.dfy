/** The payroll deductions of `utils.ts`: the employee's 3% INSS social-security
    contribution, the employer's 8% contribution, and the five-bracket IRT income
    tax on the pay left after INSS. Amounts are exact reals; the source's
    floating-point rounding is not modelled. */
module Tax {

  /** `calculateINSS`: the employee contribution, 3% of the amount. */
  function INSS(grossSalary: real): (r: real)
  {
    grossSalary * 0.03
  }

  /** `calculateINSSEntity`: the employer contribution, 8% of the amount. */
  function INSSEntity(grossSalary: real): (r: real)
  {
    grossSalary * 0.08
  }

  /** Together the two contributions take 11% of the amount, and on a
      non-negative amount the employer's share is never below the employee's. */
  lemma ContributionShares(grossSalary: real)
    ensures INSS(grossSalary) + INSSEntity(grossSalary) == grossSalary * 0.11
    ensures grossSalary >= 0.0 ==> 0.0 <= INSS(grossSalary) <= INSSEntity(grossSalary)
  {
  }

  /** `calculateIRT`: the tax on `grossSalary - inss`, found by the first
      inclusive upper bound (50 000, 150 000, 250 000, 500 000) that the taxable
      amount does not exceed. */
  function IRT(grossSalary: real, inss: real): (r: real)
    ensures r >= 0.0
    ensures grossSalary - inss <= 50000.0 ==> r == 0.0
    ensures r <= if grossSalary - inss > 0.0 then (grossSalary - inss) * 0.25 else 0.0
  {
    var taxable := grossSalary - inss;
    if taxable <= 50000.0 then 0.0
    else if taxable <= 150000.0 then (taxable - 50000.0) * 0.10
    else if taxable <= 250000.0 then (taxable - 150000.0) * 0.15 + 10000.0
    else if taxable <= 500000.0 then (taxable - 250000.0) * 0.20 + 25000.0
    else (taxable - 500000.0) * 0.25 + 75000.0
  }

  /** The part of `taxable` that falls inside the band `(low, high]`. */
  function Band(taxable: real, low: real, high: real): (r: real)
    requires low <= high
    ensures 0.0 <= r <= high - low
  {
    if taxable <= low then 0.0
    else if taxable >= high then high - low
    else taxable - low
  }

  /** An independent reading of the same schedule as marginal rates: nothing
      on the first 50 000, then 10%, 15%, 20% on the successive bands and 25%
      above 500 000, each band taxed only on the part of the amount inside it. */
  function MarginalTax(taxable: real): real
  {
    Band(taxable, 50000.0, 150000.0) * 0.10
    + Band(taxable, 150000.0, 250000.0) * 0.15
    + Band(taxable, 250000.0, 500000.0) * 0.20
    + (if taxable > 500000.0 then (taxable - 500000.0) * 0.25 else 0.0)
  }

  /** The bracket table with flat addends is the marginal-rate schedule: each
      addend (10 000, 25 000, 75 000) is exactly the tax of the full bands
      below it. */
  lemma IrtIsMarginalTax(grossSalary: real, inss: real)
    ensures IRT(grossSalary, inss) == MarginalTax(grossSalary - inss)
  {
  }

  /** The inclusive upper bounds of the first four tiers. */
  function UpperBound(k: nat): real
    requires k < 4
  {
    [50000.0, 150000.0, 250000.0, 500000.0][k]
  }

  /** The formula of each row of the table, for tiers 0 to 4. */
  function TierFormula(k: nat, taxable: real): real
    requires k <= 4
  {
    match k
    case 0 => 0.0
    case 1 => (taxable - 50000.0) * 0.10
    case 2 => (taxable - 150000.0) * 0.15 + 10000.0
    case 3 => (taxable - 250000.0) * 0.20 + 25000.0
    case _ => (taxable - 500000.0) * 0.25 + 75000.0
  }

  /** The tier that applies: the first whose inclusive upper bound is not
      exceeded, or the open top tier. */
  function Tier(taxable: real): (k: nat)
    ensures k <= 4
    ensures k < 4 ==> taxable <= UpperBound(k)
    ensures forall j :: 0 <= j < k ==> taxable > UpperBound(j)
  {
    if taxable <= 50000.0 then 0
    else if taxable <= 150000.0 then 1
    else if taxable <= 250000.0 then 2
    else if taxable <= 500000.0 then 3
    else 4
  }

  /** IRT applies the formula of the first matching tier to `gross - inss`. */
  lemma IrtPiecewise(grossSalary: real, inss: real)
    ensures IRT(grossSalary, inss) == TierFormula(Tier(grossSalary - inss), grossSalary - inss)
  {
  }

  /** Continuity: at each inclusive upper bound the next tier's formula gives
      the same tax as the tier that ends there, so every flat addend (10 000 at
      150 000, 25 000 at 250 000, 75 000 at 500 000) is the previous tier's
      value at its bound. */
  lemma IrtContinuousAtBounds(k: nat)
    requires k < 4
    ensures TierFormula(k + 1, UpperBound(k)) == TierFormula(k, UpperBound(k))
  {
  }

  /** The tax is non-decreasing in the taxable amount, and it never grows faster
      than the top marginal rate of 25%: a rise of `d` in taxable pay raises
      the tax by between 0 and `d * 0.25`. */
  lemma IrtMonotoneAndBounded(g1: real, i1: real, g2: real, i2: real)
    requires g1 - i1 <= g2 - i2
    ensures IRT(g1, i1) <= IRT(g2, i2)
    ensures IRT(g2, i2) - IRT(g1, i1) <= ((g2 - i2) - (g1 - i1)) * 0.25
  {
  }

}
