/** The deal calculator of the front end: yields, monthly cashflow, the
    additive score and the yearly premium fees, over exact reals. The
    annuity formula used for a non-zero interest rate is not interpreted:
    its value is an input. */
module DealCalculator {
  import opened Base

  /** The optional premium fields are None when left undefined, and then
      count as 0. */
  datatype DealInput = DealInput(
    purchasePrice: real,
    rentMonthly: real,
    chargesMonthly: real,
    taxeFonciereYearly: real,
    interestRate: real,
    durationYears: real,
    downPayment: real,
    managementFeesPercent: Option<real>,
    rentalInsuranceMonthly: Option<real>,
    sourceWithholdingRate: Option<real>,
    socialContributionsRate: Option<real>)

  /** A destructuring default `= 0`. */
  function OrZero(x: Option<real>): (r: real)
    ensures x.None? ==> r == 0.0
    ensures x.Some? ==> r == x.value
  {
    if x.Some? then x.value else 0.0
  }

  /** `monthlyLoanPayment`: nothing to repay without a principal or a
      duration; the principal spread evenly over the months at a zero rate;
      otherwise the annuity `annuity`. */
  function MonthlyLoanPayment(principal: real, annualRatePercent: real, years: real, annuity: real): (r: real)
    ensures principal == 0.0 || years == 0.0 ==> r == 0.0
    ensures principal != 0.0 && years != 0.0 && annualRatePercent != 0.0 ==> r == annuity
  {
    if principal == 0.0 || years == 0.0 then 0.0
    else if annualRatePercent / 100.0 / 12.0 == 0.0 then principal / (years * 12.0)
    else annuity
  }

  /** At a zero rate the monthly payments add up to the principal exactly. */
  lemma ZeroRateRepaysPrincipal(principal: real, years: real, annuity: real)
    requires principal != 0.0 && years != 0.0
    ensures MonthlyLoanPayment(principal, 0.0, years, annuity) * (years * 12.0) == principal
  {
  }

  /** `grossYield`: yearly rent as a percentage of the price, 0 for a zero price. */
  function GrossYield(input: DealInput): (r: real)
    ensures input.purchasePrice == 0.0 ==> r == 0.0
    ensures input.purchasePrice != 0.0 ==> r * input.purchasePrice == input.rentMonthly * 12.0 * 100.0
  {
    if input.purchasePrice != 0.0 then (input.rentMonthly * 12.0 * 100.0) / input.purchasePrice else 0.0
  }

  /** The yearly charges `netYield` deducts: monthly charges and property tax. */
  function YearlyCharges(input: DealInput): real
  {
    input.chargesMonthly * 12.0 + input.taxeFonciereYearly
  }

  /** `netYield`: yearly rent minus yearly charges, as a percentage of the
      price; 0 for a zero price. */
  function NetYield(input: DealInput): (r: real)
    ensures input.purchasePrice == 0.0 ==> r == 0.0
    ensures input.purchasePrice != 0.0 ==> r * input.purchasePrice == (input.rentMonthly * 12.0 - YearlyCharges(input)) * 100.0
  {
    if input.purchasePrice != 0.0 then ((input.rentMonthly * 12.0 - YearlyCharges(input)) * 100.0) / input.purchasePrice else 0.0
  }

  /** The two yields differ by the yearly charges as a percentage of the price. */
  lemma YieldGapIsCharges(input: DealInput)
    requires input.purchasePrice != 0.0
    ensures (GrossYield(input) - NetYield(input)) * input.purchasePrice == YearlyCharges(input) * 100.0
  {
    calc {
      (GrossYield(input) - NetYield(input)) * input.purchasePrice;
      GrossYield(input) * input.purchasePrice - NetYield(input) * input.purchasePrice;
      input.rentMonthly * 12.0 * 100.0 - (input.rentMonthly * 12.0 - YearlyCharges(input)) * 100.0;
      YearlyCharges(input) * 100.0;
    }
  }

  /** With a positive price and non-negative charges and tax, the net yield
      never exceeds the gross yield. */
  lemma NetYieldAtMostGross(input: DealInput)
    requires input.purchasePrice > 0.0
    requires input.chargesMonthly >= 0.0 && input.taxeFonciereYearly >= 0.0
    ensures NetYield(input) <= GrossYield(input)
  {
    YieldGapIsCharges(input);
    var gap := GrossYield(input) - NetYield(input);
    assert gap == YearlyCharges(input) * 100.0 / input.purchasePrice;
  }

  /** The amount financed: `Math.max(0, purchasePrice - downPayment)`. */
  function Principal(input: DealInput): (r: real)
    ensures r >= 0.0 && r >= input.purchasePrice - input.downPayment
    ensures r == 0.0 || r == input.purchasePrice - input.downPayment
  {
    if input.purchasePrice - input.downPayment > 0.0 then input.purchasePrice - input.downPayment else 0.0
  }

  /** `monthlyCashflow`: rent less charges, a twelfth of the property tax,
      the loan payment and the monthly premium deductions, which add up to a
      twelfth of the yearly premium total. */
  function MonthlyCashflow(input: DealInput, annuity: real): (r: real)
    ensures r ==
      input.rentMonthly - input.chargesMonthly - input.taxeFonciereYearly / 12.0
        - MonthlyLoanPayment(Principal(input), input.interestRate, input.durationYears, annuity)
        - TotalTaxesAndFeesYearly(input) / 12.0
  {
    var loan := MonthlyLoanPayment(Principal(input), input.interestRate, input.durationYears, annuity);
    var managementFees := (input.rentMonthly * OrZero(input.managementFeesPercent)) / 100.0;
    var withholding := (input.rentMonthly * OrZero(input.sourceWithholdingRate)) / 100.0;
    var socialFees := (input.rentMonthly * OrZero(input.socialContributionsRate)) / 100.0;
    input.rentMonthly - input.chargesMonthly - input.taxeFonciereYearly / 12.0 - loan
      - managementFees - OrZero(input.rentalInsuranceMonthly) - withholding - socialFees
  }

  // ------------------------------------------------------- yearly premium fees

  function ManagementFeesYearly(input: DealInput): (r: real)
    ensures input.managementFeesPercent.None? ==> r == 0.0
  {
    (input.rentMonthly * 12.0 * OrZero(input.managementFeesPercent)) / 100.0
  }

  function RentalInsuranceYearly(input: DealInput): (r: real)
    ensures input.rentalInsuranceMonthly.None? ==> r == 0.0
  {
    OrZero(input.rentalInsuranceMonthly) * 12.0
  }

  function SourceWithholdingYearly(input: DealInput): (r: real)
    ensures input.sourceWithholdingRate.None? ==> r == 0.0
  {
    (input.rentMonthly * 12.0 * OrZero(input.sourceWithholdingRate)) / 100.0
  }

  function SocialContributionsYearly(input: DealInput): (r: real)
    ensures input.socialContributionsRate.None? ==> r == 0.0
  {
    (input.rentMonthly * 12.0 * OrZero(input.socialContributionsRate)) / 100.0
  }

  predicate NoPremiumFields(input: DealInput)
  {
    && input.managementFeesPercent.None?
    && input.rentalInsuranceMonthly.None?
    && input.sourceWithholdingRate.None?
    && input.socialContributionsRate.None?
  }

  /** `totalTaxesAndFeesYearly`: the four yearly components; 0 when no
      premium field is set. */
  function TotalTaxesAndFeesYearly(input: DealInput): (r: real)
    ensures NoPremiumFields(input) ==> r == 0.0
  {
    ManagementFeesYearly(input) + RentalInsuranceYearly(input) + SourceWithholdingYearly(input) + SocialContributionsYearly(input)
  }

  /** Without premium fields the cashflow is rent less charges, a twelfth of
      the property tax and the loan payment. */
  lemma CashflowWithoutPremiumFields(input: DealInput, annuity: real)
    requires NoPremiumFields(input)
    ensures MonthlyCashflow(input, annuity) ==
      input.rentMonthly - input.chargesMonthly - input.taxeFonciereYearly / 12.0
        - MonthlyLoanPayment(Principal(input), input.interestRate, input.durationYears, annuity)
  {
  }

  // -------------------------------------------------------------- the score

  function GrossYieldBand(gy: real): int
  {
    if gy > 10.0 then 15 else if gy > 8.0 then 10 else if gy > 6.0 then 5 else -5
  }

  function NetYieldBand(ny: real): int
  {
    if ny > 8.0 then 15 else if ny > 6.0 then 10 else if ny > 4.0 then 5 else -5
  }

  function CashflowBand(cf: real): int
  {
    if cf >= 200.0 then 15 else if cf >= 50.0 then 10 else if cf >= 0.0 then 5 else -10
  }

  /** The score before clamping: 50 plus the three band terms. */
  function RawScore(gy: real, ny: real, cf: real): int
  {
    50 + GrossYieldBand(gy) + NetYieldBand(ny) + CashflowBand(cf)
  }

  /** `Math.max(0, Math.min(100, score))`. */
  function Clamp(score: int): (r: int)
    ensures 0 <= r <= 100
    ensures 0 <= score <= 100 ==> r == score
  {
    if score < 0 then 0 else if score > 100 then 100 else score
  }

  /** The three-band score of the metrics, clamped to [0, 100]. */
  function ScoreFromMetrics(gy: real, ny: real, cf: real): (r: int)
    ensures 0 <= r <= 100
  {
    Clamp(RawScore(gy, ny, cf))
  }

  /** The unclamped score already lies in [30, 95], so the clamp never
      changes it. */
  lemma ClampNeverBinds(gy: real, ny: real, cf: real)
    ensures 30 <= RawScore(gy, ny, cf) <= 95
    ensures ScoreFromMetrics(gy, ny, cf) == RawScore(gy, ny, cf)
  {
  }

  /** Raising any one metric, the other two fixed, never lowers the score. */
  lemma ScoreMonotone(gy: real, ny: real, cf: real, gy2: real, ny2: real, cf2: real)
    requires gy <= gy2 && ny <= ny2 && cf <= cf2
    ensures ScoreFromMetrics(gy, ny, cf) <= ScoreFromMetrics(gy2, ny, cf)
    ensures ScoreFromMetrics(gy, ny, cf) <= ScoreFromMetrics(gy, ny2, cf)
    ensures ScoreFromMetrics(gy, ny, cf) <= ScoreFromMetrics(gy, ny, cf2)
  {
    ClampNeverBinds(gy, ny, cf);
    ClampNeverBinds(gy2, ny, cf);
    ClampNeverBinds(gy, ny2, cf);
    ClampNeverBinds(gy, ny, cf2);
  }

  /** `dealScore`. */
  function DealScore(input: DealInput, annuity: real): (r: int)
    ensures 30 <= r <= 95
  {
    ClampNeverBinds(GrossYield(input), NetYield(input), MonthlyCashflow(input, annuity));
    ScoreFromMetrics(GrossYield(input), NetYield(input), MonthlyCashflow(input, annuity))
  }
}
