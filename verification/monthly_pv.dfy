/** The monthly present-value calculation: the license is taken at its
    stated share, undiscounted; the support share is paid in sixty equal
    monthly amounts, each discounted at a monthly rate from the month it is
    due, and summed. The monthly rate is an input here. */
module MonthlyPv {
  import opened Finance

  /** The support is paid in this many equal monthly amounts. */
  const Months: nat := 60

  /** The value today of `k` monthly payments of `amount`, the first due
      after one month. */
  function DiscountedStream(amount: real, monthlyRate: real, k: nat): real
    requires 1.0 + monthlyRate != 0.0
  {
    if k == 0 then 0.0 else DiscountedStream(amount, monthlyRate, k - 1) + Discount(amount, monthlyRate, k)
  }

  /** `licensePV + supportPV`. */
  function TotalPresentValue(statedTotal: real, licensePct: real, supportPct: real, monthlyRate: real): real
    requires 1.0 + monthlyRate != 0.0
  {
    Share(statedTotal, licensePct)
      + DiscountedStream(PerPeriod(Share(statedTotal, supportPct), Months), monthlyRate, Months)
  }

  /** The figures the calculation reports. */
  datatype Figures = Figures(
    licensePV: real,
    monthlySupportStated: real,
    supportPV: real,
    totalPV: real,
    discount: real,
    openingNet: real)

  /** The calculation: the license share, the monthly support amount, the
      sixty-month accumulation of its present values, the total, the
      discount and the opening net after the license. */
  method MonthlyPresentValue(statedTotal: real, licensePct: real, supportPct: real, monthlyRate: real)
    returns (f: Figures)
    requires 1.0 + monthlyRate != 0.0
    ensures f.licensePV == Share(statedTotal, licensePct)
    ensures Months as real * f.monthlySupportStated == Share(statedTotal, supportPct)
    ensures f.supportPV == DiscountedStream(f.monthlySupportStated, monthlyRate, Months)
    ensures f.totalPV == TotalPresentValue(statedTotal, licensePct, supportPct, monthlyRate)
    ensures f.totalPV == f.licensePV + f.supportPV
    ensures f.discount == statedTotal - f.totalPV
    ensures f.openingNet == f.supportPV
  {
    var licensePV := statedTotal * licensePct;
    var monthlySupportStated := (statedTotal * supportPct) / 60.0;
    assert monthlySupportStated == PerPeriod(Share(statedTotal, supportPct), Months);
    SpreadEvenly(Share(statedTotal, supportPct), Months);
    var supportPV := 0.0;
    var month := 1;
    while month <= 60
      invariant 1 <= month <= 61
      invariant supportPV == DiscountedStream(monthlySupportStated, monthlyRate, month - 1)
    {
      PowZero(1.0 + monthlyRate, month);
      var pv := monthlySupportStated / Pow(1.0 + monthlyRate, month);
      supportPV := supportPV + pv;
      month := month + 1;
    }
    var totalPV := licensePV + supportPV;
    var discount := statedTotal - totalPV;
    f := Figures(licensePV, monthlySupportStated, supportPV, totalPV, discount, totalPV - licensePV * 1.0);
  }

  /** Without a rate each payment keeps its stated value. */
  lemma {:induction false} StreamAtZeroRate(amount: real, k: nat)
    ensures DiscountedStream(amount, 0.0, k) == k as real * amount
  {
    if k > 0 {
      StreamAtZeroRate(amount, k - 1);
      DiscountBounds(amount, 0.0, k);
    }
  }

  /** With a positive rate every payment is worth less today, so the stream
      is worth less than its stated total, and still more than nothing. */
  lemma {:induction false} StreamBelowStated(amount: real, monthlyRate: real, k: nat)
    requires monthlyRate > 0.0 && amount > 0.0 && k >= 1
    ensures 0.0 < DiscountedStream(amount, monthlyRate, k) < k as real * amount
  {
    DiscountBounds(amount, monthlyRate, k);
    if k > 1 {
      StreamBelowStated(amount, monthlyRate, k - 1);
    }
  }

  /** When the two percentages make up the whole, no rate means no
      discount: the total present value is the stated total. */
  lemma NoDiscountAtZeroRate(statedTotal: real, licensePct: real, supportPct: real)
    requires licensePct + supportPct == 1.0
    ensures DiscountedStream(PerPeriod(Share(statedTotal, supportPct), Months), 0.0, Months)
            == Share(statedTotal, supportPct)
    ensures TotalPresentValue(statedTotal, licensePct, supportPct, 0.0) == statedTotal
  {
    StreamAtZeroRate(PerPeriod(Share(statedTotal, supportPct), Months), Months);
    SpreadEvenly(Share(statedTotal, supportPct), Months);
    SharesAdd(statedTotal, licensePct, supportPct);
  }

  /** With a positive rate and a positive support share the discount is
      positive, and the total present value still exceeds the license. */
  lemma PositiveDiscount(statedTotal: real, licensePct: real, supportPct: real, monthlyRate: real)
    requires licensePct + supportPct == 1.0 && monthlyRate > 0.0
    requires Share(statedTotal, supportPct) > 0.0
    ensures Share(statedTotal, licensePct) < TotalPresentValue(statedTotal, licensePct, supportPct, monthlyRate)
    ensures TotalPresentValue(statedTotal, licensePct, supportPct, monthlyRate) < statedTotal
  {
    var monthly := PerPeriod(Share(statedTotal, supportPct), Months);
    SpreadEvenly(Share(statedTotal, supportPct), Months);
    StreamBelowStated(monthly, monthlyRate, Months);
    SharesAdd(statedTotal, licensePct, supportPct);
  }

  lemma SharesAdd(amount: real, licensePct: real, supportPct: real)
    requires licensePct + supportPct == 1.0
    ensures Share(amount, licensePct) + Share(amount, supportPct) == amount
  {
    assert amount * licensePct + amount * supportPct == amount * (licensePct + supportPct);
  }
}
