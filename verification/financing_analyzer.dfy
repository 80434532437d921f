/** The Python `ASC606FinancingAnalyzer`: a significant-financing-component
    analysis in annual steps (ASC 606-10-32-15). It discounts each period's
    stated amount over whole years, splits the present value between the
    license and the support deliverables, allocates the financing component to
    the years in proportion to the opening balances and posts the result as
    journal entries.

    The analyzer keeps its results in a dictionary that each step fills in
    place and that later steps read, computing a missing key on demand. Here
    that dictionary is the record `Results`, one optional field per key. Each
    step is a pure function on (`Terms`, `Results`), and each method of the
    class `Analyzer` is proved to do exactly what its step function does.
    The exceptions the Python code raises (division by zero, a missing key,
    an empty list) are the outcome `Fail`. The results keep every key that was
    stored before the failing line. */
module FinancingAnalyzer {
  import opened Finance
  import opened Contracts
  import opened Ledger

  datatype Option<T> = None | Some(value: T)

  /** The divisions at which the analysis can divide by zero. */
  datatype Division =
    | DiscountFactor   // stated / (1 + rate) ** i with rate == -1
    | FinancingPct     // financing / total stated, or financing / cash received
    | AnnualSupport    // support total / number of periods
    | InterestWeights  // balance / sum of opening balances

  /** The exceptions the analysis raises. */
  datatype Error =
    | ZeroDivisionError(site: Division)
    | KeyError(key: string)
    | IndexError

  datatype Outcome = Pass | Fail(error: Error)

  /** One line of `pv_analysis`. The service midpoint is not modelled. */
  datatype PvRow = PvRow(
    period: nat,
    start: Date,
    end: Date,
    yearsFromPayment: real,
    statedAmount: real,
    presentValue: real,
    financingComponent: real)

  datatype RowLabel = LicenseDelivery | Year(n: nat)

  /** One line of the amortization schedule. */
  datatype ScheduleRow = ScheduleRow(
    period: RowLabel,
    date: Date,
    openingLiability: real,
    interestIncome: real,
    revenueRecognized: real,
    endingLiability: real)

  datatype Description =
    | InitialCashReceipt
    | LicenseRevenueRecognition
    | InterestIncomeYear(year: nat)
    | SupportRevenueYear(year: nat)

  type JournalEntry = Entry<Description>

  /** The analyzer's `results` dictionary: `None` where the key is absent. */
  datatype Results = Results(
    pvAnalysis: Option<seq<PvRow>>,
    totalStated: Option<real>,
    totalPv: Option<real>,
    financingComponent: Option<real>,
    financingPct: Option<real>,
    licenseRevenue: Option<real>,
    supportTotal: Option<real>,
    annualSupport: Option<real>,
    amortizationSchedule: Option<seq<ScheduleRow>>,
    journalEntries: Option<seq<JournalEntry>>)

  const NoResults := Results(None, None, None, None, None, None, None, None, None, None)

  /** What the analyzer is constructed with. */
  datatype Terms = Terms(
    cashReceived: real,
    paymentDate: Date,
    periods: seq<Period>,
    discountRate: real,
    licensePct: real,
    overridePv: Option<real>)
  {
    function SupportPct(): real { 1.0 - licensePct }

    /** `if self.override_pv:` is false for an absent override and for 0. */
    predicate Overridden() { overridePv.Some? && overridePv.value != 0.0 }
  }

  // ---------------------------------------------------------------------
  // Present value of the periods (calculate_present_value)
  // ---------------------------------------------------------------------

  /** The row for the period at 1-based position `i`, discounted over `i`
      whole years: its present value grown back over those years is the
      stated amount, and present value plus financing is the stated amount. */
  function PvRowAt(p: Period, i: nat, rate: real): (row: PvRow)
    requires i >= 1 && 1.0 + rate != 0.0
    ensures row.presentValue * Pow(1.0 + rate, i) == p.statedAmount
    ensures row.presentValue + row.financingComponent == p.statedAmount
    ensures row.period == i && row.yearsFromPayment == i as real
    ensures row.start == p.start && row.end == p.end && row.statedAmount == p.statedAmount
  {
    var pv := Discount(p.statedAmount, rate, i);
    PvRow(i, p.start, p.end, i as real, p.statedAmount, pv, p.statedAmount - pv)
  }

  /** With no discount rate nothing is discounted; with a positive rate a
      positive stated amount is discounted to a smaller positive value. */
  lemma PresentValueBounds(p: Period, i: nat, rate: real)
    requires i >= 1 && 1.0 + rate != 0.0
    ensures rate == 0.0 ==> PvRowAt(p, i, rate).presentValue == p.statedAmount
    ensures rate > 0.0 && p.statedAmount > 0.0 ==>
      0.0 < PvRowAt(p, i, rate).presentValue < p.statedAmount
    ensures rate > 0.0 && p.statedAmount > 0.0 ==> PvRowAt(p, i, rate).financingComponent > 0.0
  {
    DiscountBounds(p.statedAmount, rate, i);
  }

  /** `pv_analysis`: one row per period, in input order. */
  function PvAnalysis(periods: seq<Period>, rate: real): (rows: seq<PvRow>)
    requires Discountable(rate, |periods|)
    ensures |rows| == |periods|
  {
    if |periods| == 0 then []
    else PvAnalysis(periods[..|periods| - 1], rate) + [PvRowAt(periods[|periods| - 1], |periods|, rate)]
  }

  lemma PvAnalysisSnoc(periods: seq<Period>, rate: real, i: nat)
    requires i < |periods| && 1.0 + rate != 0.0
    ensures PvAnalysis(periods[..i + 1], rate)
         == PvAnalysis(periods[..i], rate) + [PvRowAt(periods[i], i + 1, rate)]
  {
    assert periods[..i + 1][..i] == periods[..i];
  }

  lemma {:induction false} PvAnalysisAt(periods: seq<Period>, rate: real, j: nat)
    requires Discountable(rate, |periods|) && j < |periods|
    ensures 1.0 + rate != 0.0
    ensures PvAnalysis(periods, rate)[j] == PvRowAt(periods[j], j + 1, rate)
  {
    var k := |periods| - 1;
    if j < k {
      PvAnalysisAt(periods[..k], rate, j);
    }
  }

  function StatedColumn(rows: seq<PvRow>): (xs: seq<real>)
    ensures |xs| == |rows| && forall i :: 0 <= i < |rows| ==> xs[i] == rows[i].statedAmount
  {
    seq(|rows|, i requires 0 <= i < |rows| => rows[i].statedAmount)
  }

  function PvColumn(rows: seq<PvRow>): (xs: seq<real>)
    ensures |xs| == |rows| && forall i :: 0 <= i < |rows| ==> xs[i] == rows[i].presentValue
  {
    seq(|rows|, i requires 0 <= i < |rows| => rows[i].presentValue)
  }

  function FinancingColumn(rows: seq<PvRow>): (xs: seq<real>)
    ensures |xs| == |rows| && forall i :: 0 <= i < |rows| ==> xs[i] == rows[i].financingComponent
  {
    seq(|rows|, i requires 0 <= i < |rows| => rows[i].financingComponent)
  }

  /** The totals of `pv_analysis`: the stated total is the contract's, and the
      total financing is the stated total less the total present value. */
  lemma PvTotals(periods: seq<Period>, rate: real)
    requires Discountable(rate, |periods|)
    ensures var rows := PvAnalysis(periods, rate);
      && Sum(StatedColumn(rows)) == Sum(StatedAmounts(periods))
      && Sum(FinancingColumn(rows)) == Sum(StatedColumn(rows)) - Sum(PvColumn(rows))
  {
    var rows := PvAnalysis(periods, rate);
    forall j | 0 <= j < |rows|
      ensures rows[j].statedAmount == periods[j].statedAmount
      ensures rows[j].financingComponent == rows[j].statedAmount - rows[j].presentValue
    {
      PvAnalysisAt(periods, rate, j);
    }
    assert StatedColumn(rows) == StatedAmounts(periods);
    SumDifference(StatedColumn(rows), PvColumn(rows), FinancingColumn(rows));
  }

  /** calculate_present_value. */
  function PvStep(t: Terms, res: Results): (r: (Results, Outcome))
    ensures r.1.Pass? ==> r.0.totalPv.Some?
  {
    if !Discountable(t.discountRate, |t.periods|) then
      (res, Fail(ZeroDivisionError(DiscountFactor)))
    else
      var rows := PvAnalysis(t.periods, t.discountRate);
      var stated := Sum(StatedColumn(rows));
      var fin := Sum(FinancingColumn(rows));
      var res1 := res.(pvAnalysis := Some(rows), totalStated := Some(stated),
                       totalPv := Some(Sum(PvColumn(rows))), financingComponent := Some(fin));
      if stated == 0.0 then (res1, Fail(ZeroDivisionError(FinancingPct)))
      else (res1.(financingPct := Some(fin / stated * 100.0)), Pass)
  }

  /** calculate_present_value divides by a zero discount factor exactly when
      the rate is -1 and there is a period, and then stores nothing.
      Otherwise it stores the table, the stated total and the financing
      (the stated total less the present value), and then divides by the
      stated total. It touches no other key. */
  lemma PvStepEffect(t: Terms, res: Results)
    ensures !Discountable(t.discountRate, |t.periods|) ==>
      PvStep(t, res) == (res, Fail(ZeroDivisionError(DiscountFactor)))
    ensures Discountable(t.discountRate, |t.periods|) ==>
      && PvStep(t, res).0.pvAnalysis == Some(PvAnalysis(t.periods, t.discountRate))
      && PvStep(t, res).0.totalStated == Some(Sum(StatedAmounts(t.periods)))
      && PvStep(t, res).0.totalPv == Some(Sum(PvColumn(PvAnalysis(t.periods, t.discountRate))))
      && PvStep(t, res).0.financingComponent
         == Some(Sum(StatedAmounts(t.periods)) - PvStep(t, res).0.totalPv.value)
      && (PvStep(t, res).1 == Pass <==> Sum(StatedAmounts(t.periods)) != 0.0)
      && (PvStep(t, res).1 != Pass ==>
            PvStep(t, res).1 == Fail(ZeroDivisionError(FinancingPct))
            && PvStep(t, res).0.financingPct == res.financingPct)
      && (PvStep(t, res).1 == Pass ==>
            PvStep(t, res).0.financingPct
            == Some(PvStep(t, res).0.financingComponent.value / Sum(StatedAmounts(t.periods)) * 100.0))
    ensures && PvStep(t, res).0.licenseRevenue == res.licenseRevenue
            && PvStep(t, res).0.supportTotal == res.supportTotal
            && PvStep(t, res).0.annualSupport == res.annualSupport
            && PvStep(t, res).0.amortizationSchedule == res.amortizationSchedule
            && PvStep(t, res).0.journalEntries == res.journalEntries
  {
    if Discountable(t.discountRate, |t.periods|) {
      PvTotals(t.periods, t.discountRate);
    }
  }

  /** The override branch shared by allocate_transaction_price and analyze:
      the transaction price is the override and the financing component is
      the cash received less it; the percentage is that financing per 100 of
      cash received. Both amounts are stored before the percentage divides,
      so a zero cash received fails with them in place, and no other key is
      touched. */
  function OverrideStep(t: Terms, res: Results): (r: (Results, Outcome))
    requires t.Overridden()
    ensures r.0.totalPv == Some(t.overridePv.value)
    ensures r.0.financingComponent == Some(t.cashReceived - t.overridePv.value)
    ensures r.1.Pass? <==> t.cashReceived != 0.0
    ensures r.1.Fail? ==> r.1 == Fail(ZeroDivisionError(FinancingPct)) && r.0.financingPct == res.financingPct
    ensures r.1.Pass? ==> r.0.financingPct.Some?
                          && r.0.financingPct.value * t.cashReceived == (t.cashReceived - t.overridePv.value) * 100.0
    ensures && r.0.pvAnalysis == res.pvAnalysis
            && r.0.totalStated == res.totalStated
            && KeepsAllocation(res, r.0)
  {
    var ov := t.overridePv.value;
    var res1 := res.(totalPv := Some(ov), financingComponent := Some(t.cashReceived - ov));
    if t.cashReceived == 0.0 then (res1, Fail(ZeroDivisionError(FinancingPct)))
    else (res1.(financingPct := Some((t.cashReceived - ov) / t.cashReceived * 100.0)), Pass)
  }

  /** Neither the allocation nor anything built from it has changed. */
  predicate KeepsAllocation(before: Results, after: Results)
  {
    && after.licenseRevenue == before.licenseRevenue
    && after.supportTotal == before.supportTotal
    && after.annualSupport == before.annualSupport
    && after.amortizationSchedule == before.amortizationSchedule
    && after.journalEntries == before.journalEntries
  }

  /** What the financing percentage is taken of: the cash received with an
      override, the stated total otherwise. */
  function PctBase(t: Terms): real
  {
    if t.Overridden() then t.cashReceived else Sum(StatedAmounts(t.periods))
  }

  // ---------------------------------------------------------------------
  // Allocation (allocate_transaction_price)
  // ---------------------------------------------------------------------

  /** The transaction price, taken from the results or computed on demand. */
  function PriceStep(t: Terms, res: Results): (r: (Results, Outcome))
    ensures r.1.Pass? ==> r.0.totalPv.Some?
  {
    if res.totalPv.Some? then (res, Pass)
    else if t.Overridden() then OverrideStep(t, res)
    else PvStep(t, res)
  }

  /** Pricing on demand divides by zero nowhere: with an override the
      percentage is taken of the cash received, otherwise every discount
      factor and the stated total must be non-zero. */
  predicate PricingSucceeds(t: Terms)
  {
    if t.Overridden() then t.cashReceived != 0.0
    else 1.0 + t.discountRate != 0.0 && Sum(StatedAmounts(t.periods)) != 0.0
  }

  /** A price already in the results is kept and nothing is stored.
      Otherwise the price is computed (the override, or the total present
      value) and stored together with its financing component, unless a
      discount factor is zero; the step passes exactly when no division on
      the way is by zero. */
  lemma PriceStepEffect(t: Terms, res: Results)
    ensures res.totalPv.Some? ==> PriceStep(t, res) == (res, Pass)
    ensures res.totalPv.None? ==> (PriceStep(t, res).1 == Pass <==> PricingSucceeds(t))
    ensures res.totalPv.None? && PriceStep(t, res).1 != Fail(ZeroDivisionError(DiscountFactor)) ==>
      && (t.Overridden() || Discountable(t.discountRate, |t.periods|))
      && PriceStep(t, res).0.totalPv == Some(TransactionPrice(t))
      && PriceStep(t, res).0.financingComponent == Some(FinancingOf(t))
    ensures res.totalPv.None? && PriceStep(t, res).1 == Pass ==>
      PriceStep(t, res).0.financingPct == Some(FinancingOf(t) / PctBase(t) * 100.0)
    ensures KeepsAllocation(res, PriceStep(t, res).0)
    ensures res.totalPv.None? && t.Overridden() ==> PriceStep(t, res) == OverrideStep(t, res)
    ensures res.totalPv.None? && !t.Overridden() ==> PriceStep(t, res) == PvStep(t, res)
  {
    if res.totalPv.None? && !t.Overridden() {
      PvStepEffect(t, res);
      if Discountable(t.discountRate, |t.periods|) {
        PvTotals(t.periods, t.discountRate);
      }
    }
  }

  /** allocate_transaction_price: the license takes `license_pct` of the
      price, support the rest, and the support is spread evenly over the years. */
  function AllocateStep(t: Terms, res: Results): (r: (Results, Outcome))
    ensures r.1.Pass? ==> r.0.licenseRevenue.Some? && r.0.totalPv.Some?
  {
    var priced := PriceStep(t, res);
    if priced.1.Fail? then priced
    else
      var tp := priced.0.totalPv.value;
      var res2 := priced.0.(licenseRevenue := Some(Share(tp, t.licensePct)),
                            supportTotal := Some(Share(tp, t.SupportPct())));
      if |t.periods| == 0 then (res2, Fail(ZeroDivisionError(AnnualSupport)))
      else (res2.(annualSupport := Some(PerPeriod(Share(tp, t.SupportPct()), |t.periods|))), Pass)
  }

  /** With a price already stored, allocate_transaction_price gives the
      license its percentage of the price and support the rest, then
      spreads the support over the years, which fails only when there are
      none. The price keys and the later keys are left as they were. */
  lemma AllocateStepEffect(t: Terms, res: Results)
    requires res.totalPv.Some?
    ensures AllocateStep(t, res).0.licenseRevenue == Some(Share(res.totalPv.value, t.licensePct))
    ensures AllocateStep(t, res).0.supportTotal == Some(Share(res.totalPv.value, 1.0 - t.licensePct))
    ensures AllocateStep(t, res).1 == Pass <==> |t.periods| > 0
    ensures |t.periods| > 0 ==>
      AllocateStep(t, res).0.annualSupport == Some(PerPeriod(Share(res.totalPv.value, 1.0 - t.licensePct), |t.periods|))
    ensures |t.periods| == 0 ==>
      AllocateStep(t, res).1 == Fail(ZeroDivisionError(AnnualSupport))
      && AllocateStep(t, res).0.annualSupport == res.annualSupport
    ensures && AllocateStep(t, res).0.pvAnalysis == res.pvAnalysis
            && AllocateStep(t, res).0.totalStated == res.totalStated
            && AllocateStep(t, res).0.totalPv == res.totalPv
            && AllocateStep(t, res).0.financingComponent == res.financingComponent
            && AllocateStep(t, res).0.financingPct == res.financingPct
            && AllocateStep(t, res).0.amortizationSchedule == res.amortizationSchedule
            && AllocateStep(t, res).0.journalEntries == res.journalEntries
  {
  }

  // ---------------------------------------------------------------------
  // Amortization schedule (build_amortization_schedule)
  // ---------------------------------------------------------------------

  /** The opening balances used as interest weights: `n` balances stepping
      down by `step` from `current`. */
  function OpeningBalances(current: real, step: real, n: nat): (b: seq<real>)
    ensures |b| == n
    decreases n
  {
    if n == 0 then [] else [current] + OpeningBalances(current - step, step, n - 1)
  }

  /** The `k`-th opening balance is `current` less `k` steps. */
  lemma {:induction false} OpeningBalancesAt(current: real, step: real, n: nat, k: nat)
    requires k < n
    ensures OpeningBalances(current, step, n)[k] == current - k as real * step
    decreases k
  {
    if k > 0 {
      OpeningBalancesAt(current - step, step, n - 1, k - 1);
    }
  }

  /** The interest of each year: the financing component in proportion to the
      year's opening balance. */
  function InterestShares(financing: real, balances: seq<real>): (shares: seq<real>)
    requires |balances| == 0 || Sum(balances) != 0.0
    ensures |shares| == |balances|
    ensures forall i :: 0 <= i < |balances| ==> shares[i] * Sum(balances) == financing * balances[i]
  {
    seq(|balances|, i requires 0 <= i < |balances| => financing * (balances[i] / Sum(balances)))
  }

  /** The proportional shares add up to the whole financing component. */
  lemma InterestSharesSum(financing: real, balances: seq<real>)
    requires Sum(balances) != 0.0
    ensures Sum(InterestShares(financing, balances)) == financing
  {
    var total := Sum(balances);
    var shares := InterestShares(financing, balances);
    var c := financing / total;
    forall i | 0 <= i < |shares|
      ensures shares[i] == c * balances[i]
    {
      assert shares[i] == financing * (balances[i] / total);
    }
    SumScaled(c, balances, shares);
  }

  /** The license row: cash received, less the license revenue. */
  function LicenseRow(date: Date, cash: real, license: real): ScheduleRow
  {
    ScheduleRow(LicenseDelivery, date, cash, 0.0, license, cash - license)
  }

  /** The year rows, each opening at the previous ending. */
  function YearRows(periods: seq<Period>, interest: seq<real>, opening: real, annual: real, year: nat)
    : (rows: seq<ScheduleRow>)
    requires |interest| == |periods|
    ensures |rows| == |periods|
    decreases |periods|
  {
    if |periods| == 0 then []
    else
      var ending := opening + interest[0] - annual;
      [ScheduleRow(Year(year), periods[0].end, opening, interest[0], annual, ending)]
        + YearRows(periods[1..], interest[1..], ending, annual, year + 1)
  }

  lemma YearRowsCons(periods: seq<Period>, interest: seq<real>, opening: real, annual: real, year: nat)
    requires |interest| == |periods| > 0
    ensures YearRows(periods, interest, opening, annual, year)
         == [ScheduleRow(Year(year), periods[0].end, opening, interest[0], annual, opening + interest[0] - annual)]
            + YearRows(periods[1..], interest[1..], opening + interest[0] - annual, annual, year + 1)
  {
  }

  /** Row `j` of the year rows: dated at the end of period `j`, opening at
      the first opening plus the interest and less the support of the years
      before, and ending at its opening plus its interest less the support. */
  lemma {:induction false} YearRowsAt(periods: seq<Period>, interest: seq<real>, opening: real, annual: real, year: nat, j: nat)
    requires |interest| == |periods| && j < |periods|
    ensures var row := YearRows(periods, interest, opening, annual, year)[j];
      && row.period == Year(year + j) && row.date == periods[j].end
      && row.interestIncome == interest[j] && row.revenueRecognized == annual
      && row.openingLiability == opening + Sum(interest[..j]) - j as real * annual
      && row.endingLiability == row.openingLiability + interest[j] - annual
    decreases j
  {
    YearRowsFieldsAt(periods, interest, opening, annual, year, j);
    if j == 0 {
      YearRowsCons(periods, interest, opening, annual, year);
      assert interest[..0] == [];
    } else {
      var ending := opening + interest[0] - annual;
      YearRowsCons(periods, interest, opening, annual, year);
      YearRowsAt(periods[1..], interest[1..], ending, annual, year + 1, j - 1);
      PrefixSumCons(interest, j);
      StepBack(opening, interest[0], Sum(interest[1..][..j - 1]), annual, j);
    }
  }

  lemma PrefixSumCons(xs: seq<real>, j: nat)
    requires 0 < j <= |xs|
    ensures Sum(xs[..j]) == xs[0] + Sum(xs[1..][..j - 1])
  {
    assert xs[..j] == [xs[0]] + xs[1..][..j - 1];
    SumCons(xs[0], xs[1..][..j - 1]);
  }

  lemma StepBack(opening: real, first: real, rest: real, annual: real, j: nat)
    requires j > 0
    ensures (opening + first - annual) + rest - (j - 1) as real * annual
         == opening + (first + rest) - j as real * annual
  {
  }

  /** The labels, dates, interest and support of row `j` of the year rows. */
  lemma {:induction false} YearRowsFieldsAt(periods: seq<Period>, interest: seq<real>, opening: real, annual: real,
                                            year: nat, j: nat)
    requires |interest| == |periods| && j < |periods|
    ensures var row := YearRows(periods, interest, opening, annual, year)[j];
      && row.period == Year(year + j) && row.date == periods[j].end
      && row.interestIncome == interest[j] && row.revenueRecognized == annual
    decreases j
  {
    if j > 0 {
      YearRowsFieldsAt(periods[1..], interest[1..], opening + interest[0] - annual, annual, year + 1, j - 1);
    }
  }

  function Interests(rows: seq<ScheduleRow>): (xs: seq<real>)
    ensures |xs| == |rows| && forall i :: 0 <= i < |rows| ==> xs[i] == rows[i].interestIncome
  {
    seq(|rows|, i requires 0 <= i < |rows| => rows[i].interestIncome)
  }

  function Revenues(rows: seq<ScheduleRow>): (xs: seq<real>)
    ensures |xs| == |rows| && forall i :: 0 <= i < |rows| ==> xs[i] == rows[i].revenueRecognized
  {
    seq(|rows|, i requires 0 <= i < |rows| => rows[i].revenueRecognized)
  }

  /** The interest weights of a schedule can be divided by. */
  predicate WeightsNonZero(cash: real, periods: seq<Period>, license: real, annual: real)
  {
    |periods| == 0 || Sum(OpeningBalances(cash - license, annual, |periods|)) != 0.0
  }

  /** The license row followed by the year rows. */
  function ScheduleRows(cash: real, date: Date, periods: seq<Period>, license: real, annual: real, financing: real)
    : (rows: seq<ScheduleRow>)
    requires WeightsNonZero(cash, periods, license, annual)
    ensures |rows| == |periods| + 1
  {
    var ending := cash - license;
    [LicenseRow(date, cash, license)]
      + YearRows(periods, InterestShares(financing, OpeningBalances(ending, annual, |periods|)), ending, annual, 1)
  }

  /** The schedule, or `None` where the interest weights sum to zero. */
  function Schedule(cash: real, date: Date, periods: seq<Period>, license: real, annual: real, financing: real)
    : Option<seq<ScheduleRow>>
  {
    if WeightsNonZero(cash, periods, license, annual)
    then Some(ScheduleRows(cash, date, periods, license, annual, financing))
    else None
  }

  /** The schedule opens with the license row, then has one row per year,
      dated at the end of its period; every year row opens at the previous
      row's ending and ends at its opening plus its interest less the support. */
  lemma ScheduleChaining(cash: real, date: Date, periods: seq<Period>, license: real, annual: real, financing: real)
    requires WeightsNonZero(cash, periods, license, annual)
    ensures var rows := ScheduleRows(cash, date, periods, license, annual, financing);
      && rows[0] == LicenseRow(date, cash, license)
      && (forall j :: 1 <= j < |rows| ==>
            && rows[j].period == Year(j) && rows[j].date == periods[j - 1].end
            && rows[j].revenueRecognized == annual
            && rows[j].openingLiability == rows[j - 1].endingLiability
            && rows[j].endingLiability == rows[j].openingLiability + rows[j].interestIncome - annual)
  {
    var ending := cash - license;
    var interest := InterestShares(financing, OpeningBalances(ending, annual, |periods|));
    var years := YearRows(periods, interest, ending, annual, 1);
    var rows := ScheduleRows(cash, date, periods, license, annual, financing);
    forall j | 1 <= j < |rows|
      ensures rows[j].period == Year(j) && rows[j].date == periods[j - 1].end
      ensures rows[j].revenueRecognized == annual
      ensures rows[j].openingLiability == rows[j - 1].endingLiability
      ensures rows[j].endingLiability == rows[j].openingLiability + rows[j].interestIncome - annual
    {
      assert rows[j] == years[j - 1];
      YearRowsAt(periods, interest, ending, annual, 1, j - 1);
      if j > 1 {
        assert rows[j - 1] == years[j - 2];
        YearRowsChained(periods, interest, ending, annual, 1, j - 1);
      }
    }
  }

  /** Each year row opens at the previous year row's ending. */
  lemma {:induction false} YearRowsChained(periods: seq<Period>, interest: seq<real>, opening: real, annual: real, year: nat, j: nat)
    requires |interest| == |periods| && 1 <= j < |periods|
    ensures var rows := YearRows(periods, interest, opening, annual, year);
      rows[j].openingLiability == rows[j - 1].endingLiability
    decreases j
  {
    if j > 1 {
      YearRowsChained(periods[1..], interest[1..], opening + interest[0] - annual, annual, year + 1, j - 1);
    }
  }

  /** The interest of the years adds up to the financing component, so the
      last ending is the cash received less the license and all the support,
      plus the financing component; and revenue plus interest over all rows
      is license plus support plus financing. */
  lemma ScheduleTotals(cash: real, date: Date, periods: seq<Period>, license: real, annual: real, financing: real)
    requires |periods| > 0 && WeightsNonZero(cash, periods, license, annual)
    ensures var rows := ScheduleRows(cash, date, periods, license, annual, financing);
      var n := |periods|;
      && Sum(Interests(rows)) == financing
      && rows[n].endingLiability == cash - license - n as real * annual + financing
      && Sum(Revenues(rows)) + Sum(Interests(rows)) == license + n as real * annual + financing
  {
    var n := |periods|;
    var ending := cash - license;
    var balances := OpeningBalances(ending, annual, n);
    var interest := InterestShares(financing, balances);
    var years := YearRows(periods, interest, ending, annual, 1);
    var rows := ScheduleRows(cash, date, periods, license, annual, financing);
    YearColumns(periods, interest, ending, annual, 1);
    ColumnsCons(LicenseRow(date, cash, license), years);
    assert rows == [LicenseRow(date, cash, license)] + years;
    SumCons(0.0, interest);
    SumCons(license, Revenues(years));
    InterestSharesSum(financing, balances);
    YearRowsLastEnding(periods, interest, ending, annual, 1);
  }

  lemma ColumnsCons(row: ScheduleRow, rows: seq<ScheduleRow>)
    ensures Interests([row] + rows) == [row.interestIncome] + Interests(rows)
    ensures Revenues([row] + rows) == [row.revenueRecognized] + Revenues(rows)
  {
  }

  /** The year rows carry the interest shares and the same support each year. */
  lemma YearColumns(periods: seq<Period>, interest: seq<real>, opening: real, annual: real, year: nat)
    requires |interest| == |periods|
    ensures Interests(YearRows(periods, interest, opening, annual, year)) == interest
    ensures Sum(Revenues(YearRows(periods, interest, opening, annual, year))) == |periods| as real * annual
  {
    YearInterests(periods, interest, opening, annual, year);
    YearRevenues(periods, interest, opening, annual, year);
  }

  lemma YearInterests(periods: seq<Period>, interest: seq<real>, opening: real, annual: real, year: nat)
    requires |interest| == |periods|
    ensures Interests(YearRows(periods, interest, opening, annual, year)) == interest
  {
    var xs := Interests(YearRows(periods, interest, opening, annual, year));
    forall j | 0 <= j < |xs|
      ensures xs[j] == interest[j]
    {
      YearRowsFieldsAt(periods, interest, opening, annual, year, j);
    }
  }

  lemma YearRevenues(periods: seq<Period>, interest: seq<real>, opening: real, annual: real, year: nat)
    requires |interest| == |periods|
    ensures Sum(Revenues(YearRows(periods, interest, opening, annual, year))) == |periods| as real * annual
  {
    var xs := Revenues(YearRows(periods, interest, opening, annual, year));
    forall j | 0 <= j < |xs|
      ensures xs[j] == annual
    {
      YearRowsFieldsAt(periods, interest, opening, annual, year, j);
    }
    SumConstant(annual, xs);
  }

  /** The last year row ends at the first opening plus all the interest less
      all the support. */
  lemma YearRowsLastEnding(periods: seq<Period>, interest: seq<real>, opening: real, annual: real, year: nat)
    requires |interest| == |periods| > 0
    ensures var n := |periods|;
      YearRows(periods, interest, opening, annual, year)[n - 1].endingLiability
      == opening + Sum(interest) - n as real * annual
  {
    var n := |periods|;
    YearRowsAt(periods, interest, opening, annual, year, n - 1);
    assert interest[..n - 1] + [interest[n - 1]] == interest;
    SumAppend(interest[..n - 1], [interest[n - 1]]);
    SumSingleton(interest[n - 1]);
  }

  /** build_amortization_schedule. */
  function ScheduleStep(t: Terms, res: Results): (r: (Results, Outcome))
    ensures r.1.Pass? ==> r.0.amortizationSchedule.Some?
  {
    var allocation := if res.licenseRevenue.Some? then (res, Pass) else AllocateStep(t, res);
    var res1 := allocation.0;
    if allocation.1.Fail? then allocation
    else if res1.annualSupport.None? then (res1, Fail(KeyError("annual_support")))
    else if res1.financingComponent.None? then (res1, Fail(KeyError("financing_component")))
    else
      match Schedule(t.cashReceived, t.paymentDate, t.periods, res1.licenseRevenue.value,
                     res1.annualSupport.value, res1.financingComponent.value)
      case None => (res1, Fail(ZeroDivisionError(InterestWeights)))
      case Some(rows) => (res1.(amortizationSchedule := Some(rows)), Pass)
  }

  /** With the allocation stored, build_amortization_schedule reads the
      annual support and the financing component (a missing key is a
      KeyError), divides by the sum of the opening balances and stores the
      schedule, and nothing else. */
  lemma ScheduleStepEffect(t: Terms, res: Results)
    requires res.licenseRevenue.Some?
    ensures res.annualSupport.None? ==> ScheduleStep(t, res) == (res, Fail(KeyError("annual_support")))
    ensures res.annualSupport.Some? && res.financingComponent.None? ==>
      ScheduleStep(t, res) == (res, Fail(KeyError("financing_component")))
    ensures res.annualSupport.Some? && res.financingComponent.Some? ==>
      var license, annual := res.licenseRevenue.value, res.annualSupport.value;
      && (ScheduleStep(t, res).1 == Pass <==> WeightsNonZero(t.cashReceived, t.periods, license, annual))
      && (WeightsNonZero(t.cashReceived, t.periods, license, annual) ==>
            ScheduleStep(t, res).0 == res.(amortizationSchedule := Some(ScheduleRows(
              t.cashReceived, t.paymentDate, t.periods, license, annual, res.financingComponent.value))))
      && (!WeightsNonZero(t.cashReceived, t.periods, license, annual) ==>
            ScheduleStep(t, res) == (res, Fail(ZeroDivisionError(InterestWeights))))
  {
  }

  // ---------------------------------------------------------------------
  // Journal entries (generate_journal_entries)
  // ---------------------------------------------------------------------

  /** Entry 1: the cash received, into the contract liability. */
  function CashEntry(cash: real, date: Date): JournalEntry
  {
    Posting(1, date, InitialCashReceipt, "Cash", "Contract Liability", cash)
  }

  /** Entry 2: the license revenue of the schedule's license row. */
  function LicenseEntry(row: ScheduleRow): JournalEntry
  {
    Posting(2, row.date, LicenseRevenueRecognition, "Contract Liability", "License Revenue", row.revenueRecognized)
  }

  function InterestEntry(num: nat, row: ScheduleRow, year: nat): JournalEntry
  {
    Posting(num, row.date, InterestIncomeYear(year), "Contract Liability", "Interest Income", row.interestIncome)
  }

  function SupportEntry(num: nat, row: ScheduleRow, year: nat): JournalEntry
  {
    Posting(num, row.date, SupportRevenueYear(year), "Contract Liability", "Support Revenue", row.revenueRecognized)
  }

  /** The interest and support entries of the year rows, numbered from `num`. */
  function YearEntries(rows: seq<ScheduleRow>, year: nat, num: nat): (entries: seq<JournalEntry>)
    ensures |entries| == 2 * |rows|
  {
    if |rows| == 0 then []
    else [InterestEntry(num, rows[0], year), SupportEntry(num + 1, rows[0], year)]
         + YearEntries(rows[1..], year + 1, num + 2)
  }

  lemma YearEntriesCons(rows: seq<ScheduleRow>, year: nat, num: nat)
    requires |rows| > 0
    ensures YearEntries(rows, year, num)
         == [InterestEntry(num, rows[0], year), SupportEntry(num + 1, rows[0], year)]
            + YearEntries(rows[1..], year + 1, num + 2)
  {
  }

  lemma {:induction false} YearEntriesAt(rows: seq<ScheduleRow>, year: nat, num: nat, y: nat)
    requires y < |rows|
    ensures YearEntries(rows, year, num)[2 * y] == InterestEntry(num + 2 * y, rows[y], year + y)
    ensures YearEntries(rows, year, num)[2 * y + 1] == SupportEntry(num + 2 * y + 1, rows[y], year + y)
  {
    if y > 0 {
      YearEntriesAt(rows[1..], year + 1, num + 2, y - 1);
    }
  }

  /** All entries, from a schedule whose first row is the license row. */
  function JournalEntries(cash: real, date: Date, schedule: seq<ScheduleRow>): (e: seq<JournalEntry>)
    requires |schedule| >= 1
    ensures |e| == 2 * |schedule|
  {
    [CashEntry(cash, date), LicenseEntry(schedule[0])] + YearEntries(schedule[1..], 1, 3)
  }

  /** There are two entries and two more per year, numbered 1, 2, 3, ...
      without gaps; each has one debit and one credit for the same amount.
      Entry 1 records the cash received, entry 2 the license revenue, and
      each year contributes its interest entry and then its support entry,
      with the amounts and the date of that year's row. */
  lemma JournalEntriesProperties(cash: real, date: Date, schedule: seq<ScheduleRow>)
    requires |schedule| >= 1
    ensures var e := JournalEntries(cash, date, schedule);
      && |e| == 2 * |schedule|
      && NumberedFrom(e, 1)
      && (forall i :: 0 <= i < |e| ==> SimplePosting(e[i]) && Balanced(e[i]))
      && e[0].debits == [Line("Cash", cash)] && e[0].credits == [Line("Contract Liability", cash)]
      && e[0].date == date
      && e[1].credits == [Line("License Revenue", schedule[0].revenueRecognized)]
      && (forall y :: 1 <= y < |schedule| ==>
            && e[2 * y].description == InterestIncomeYear(y)
            && e[2 * y].credits == [Line("Interest Income", schedule[y].interestIncome)]
            && e[2 * y].date == schedule[y].date
            && e[2 * y + 1].description == SupportRevenueYear(y)
            && e[2 * y + 1].credits == [Line("Support Revenue", schedule[y].revenueRecognized)]
            && e[2 * y + 1].date == schedule[y].date)
  {
    var e := JournalEntries(cash, date, schedule);
    forall i | 2 <= i < |e|
      ensures e[i].entryNum == 1 + i && SimplePosting(e[i]) && Balanced(e[i])
    {
      JournalYearAt(cash, date, schedule, i / 2);
    }
    forall y | 1 <= y < |schedule|
      ensures e[2 * y].description == InterestIncomeYear(y)
      ensures e[2 * y].credits == [Line("Interest Income", schedule[y].interestIncome)]
      ensures e[2 * y].date == schedule[y].date
      ensures e[2 * y + 1].description == SupportRevenueYear(y)
      ensures e[2 * y + 1].credits == [Line("Support Revenue", schedule[y].revenueRecognized)]
      ensures e[2 * y + 1].date == schedule[y].date
    {
      JournalYearAt(cash, date, schedule, y);
    }
  }

  lemma JournalYearAt(cash: real, date: Date, schedule: seq<ScheduleRow>, y: nat)
    requires 1 <= y < |schedule|
    ensures var e := JournalEntries(cash, date, schedule);
      && e[2 * y].entryNum == 1 + 2 * y && SimplePosting(e[2 * y]) && Balanced(e[2 * y])
      && e[2 * y + 1].entryNum == 2 + 2 * y && SimplePosting(e[2 * y + 1]) && Balanced(e[2 * y + 1])
      && e[2 * y].description == InterestIncomeYear(y)
      && e[2 * y].credits == [Line("Interest Income", schedule[y].interestIncome)]
      && e[2 * y].date == schedule[y].date
      && e[2 * y + 1].description == SupportRevenueYear(y)
      && e[2 * y + 1].credits == [Line("Support Revenue", schedule[y].revenueRecognized)]
      && e[2 * y + 1].date == schedule[y].date
  {
    var years := YearEntries(schedule[1..], 1, 3);
    YearEntriesAt(schedule[1..], 1, 3, y - 1);
    assert JournalEntries(cash, date, schedule)[2 * y] == years[2 * (y - 1)];
    assert JournalEntries(cash, date, schedule)[2 * y + 1] == years[2 * (y - 1) + 1];
  }

  /** generate_journal_entries. */
  function EntriesStep(t: Terms, res: Results): (r: (Results, Outcome))
    ensures r.1.Pass? ==> r.0.journalEntries.Some?
  {
    var built := if res.amortizationSchedule.Some? then (res, Pass) else ScheduleStep(t, res);
    var res1 := built.0;
    if built.1.Fail? then built
    else if |res1.amortizationSchedule.value| == 0 then (res1, Fail(IndexError))
    else (res1.(journalEntries := Some(JournalEntries(t.cashReceived, t.paymentDate, res1.amortizationSchedule.value))), Pass)
  }

  /** With a schedule stored, generate_journal_entries fails only on an
      empty schedule and otherwise stores the entries and nothing else. */
  lemma EntriesStepEffect(t: Terms, res: Results)
    requires res.amortizationSchedule.Some?
    ensures |res.amortizationSchedule.value| == 0 ==> EntriesStep(t, res) == (res, Fail(IndexError))
    ensures |res.amortizationSchedule.value| > 0 ==>
      EntriesStep(t, res) == (res.(journalEntries := Some(JournalEntries(t.cashReceived, t.paymentDate,
                                                                          res.amortizationSchedule.value))), Pass)
  {
  }

  // ---------------------------------------------------------------------
  // The whole analysis (analyze)
  // ---------------------------------------------------------------------

  /** analyze, without the summary. */
  function AnalyzeStep(t: Terms, res: Results): (r: (Results, Outcome))
  {
    var priced := if t.Overridden() then OverrideStep(t, res) else PvStep(t, res);
    if priced.1.Fail? then priced
    else AfterPricing(t, priced.0)
  }

  /** The rest of analyze once the price is stored: allocation, schedule
      and journal entries, stopping at the first failure. */
  function AfterPricing(t: Terms, res: Results): (r: (Results, Outcome))
  {
    var allocation := AllocateStep(t, res);
    if allocation.1.Fail? then allocation
    else
      var built := ScheduleStep(t, allocation.0);
      if built.1.Fail? then built
      else EntriesStep(t, built.0)
  }

  /** The transaction price analyze settles on: the override when there is
      one, otherwise the total present value of the periods. */
  function TransactionPrice(t: Terms): real
    requires t.Overridden() || Discountable(t.discountRate, |t.periods|)
  {
    if t.Overridden() then t.overridePv.value else Sum(PvColumn(PvAnalysis(t.periods, t.discountRate)))
  }

  /** The financing component analyze settles on: cash received less the
      override, or the summed per-period financing. */
  function FinancingOf(t: Terms): real
    requires t.Overridden() || Discountable(t.discountRate, |t.periods|)
  {
    if t.Overridden() then t.cashReceived - t.overridePv.value
    else Sum(FinancingColumn(PvAnalysis(t.periods, t.discountRate)))
  }

  function LicenseRevenueOf(t: Terms): real
    requires t.Overridden() || Discountable(t.discountRate, |t.periods|)
  {
    Share(TransactionPrice(t), t.licensePct)
  }

  function AnnualSupportOf(t: Terms): real
    requires t.Overridden() || Discountable(t.discountRate, |t.periods|)
    requires |t.periods| > 0
  {
    PerPeriod(Share(TransactionPrice(t), t.SupportPct()), |t.periods|)
  }

  /** The inputs for which analyze divides by zero nowhere. */
  predicate AnalysisSucceeds(t: Terms)
  {
    && |t.periods| > 0
    && PricingSucceeds(t)
    && WeightsNonZero(t.cashReceived, t.periods, LicenseRevenueOf(t), AnnualSupportOf(t))
  }

  /** The schedule analyze builds. */
  function ScheduleOf(t: Terms): seq<ScheduleRow>
    requires AnalysisSucceeds(t)
  {
    ScheduleRows(t.cashReceived, t.paymentDate, t.periods, LicenseRevenueOf(t), AnnualSupportOf(t), FinancingOf(t))
  }

  /** analyze succeeds exactly when no division is by zero, whatever the
      results held before, and then stores the price, the financing, the
      allocation, the schedule and the journal entries. */
  lemma AnalyzeOutcome(t: Terms, res: Results)
    ensures AnalyzeStep(t, res).1.Pass? <==> AnalysisSucceeds(t)
    ensures AnalysisSucceeds(t) ==>
      && AnalyzeStep(t, res).0.totalPv == Some(TransactionPrice(t))
      && AnalyzeStep(t, res).0.financingComponent == Some(FinancingOf(t))
      && AnalyzeStep(t, res).0.licenseRevenue == Some(LicenseRevenueOf(t))
      && AnalyzeStep(t, res).0.supportTotal == Some(Share(TransactionPrice(t), t.SupportPct()))
      && AnalyzeStep(t, res).0.annualSupport == Some(AnnualSupportOf(t))
      && AnalyzeStep(t, res).0.amortizationSchedule == Some(ScheduleOf(t))
      && AnalyzeStep(t, res).0.journalEntries == Some(JournalEntries(t.cashReceived, t.paymentDate, ScheduleOf(t)))
      && (t.Overridden() ==>
            AnalyzeStep(t, res).0.financingPct == Some(FinancingOf(t) / t.cashReceived * 100.0))
      && (!t.Overridden() ==>
            && AnalyzeStep(t, res).0.pvAnalysis == Some(PvAnalysis(t.periods, t.discountRate))
            && AnalyzeStep(t, res).0.totalStated == Some(Sum(StatedAmounts(t.periods)))
            && AnalyzeStep(t, res).0.financingPct
               == Some(FinancingOf(t) / Sum(StatedAmounts(t.periods)) * 100.0))
  {
    PricedStage(t, res);
    var priced := if t.Overridden() then OverrideStep(t, res) else PvStep(t, res);
    if priced.1.Pass? {
      AfterPricingOutcome(t, priced.0);
    }
  }

  /** The pricing step of analyze passes exactly when pricing divides by
      zero nowhere, and then stores the transaction price, the financing
      component and, without an override, the present-value table. */
  lemma PricedStage(t: Terms, res: Results)
    ensures var priced := if t.Overridden() then OverrideStep(t, res) else PvStep(t, res);
      && (priced.1.Pass? <==> PricingSucceeds(t))
      && (priced.1.Pass? ==>
            && priced.0.totalPv == Some(TransactionPrice(t))
            && priced.0.financingComponent == Some(FinancingOf(t))
            && (t.Overridden() ==> priced.0.financingPct == Some(FinancingOf(t) / t.cashReceived * 100.0))
            && (!t.Overridden() ==>
                  && priced.0.pvAnalysis == Some(PvAnalysis(t.periods, t.discountRate))
                  && priced.0.totalStated == Some(Sum(StatedAmounts(t.periods)))
                  && priced.0.financingPct == Some(FinancingOf(t) / Sum(StatedAmounts(t.periods)) * 100.0)))
  {
    if !t.Overridden() {
      PvStepEffect(t, res);
      if Discountable(t.discountRate, |t.periods|) {
        PvTotals(t.periods, t.discountRate);
      }
    }
  }

  /** With the price and financing of the terms stored, the rest of analyze
      passes exactly when there are periods and the interest weights do not
      sum to zero, and then stores the allocation, the schedule and the
      entries, leaving the pricing keys as they were. */
  lemma AfterPricingOutcome(t: Terms, res: Results)
    requires t.Overridden() || Discountable(t.discountRate, |t.periods|)
    requires res.totalPv == Some(TransactionPrice(t)) && res.financingComponent == Some(FinancingOf(t))
    ensures AfterPricing(t, res).1.Pass? <==>
      |t.periods| > 0 && WeightsNonZero(t.cashReceived, t.periods, LicenseRevenueOf(t), AnnualSupportOf(t))
    ensures AfterPricing(t, res).1.Pass? ==>
      && AfterPricing(t, res).0 == res.(licenseRevenue := Some(LicenseRevenueOf(t)),
                                        supportTotal := Some(Share(TransactionPrice(t), t.SupportPct())),
                                        annualSupport := Some(AnnualSupportOf(t)),
                                        amortizationSchedule := Some(ScheduleRows(t.cashReceived, t.paymentDate, t.periods,
                                          LicenseRevenueOf(t), AnnualSupportOf(t), FinancingOf(t))),
                                        journalEntries := Some(JournalEntries(t.cashReceived, t.paymentDate,
                                          ScheduleRows(t.cashReceived, t.paymentDate, t.periods,
                                                       LicenseRevenueOf(t), AnnualSupportOf(t), FinancingOf(t)))))
  {
    AllocateStepEffect(t, res);
    var allocation := AllocateStep(t, res);
    if allocation.1.Pass? {
      ScheduleStepEffect(t, allocation.0);
      var built := ScheduleStep(t, allocation.0);
      if built.1.Pass? {
        EntriesStepEffect(t, built.0);
      }
    }
  }

  /** On success the license and the support make up the transaction price,
      and the annual support times the number of years is the support total. */
  lemma AllocationTotals(t: Terms)
    requires AnalysisSucceeds(t)
    ensures LicenseRevenueOf(t) + Share(TransactionPrice(t), t.SupportPct()) == TransactionPrice(t)
    ensures |t.periods| as real * AnnualSupportOf(t) == Share(TransactionPrice(t), t.SupportPct())
  {
    AllocationSplit(TransactionPrice(t), t.licensePct, |t.periods|);
  }

  /** On success the schedule's last ending is the cash received less the
      transaction price plus the financing component: not zero in general. */
  lemma FinalEnding(t: Terms)
    requires AnalysisSucceeds(t)
    ensures ScheduleOf(t)[|t.periods|].endingLiability == t.cashReceived - TransactionPrice(t) + FinancingOf(t)
  {
    AllocationTotals(t);
    ScheduleSettles(t.cashReceived, t.paymentDate, t.periods, LicenseRevenueOf(t), AnnualSupportOf(t),
                    FinancingOf(t), TransactionPrice(t));
  }

  /** On success revenue plus interest over the whole schedule is the
      transaction price plus the financing component. */
  lemma RecognizedTotal(t: Terms)
    requires AnalysisSucceeds(t)
    ensures Sum(Revenues(ScheduleOf(t))) + Sum(Interests(ScheduleOf(t))) == TransactionPrice(t) + FinancingOf(t)
  {
    AllocationTotals(t);
    ScheduleSettles(t.cashReceived, t.paymentDate, t.periods, LicenseRevenueOf(t), AnnualSupportOf(t),
                    FinancingOf(t), TransactionPrice(t));
  }

  /** ScheduleTotals, for a license and a support that make up `price`. */
  lemma ScheduleSettles(cash: real, date: Date, periods: seq<Period>, license: real, annual: real,
                        financing: real, price: real)
    requires |periods| > 0 && WeightsNonZero(cash, periods, license, annual)
    requires license + |periods| as real * annual == price
    ensures var rows := ScheduleRows(cash, date, periods, license, annual, financing);
      && rows[|periods|].endingLiability == cash - price + financing
      && Sum(Revenues(rows)) + Sum(Interests(rows)) == price + financing
  {
    ScheduleTotals(cash, date, periods, license, annual, financing);
    AmountsAdd(cash, license, |periods| as real * annual, financing, price);
  }

  lemma AmountsAdd(cash: real, license: real, support: real, financing: real, price: real)
    requires license + support == price
    ensures cash - license - support + financing == cash - price + financing
    ensures license + support + financing == price + financing
  {
  }

  /** The license share and the support share make up the whole price, and
      the support spread evenly over `n` years adds back up to the support. */
  lemma AllocationSplit(price: real, licensePct: real, n: nat)
    requires n > 0
    ensures Share(price, licensePct) + Share(price, 1.0 - licensePct) == price
    ensures n as real * PerPeriod(Share(price, 1.0 - licensePct), n) == Share(price, 1.0 - licensePct)
  {
  }

  /** Without an override the financing component is the stated total less
      the transaction price. */
  lemma FinancingIsStatedLessPrice(t: Terms)
    requires !t.Overridden() && Discountable(t.discountRate, |t.periods|)
    ensures FinancingOf(t) == Sum(StatedAmounts(t.periods)) - TransactionPrice(t)
  {
    PvTotals(t.periods, t.discountRate);
  }

  /** An override of 0 is no override: the present value is calculated. */
  lemma ZeroOverrideIsAbsent(t: Terms, res: Results)
    ensures AnalyzeStep(t.(overridePv := Some(0.0)), res) == AnalyzeStep(t.(overridePv := None), res)
  {
    var t0, t1 := t.(overridePv := Some(0.0)), t.(overridePv := None);
    assert PvStep(t0, res) == PvStep(t1, res);
    forall r | true
      ensures AllocateStep(t0, r) == AllocateStep(t1, r)
      ensures ScheduleStep(t0, r) == ScheduleStep(t1, r)
      ensures EntriesStep(t0, r) == EntriesStep(t1, r)
    {
      assert PvStep(t0, r) == PvStep(t1, r);
      assert PriceStep(t0, r) == PriceStep(t1, r);
    }
  }
  /** Analyze succeeds with two entries and two more per year. */
  lemma EntryCount(t: Terms)
    requires AnalysisSucceeds(t)
    ensures |JournalEntries(t.cashReceived, t.paymentDate, ScheduleOf(t))| == 2 + 2 * |t.periods|
    ensures NumberedFrom(JournalEntries(t.cashReceived, t.paymentDate, ScheduleOf(t)), 1)
  {
    JournalEntriesProperties(t.cashReceived, t.paymentDate, ScheduleOf(t));
  }

  // ---------------------------------------------------------------------
  // The analyzer object
  // ---------------------------------------------------------------------

  /** `ASC606FinancingAnalyzer`: the inputs are fixed at construction and
      every method updates `results` in place, exactly as the step function
      of the same name does. Date parsing is the identity here. */
  class Analyzer {
    const contractData: Contract
    const discountRate: real
    const licensePct: real
    const supportPct: real := 1.0 - licensePct
    const overridePv: Option<real>
    const paymentDate: Date
    const periods: seq<Period>
    var results: Results

    /** The terms the step functions read. */
    function CurrentTerms(): (t: Terms)
      ensures t.periods == periods && t.cashReceived == contractData.cashReceived
    {
      Terms(contractData.cashReceived, paymentDate, periods, discountRate, licensePct, overridePv)
    }

    constructor (contractData: Contract, discountRate: real := 0.06, licensePct: real := 0.20,
                 overridePv: Option<real> := None)
      ensures this.contractData == contractData && this.discountRate == discountRate
      ensures this.licensePct == licensePct && supportPct == 1.0 - licensePct
      ensures this.overridePv == overridePv
      ensures paymentDate == contractData.paymentDate && periods == contractData.periods
      ensures results == NoResults
    {
      this.contractData := contractData;
      this.discountRate := discountRate;
      this.licensePct := licensePct;
      this.overridePv := overridePv;
      this.paymentDate := contractData.paymentDate;
      this.periods := contractData.periods;
      this.results := NoResults;
    }

    /** calculate_present_value (use_integer_years=True). */
    method CalculatePresentValue() returns (out: Outcome)
      modifies this
      ensures (results, out) == PvStep(CurrentTerms(), old(results))
    {
      var discounted, pvAnalysis := DiscountPeriods(periods, discountRate);
      if !discounted {
        return Fail(ZeroDivisionError(DiscountFactor));
      }
      var totalStated := Sum(StatedColumn(pvAnalysis));
      var totalPv := Sum(PvColumn(pvAnalysis));
      var totalFinancing := Sum(FinancingColumn(pvAnalysis));
      results := results.(pvAnalysis := Some(pvAnalysis));
      results := results.(totalStated := Some(totalStated));
      results := results.(totalPv := Some(totalPv));
      results := results.(financingComponent := Some(totalFinancing));
      if totalStated == 0.0 {
        return Fail(ZeroDivisionError(FinancingPct));
      }
      results := results.(financingPct := Some(totalFinancing / totalStated * 100.0));
      out := Pass;
    }

    /** The loop of calculate_present_value: each period is discounted over
        its 1-based position in whole years. It stops at the first discount
        factor that is zero. */
    static method DiscountPeriods(periods: seq<Period>, discountRate: real)
      returns (discounted: bool, pvAnalysis: seq<PvRow>)
      ensures discounted <==> Discountable(discountRate, |periods|)
      ensures discounted ==> pvAnalysis == PvAnalysis(periods, discountRate)
    {
      pvAnalysis := [];
      var i := 0;
      while i < |periods|
        invariant 0 <= i <= |periods|
        invariant i == 0 || 1.0 + discountRate != 0.0
        invariant pvAnalysis == PvAnalysis(periods[..i], discountRate)
      {
        var period := periods[i];
        var yearsDiff := i + 1;
        var factor := Pow(1.0 + discountRate, yearsDiff);
        PowZero(1.0 + discountRate, yearsDiff);
        if factor == 0.0 {
          return false, pvAnalysis;
        }
        var stated := period.statedAmount;
        var pv := stated / factor;
        var financing := stated - pv;
        var row := PvRow(yearsDiff, period.start, period.end, yearsDiff as real, stated, pv, financing);
        assert row == PvRowAt(period, yearsDiff, discountRate);
        PvAnalysisSnoc(periods, discountRate, i);
        pvAnalysis := pvAnalysis + [row];
        i := i + 1;
      }
      assert periods[..i] == periods;
      discounted := true;
    }

    /** The override branch: the override is the transaction price. */
    method ApplyOverride() returns (out: Outcome)
      requires CurrentTerms().Overridden()
      modifies this
      ensures (results, out) == OverrideStep(CurrentTerms(), old(results))
    {
      var cashReceived := contractData.cashReceived;
      results := results.(totalPv := Some(overridePv.value));
      results := results.(financingComponent := Some(cashReceived - overridePv.value));
      if cashReceived == 0.0 {
        return Fail(ZeroDivisionError(FinancingPct));
      }
      results := results.(financingPct := Some(results.financingComponent.value / cashReceived * 100.0));
      out := Pass;
    }

    /** allocate_transaction_price. */
    method AllocateTransactionPrice() returns (out: Outcome)
      modifies this
      ensures (results, out) == AllocateStep(CurrentTerms(), old(results))
    {
      if results.totalPv.None? {
        if overridePv.Some? && overridePv.value != 0.0 {
          out := ApplyOverride();
        } else {
          out := CalculatePresentValue();
        }
        if out.Fail? {
          return;
        }
      }
      var totalPv := results.totalPv.value;
      results := results.(licenseRevenue := Some(Share(totalPv, licensePct)));
      results := results.(supportTotal := Some(Share(totalPv, supportPct)));
      if |periods| == 0 {
        return Fail(ZeroDivisionError(AnnualSupport));
      }
      results := results.(annualSupport := Some(PerPeriod(results.supportTotal.value, |periods|)));
      out := Pass;
    }

    /** build_amortization_schedule. */
    method BuildAmortizationSchedule() returns (out: Outcome)
      modifies this
      ensures (results, out) == ScheduleStep(CurrentTerms(), old(results))
    {
      if results.licenseRevenue.None? {
        out := AllocateTransactionPrice();
        if out.Fail? {
          return;
        }
      }
      if results.annualSupport.None? {
        return Fail(KeyError("annual_support"));
      }
      if results.financingComponent.None? {
        return Fail(KeyError("financing_component"));
      }
      var cashReceived := contractData.cashReceived;
      var licenseRevenue := results.licenseRevenue.value;
      var annualSupport := results.annualSupport.value;
      var financingComponent := results.financingComponent.value;
      var n := |periods|;

      var ending := cashReceived - licenseRevenue;
      var schedule := [LicenseRow(paymentDate, cashReceived, licenseRevenue)];

      var openingBalances := StepDownBalances(ending, annualSupport, n);
      var totalWeighted := Sum(openingBalances);
      if n > 0 && totalWeighted == 0.0 {
        return Fail(ZeroDivisionError(InterestWeights));
      }
      var interestByYear := InterestShares(financingComponent, openingBalances);
      schedule := AppendYearRows(schedule, interestByYear, ending, annualSupport);
      results := results.(amortizationSchedule := Some(schedule));
      out := Pass;
    }

    /** The loop of build_amortization_schedule that records the opening
        balances: `current` starts at the post-license ending and steps down
        by the annual support. */
    static method StepDownBalances(ending: real, annualSupport: real, n: nat) returns (openingBalances: seq<real>)
      ensures openingBalances == OpeningBalances(ending, annualSupport, n)
    {
      openingBalances := [];
      var current := ending;
      var k := 0;
      while k < n
        invariant 0 <= k <= n && |openingBalances| == k
        invariant current == ending - k as real * annualSupport
        invariant forall j :: 0 <= j < k ==> openingBalances[j] == ending - j as real * annualSupport
      {
        openingBalances := openingBalances + [current];
        current := current - annualSupport;
        k := k + 1;
      }
      forall j | 0 <= j < n
        ensures openingBalances[j] == OpeningBalances(ending, annualSupport, n)[j]
      {
        OpeningBalancesAt(ending, annualSupport, n, j);
      }
    }

    /** The loop of build_amortization_schedule that appends the year rows,
        each opening at the previous ending. */
    method AppendYearRows(schedule0: seq<ScheduleRow>, interestByYear: seq<real>, ending0: real, annualSupport: real)
      returns (schedule: seq<ScheduleRow>)
      requires |interestByYear| == |periods|
      ensures schedule == schedule0 + YearRows(periods, interestByYear, ending0, annualSupport, 1)
    {
      schedule := schedule0;
      var opening := ending0;
      var i := 0;
      while i < |periods|
        invariant 0 <= i <= |periods|
        invariant schedule + YearRows(periods[i..], interestByYear[i..], opening, annualSupport, i + 1)
                  == schedule0 + YearRows(periods, interestByYear, ending0, annualSupport, 1)
      {
        var interest := interestByYear[i];
        var revenue := annualSupport;
        var ending := opening + interest - revenue;
        YearRowsCons(periods[i..], interestByYear[i..], opening, annualSupport, i + 1);
        assert periods[i..][1..] == periods[i + 1..] && interestByYear[i..][1..] == interestByYear[i + 1..];
        schedule := schedule + [ScheduleRow(Year(i + 1), periods[i].end, opening, interest, revenue, ending)];
        opening := ending;
        i := i + 1;
      }
      assert periods[i..] == [];
    }

    /** generate_journal_entries. */
    method GenerateJournalEntries() returns (out: Outcome)
      modifies this
      ensures (results, out) == EntriesStep(CurrentTerms(), old(results))
    {
      if results.amortizationSchedule.None? {
        out := BuildAmortizationSchedule();
        if out.Fail? {
          return;
        }
      }
      var schedule := results.amortizationSchedule.value;
      var cashReceived := contractData.cashReceived;
      var entries := [CashEntry(cashReceived, paymentDate)];
      if |schedule| == 0 {
        return Fail(IndexError);
      }
      entries := entries + [LicenseEntry(schedule[0])];
      entries := PostYears(schedule, entries);
      assert entries == JournalEntries(cashReceived, paymentDate, schedule);
      results := results.(journalEntries := Some(entries));
      out := Pass;
    }

    /** The loop over the year rows: each appends its interest entry and
        its support entry, numbered on from entry 3. */
    static method PostYears(schedule: seq<ScheduleRow>, entries0: seq<JournalEntry>) returns (entries: seq<JournalEntry>)
      requires |schedule| >= 1
      ensures entries == entries0 + YearEntries(schedule[1..], 1, 3)
    {
      entries := entries0;
      var entryNum := 3;
      var i := 1;
      while i < |schedule|
        invariant 1 <= i <= |schedule|
        invariant entryNum == 2 * i + 1
        invariant entries + YearEntries(schedule[i..], i, entryNum) == entries0 + YearEntries(schedule[1..], 1, 3)
      {
        var row := schedule[i];
        YearEntriesCons(schedule[i..], i, entryNum);
        assert schedule[i..][1..] == schedule[i + 1..];
        entries := entries + [InterestEntry(entryNum, row, i)];
        entryNum := entryNum + 1;
        entries := entries + [SupportEntry(entryNum, row, i)];
        entryNum := entryNum + 1;
        i := i + 1;
      }
      assert schedule[i..] == [];
    }

    /** analyze, without the summary. */
    method Analyze() returns (out: Outcome)
      modifies this
      ensures (results, out) == AnalyzeStep(CurrentTerms(), old(results))
    {
      if overridePv.Some? && overridePv.value != 0.0 {
        out := ApplyOverride();
      } else {
        out := CalculatePresentValue();
      }
      if out.Fail? {
        return;
      }
      out := AllocateTransactionPrice();
      if out.Fail? {
        return;
      }
      out := BuildAmortizationSchedule();
      if out.Fail? {
        return;
      }
      out := GenerateJournalEntries();
    }
  }
}
