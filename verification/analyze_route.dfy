/** The TypeScript engine behind the analysis route (`calculateASC606`): a
    second, independent implementation of the financing analysis. It discounts
    the periods over whole years, flags the financing component as
    significant above 5%, splits both the present value and the financing
    between license and support, runs a carrying-value schedule per
    deliverable and posts journal entries from the license schedule only.

    Amounts are exact reals. Every money figure that is shown is rounded to
    cents, and the rounded figures never feed back into the computation. */
module AnalyzeRoute {
  import opened Finance
  import opened Contracts
  import opened Ledger

  /** A JavaScript number as this engine can produce one: a finite amount,
      or what a division by zero gives. */
  datatype JsNumber = Finite(value: real) | PositiveInfinity | NegativeInfinity | NaN

  /** JavaScript `x / y` for finite operands, where a zero divisor is +0. */
  function JsDivide(x: real, y: real): (q: JsNumber)
    ensures q.Finite? <==> y != 0.0
    ensures q.Finite? ==> q.value * y == x
    ensures q == NaN <==> x == 0.0 && y == 0.0
  {
    if y != 0.0 then Finite(x / y)
    else if x > 0.0 then PositiveInfinity
    else if x < 0.0 then NegativeInfinity
    else NaN
  }

  /** JavaScript `x > c` for a finite constant `c`: false for NaN. */
  predicate JsGreater(x: JsNumber, c: real)
  {
    match x
    case Finite(v) => v > c
    case PositiveInfinity => true
    case NegativeInfinity => false
    case NaN => false
  }

  // ---------------------------------------------------------------------
  // Present value (the `periods.map` with its `totalPV` accumulator)
  // ---------------------------------------------------------------------

  /** One element of `pv_analysis`: amounts shown rounded to cents. */
  datatype PvEntry = PvEntry(
    period: nat,
    start: Date,
    end: Date,
    statedAmount: real,
    yearsDiscounted: nat,
    presentValue: real,
    financingComponent: real)

  /** The unrounded present value of each period, discounted over its
      1-based position in whole years. */
  function PeriodPresentValues(periods: seq<Period>, rate: real): (pvs: seq<real>)
    requires Discountable(rate, |periods|)
    ensures |pvs| == |periods|
    ensures forall i :: 0 <= i < |periods| ==> pvs[i] * Pow(1.0 + rate, i + 1) == periods[i].statedAmount
  {
    seq(|periods|, i requires 0 <= i < |periods| => Discount(periods[i].statedAmount, rate, i + 1))
  }

  /** `totalPV`: the sum of the unrounded present values. */
  function TotalPresentValue(periods: seq<Period>, rate: real): real
    requires Discountable(rate, |periods|)
  {
    Sum(PeriodPresentValues(periods, rate))
  }

  /** The shown entry of the period at 0-based `index`. */
  function PvEntryAt(periods: seq<Period>, rate: real, index: nat): (e: PvEntry)
    requires index < |periods| && Discountable(rate, |periods|)
    ensures e.period == index + 1 && e.yearsDiscounted == index + 1
    ensures e.statedAmount == periods[index].statedAmount
    ensures e.presentValue == RoundCents(PeriodPresentValues(periods, rate)[index])
    ensures e.financingComponent == RoundCents(periods[index].statedAmount - PeriodPresentValues(periods, rate)[index])
  {
    var p := periods[index];
    var pv := Discount(p.statedAmount, rate, index + 1);
    PvEntry(index + 1, p.start, p.end, p.statedAmount, index + 1, RoundCents(pv), RoundCents(p.statedAmount - pv))
  }

  function PvTable(periods: seq<Period>, rate: real): (entries: seq<PvEntry>)
    requires Discountable(rate, |periods|)
    ensures |entries| == |periods|
  {
    seq(|periods|, i requires 0 <= i < |periods| && Discountable(rate, |periods|) => PvEntryAt(periods, rate, i))
  }

  // ---------------------------------------------------------------------
  // Financing, significance and allocation
  // ---------------------------------------------------------------------

  /** The figures derived from the stated total and the present value. */
  datatype Split = Split(
    financingComponent: real,
    financingPercentage: JsNumber,
    isSignificant: bool,
    licenseRevenue: real,
    licenseFinancing: real,
    supportRevenue: real,
    supportFinancing: real)

  /** The financing component, its share of the stated total, the 5% test
      and the split of revenue and financing by the license percentage. */
  function Allocate(statedTotal: real, totalPV: real, licensePct: real): (s: Split)
    ensures s.financingComponent == statedTotal - totalPV
    ensures s.licenseRevenue + s.supportRevenue == totalPV
    ensures s.licenseFinancing + s.supportFinancing == s.financingComponent
  {
    var financingComponent := statedTotal - totalPV;
    var financingPercentage := JsDivide(financingComponent, statedTotal);
    Split(
      financingComponent,
      financingPercentage,
      JsGreater(financingPercentage, 0.05),
      Share(totalPV, licensePct),
      Share(financingComponent, licensePct),
      Share(totalPV, 1.0 - licensePct),
      Share(financingComponent, 1.0 - licensePct))
  }

  /** The test is strict and signed: for a positive stated total the
      component is significant exactly when the present value is below 95%
      of it, so a premium (a present value above the stated total) is never
      significant. A zero stated total makes the percentage infinite, and
      significant, exactly when the present value is negative. For a
      negative stated total the comparison turns round: the component is
      significant exactly when the present value is above 95% of it, so
      there a premium can be significant. */
  lemma Significance(statedTotal: real, totalPV: real, licensePct: real)
    ensures statedTotal > 0.0 ==>
      (Allocate(statedTotal, totalPV, licensePct).isSignificant <==> totalPV < 0.95 * statedTotal)
    ensures statedTotal < 0.0 ==>
      (Allocate(statedTotal, totalPV, licensePct).isSignificant <==> totalPV > 0.95 * statedTotal)
    ensures statedTotal > 0.0 && totalPV >= statedTotal ==> !Allocate(statedTotal, totalPV, licensePct).isSignificant
    ensures statedTotal == 0.0 ==>
      (Allocate(statedTotal, totalPV, licensePct).isSignificant <==> totalPV < 0.0)
  {
    var fc := statedTotal - totalPV;
    if statedTotal > 0.0 {
      DivisionAbove(fc, statedTotal, 0.05);
    } else if statedTotal < 0.0 {
      DivisionAbove(-fc, -statedTotal, 0.05);
      assert fc / statedTotal == -fc / -statedTotal;
    }
  }

  lemma DivisionAbove(x: real, y: real, c: real)
    requires y > 0.0
    ensures x / y > c <==> x > c * y
  {
    assert (x / y) * y == x;
    if x / y > c {
      assert (x / y - c) * y > 0.0;
    }
    if x > c * y {
      assert (x / y - c) * y == x - c * y;
    }
  }

  /** Without a rate the present value is the stated total, there is no
      financing component, and so it is never significant (the percentage is
      0, or NaN for a zero stated total). */
  lemma ZeroRateNoFinancing(contract: Contract, licensePct: real)
    ensures TotalPresentValue(contract.periods, 0.0) == Sum(StatedAmounts(contract.periods))
    ensures SplitOf(contract, 0.0, licensePct).financingComponent == 0.0
    ensures !SplitOf(contract, 0.0, licensePct).isSignificant
  {
    var periods := contract.periods;
    var pvs := PeriodPresentValues(periods, 0.0);
    forall i | 0 <= i < |periods|
      ensures pvs[i] == StatedAmounts(periods)[i]
    {
      DiscountBounds(periods[i].statedAmount, 0.0, i + 1);
    }
    assert pvs == StatedAmounts(periods);
  }

  /** With a positive rate and positive stated amounts the present value is
      below the stated total: the financing component is positive. */
  lemma PositiveRateDiscounts(periods: seq<Period>, rate: real)
    requires rate > 0.0 && |periods| > 0
    requires forall i :: 0 <= i < |periods| ==> periods[i].statedAmount > 0.0
    ensures 0.0 < TotalPresentValue(periods, rate) < Sum(StatedAmounts(periods))
  {
    var pvs := PeriodPresentValues(periods, rate);
    var stated := StatedAmounts(periods);
    var financing := seq(|periods|, i requires 0 <= i < |periods| => stated[i] - pvs[i]);
    forall i | 0 <= i < |periods|
      ensures 0.0 < pvs[i] < stated[i]
    {
      DiscountBounds(periods[i].statedAmount, rate, i + 1);
    }
    SumDifference(stated, pvs, financing);
    SumPositive(financing);
    SumPositive(pvs);
  }

  // ---------------------------------------------------------------------
  // Amortization schedule (generateAmortizationSchedule)
  // ---------------------------------------------------------------------

  /** One row of a deliverable's schedule, amounts shown rounded to cents. */
  datatype ScheduleLine = ScheduleLine(
    period: nat,
    startDate: Date,
    endDate: Date,
    beginningBalance: real,
    revenueRecognized: real,
    interestIncome: real,
    endingBalance: real,
    kind: string)

  /** `carryingValue * rate / periods.length`. */
  function PeriodInterest(carrying: real, rate: real, n: nat): real
    requires n > 0
  {
    carrying * rate / n as real
  }

  /** The unrounded carrying value after `k` periods: each period removes an
      equal share of the initial revenue and adds the period's interest. */
  function Carrying(initial: real, rate: real, n: nat, k: nat): real
    requires n > 0
  {
    if k == 0 then initial
    else
      var c := Carrying(initial, rate, n, k - 1);
      c - PerPeriod(initial, n) + PeriodInterest(c, rate, n)
  }

  /** The shown row of period `i` (0-based). */
  function LineAt(initial: real, rate: real, periods: seq<Period>, kind: string, i: nat): (line: ScheduleLine)
    requires i < |periods|
    ensures line.period == i + 1 && line.kind == kind
    ensures line.startDate == periods[i].start && line.endDate == periods[i].end
    ensures line.beginningBalance == RoundCents(Carrying(initial, rate, |periods|, i))
    ensures line.endingBalance == RoundCents(Carrying(initial, rate, |periods|, i + 1))
    ensures line.revenueRecognized == RoundCents(PerPeriod(initial, |periods|))
    ensures line.interestIncome == RoundCents(PeriodInterest(Carrying(initial, rate, |periods|, i), rate, |periods|))
  {
    var n := |periods|;
    var c := Carrying(initial, rate, n, i);
    var revenue := PerPeriod(initial, n);
    var interest := PeriodInterest(c, rate, n);
    ScheduleLine(i + 1, periods[i].start, periods[i].end, RoundCents(c), RoundCents(revenue),
                 RoundCents(interest), RoundCents(c - revenue + interest), kind)
  }

  function AmortizationSchedule(initial: real, rate: real, periods: seq<Period>, kind: string)
    : (rows: seq<ScheduleLine>)
    ensures |rows| == |periods|
  {
    seq(|periods|, i requires 0 <= i < |periods| => LineAt(initial, rate, periods, kind, i))
  }

  /** `generateAmortizationSchedule`. `totalFinancing` only feeds the unused
      `financingPerPeriod`. */
  method GenerateAmortizationSchedule(initialRevenue: real, totalFinancing: real, rate: real,
                                      periods: seq<Period>, kind: string)
    returns (schedule: seq<ScheduleLine>)
    ensures schedule == AmortizationSchedule(initialRevenue, rate, periods, kind)
  {
    schedule := [];
    var carryingValue := initialRevenue;
    var n := |periods|;
    for i := 0 to n
      invariant schedule == AmortizationSchedule(initialRevenue, rate, periods, kind)[..i]
      invariant n > 0 ==> carryingValue == Carrying(initialRevenue, rate, n, i)
    {
      var interestIncome := carryingValue * rate / n as real;
      var revenueRecognized := initialRevenue / n as real;
      assert interestIncome == PeriodInterest(carryingValue, rate, n);
      assert revenueRecognized == PerPeriod(initialRevenue, n);
      ghost var rows := AmortizationSchedule(initialRevenue, rate, periods, kind);
      schedule := schedule + [ScheduleLine(i + 1, periods[i].start, periods[i].end,
                                           RoundCents(carryingValue), RoundCents(revenueRecognized),
                                           RoundCents(interestIncome),
                                           RoundCents(carryingValue - revenueRecognized + interestIncome), kind)];
      assert schedule[i] == LineAt(initialRevenue, rate, periods, kind, i) == rows[i];
      assert schedule == rows[..i + 1];
      carryingValue := carryingValue - revenueRecognized + interestIncome;
    }
  }

  /** Each shown row ends where the next begins, because both are the same
      unrounded carrying value rounded; every row shows the same revenue. */
  lemma ScheduleChains(initial: real, rate: real, periods: seq<Period>, kind: string)
    ensures var rows := AmortizationSchedule(initial, rate, periods, kind);
      && (forall i :: 0 <= i < |rows| - 1 ==> rows[i].endingBalance == rows[i + 1].beginningBalance)
      && (forall i, j :: 0 <= i < |rows| && 0 <= j < |rows| ==> rows[i].revenueRecognized == rows[j].revenueRecognized)
  {
    var rows := AmortizationSchedule(initial, rate, periods, kind);
    forall i | 0 <= i < |rows| - 1
      ensures rows[i].endingBalance == rows[i + 1].beginningBalance
    {
      assert rows[i] == LineAt(initial, rate, periods, kind, i);
      assert rows[i + 1] == LineAt(initial, rate, periods, kind, i + 1);
    }
  }

  /** Without a rate the carrying value falls by the same share every period. */
  lemma {:induction false} ZeroRateCarrying(initial: real, n: nat, k: nat)
    requires n > 0
    ensures Carrying(initial, 0.0, n, k) == initial - k as real * PerPeriod(initial, n)
  {
    if k > 0 {
      ZeroRateCarrying(initial, n, k - 1);
      assert PeriodInterest(Carrying(initial, 0.0, n, k - 1), 0.0, n) == 0.0;
    }
  }

  /** Without a rate the schedule runs the carrying value down to exactly
      zero, and the last row shows a zero ending balance. */
  lemma ZeroRateSettles(initial: real, periods: seq<Period>, kind: string)
    requires |periods| > 0
    ensures Carrying(initial, 0.0, |periods|, |periods|) == 0.0
    ensures AmortizationSchedule(initial, 0.0, periods, kind)[|periods| - 1].endingBalance == 0.0
  {
    var n := |periods|;
    ZeroRateCarrying(initial, n, n);
    SpreadEvenly(initial, n);
    RoundCentsOfCents(0);
  }

  function ShownRevenues(rows: seq<ScheduleLine>): (xs: seq<real>)
    ensures |xs| == |rows| && forall i :: 0 <= i < |rows| ==> xs[i] == rows[i].revenueRecognized
  {
    seq(|rows|, i requires 0 <= i < |rows| => rows[i].revenueRecognized)
  }

  /** Every shown revenue is the same rounded share, so the shown revenues
      add up to that many rounded shares: the unrounded shares add up to
      the initial revenue exactly (SpreadEvenly), the shown ones within half
      a cent per period (RoundedSpread). */
  lemma {:induction false} RevenueTotal(initial: real, rate: real, periods: seq<Period>, kind: string)
    requires |periods| > 0
    ensures Sum(ShownRevenues(AmortizationSchedule(initial, rate, periods, kind)))
         == |periods| as real * RoundCents(PerPeriod(initial, |periods|))
  {
    RevenuesEqual(initial, rate, periods, kind);
    SumShownConstant(AmortizationSchedule(initial, rate, periods, kind), initial, periods);
  }

  lemma RevenuesEqual(initial: real, rate: real, periods: seq<Period>, kind: string)
    requires |periods| > 0
    ensures forall i :: 0 <= i < |periods| ==>
      AmortizationSchedule(initial, rate, periods, kind)[i].revenueRecognized == RoundCents(PerPeriod(initial, |periods|))
  {
    forall i | 0 <= i < |periods| {
      RevenueAt(initial, rate, periods, kind, i);
    }
  }

  lemma SumShownConstant(rows: seq<ScheduleLine>, initial: real, periods: seq<Period>)
    requires |rows| == |periods| > 0
    requires forall i :: 0 <= i < |periods| ==> rows[i].revenueRecognized == RoundCents(PerPeriod(initial, |periods|))
    ensures Sum(ShownRevenues(rows)) == |periods| as real * RoundCents(PerPeriod(initial, |periods|))
  {
    SumConstant(RoundCents(PerPeriod(initial, |periods|)), ShownRevenues(rows));
  }

  lemma RevenueAt(initial: real, rate: real, periods: seq<Period>, kind: string, i: nat)
    requires i < |periods|
    ensures AmortizationSchedule(initial, rate, periods, kind)[i].revenueRecognized
         == RoundCents(PerPeriod(initial, |periods|))
  {
    assert AmortizationSchedule(initial, rate, periods, kind)[i] == LineAt(initial, rate, periods, kind, i);
  }

  // ---------------------------------------------------------------------
  // Journal entries (generateJournalEntries)
  // ---------------------------------------------------------------------

  datatype RouteDescription =
    | InitialRecognition(customer: string)
    | LicenseRevenueRecognition(period: nat)
    | LicenseInterestIncome(period: nat)

  type RouteEntry = Entry<RouteDescription>

  /** Entry 1: cash debited, the rounded license, support and financing
      figures credited. */
  function InitialEntry(contract: Contract, licenseRevenue: real, supportRevenue: real, financingComponent: real)
    : (e: RouteEntry)
    ensures e.entryNum == 1 && e.date == contract.paymentDate
    ensures Total(e.debits) == contract.cashReceived
    ensures Total(e.credits) == RoundCents(licenseRevenue) + RoundCents(supportRevenue) + RoundCents(financingComponent)
  {
    var credits := [Line("Deferred Revenue - License", RoundCents(licenseRevenue)),
                    Line("Deferred Revenue - Support", RoundCents(supportRevenue)),
                    Line("Contract Liability - Financing", RoundCents(financingComponent))];
    TotalAppend([], credits[0]);
    TotalAppend([credits[0]], credits[1]);
    TotalAppend([credits[0], credits[1]], credits[2]);
    assert [credits[0], credits[1]] + [credits[2]] == credits;
    TotalAppend([], Line("Cash", contract.cashReceived));
    Entry(1, contract.paymentDate, InitialRecognition(contract.customer),
          [Line("Cash", contract.cashReceived)], credits)
  }

  /** The entries of one license-schedule row, numbered from `num`: the
      revenue entry, then an interest entry when the shown interest is
      positive. */
  function RowEntries(line: ScheduleLine, num: nat): (entries: seq<RouteEntry>)
    ensures |entries| == if line.interestIncome > 0.0 then 2 else 1
    ensures NumberedFrom(entries, num)
    ensures forall i :: 0 <= i < |entries| ==> SimplePosting(entries[i]) && Balanced(entries[i])
    ensures forall i :: 0 <= i < |entries| ==> entries[i].date == line.endDate
    ensures entries[0].description == LicenseRevenueRecognition(line.period)
    ensures entries[0].debits == [Line("Deferred Revenue - License", line.revenueRecognized)]
    ensures entries[0].credits == [Line("License Revenue", line.revenueRecognized)]
    ensures |entries| == 2 ==>
      && entries[1].description == LicenseInterestIncome(line.period)
      && entries[1].debits == [Line("Contract Liability - Financing", line.interestIncome)]
      && entries[1].credits == [Line("Interest Income", line.interestIncome)]
  {
    var revenue := Posting(num, line.endDate, LicenseRevenueRecognition(line.period),
                           "Deferred Revenue - License", "License Revenue", line.revenueRecognized);
    if line.interestIncome > 0.0 then
      [revenue, Posting(num + 1, line.endDate, LicenseInterestIncome(line.period),
                        "Contract Liability - Financing", "Interest Income", line.interestIncome)]
    else [revenue]
  }

  /** All entries: the initial entry, then each license-schedule row's
      entries, each numbered by the count of entries before it plus one. */
  function RouteEntries(contract: Contract, licenseRevenue: real, supportRevenue: real, financingComponent: real,
                        schedule: seq<ScheduleLine>): seq<RouteEntry>
  {
    if |schedule| == 0 then [InitialEntry(contract, licenseRevenue, supportRevenue, financingComponent)]
    else
      var before := RouteEntries(contract, licenseRevenue, supportRevenue, financingComponent, schedule[..|schedule| - 1]);
      before + RowEntries(schedule[|schedule| - 1], |before| + 1)
  }

  /** The shown interest of the rows where it is positive, in row order. */
  function PositiveInterests(schedule: seq<ScheduleLine>): seq<real>
  {
    if |schedule| == 0 then []
    else PositiveInterests(schedule[..|schedule| - 1])
         + (if schedule[|schedule| - 1].interestIncome > 0.0 then [schedule[|schedule| - 1].interestIncome] else [])
  }

  /** The entries are numbered 1, 2, 3, ... by position; there is the initial
      entry, one revenue entry per row and one interest entry per row with
      positive shown interest; every entry after the first has one debit and
      one credit for the same amount. */
  lemma {:induction false} RouteEntriesProperties(contract: Contract, licenseRevenue: real, supportRevenue: real,
                                                  financingComponent: real, schedule: seq<ScheduleLine>)
    ensures var e := RouteEntries(contract, licenseRevenue, supportRevenue, financingComponent, schedule);
      && |e| == 1 + |schedule| + |PositiveInterests(schedule)|
      && NumberedFrom(e, 1)
      && e[0] == InitialEntry(contract, licenseRevenue, supportRevenue, financingComponent)
      && (forall i :: 1 <= i < |e| ==> SimplePosting(e[i]) && Balanced(e[i]))
  {
    if |schedule| > 0 {
      var k := |schedule| - 1;
      var before := RouteEntries(contract, licenseRevenue, supportRevenue, financingComponent, schedule[..k]);
      RouteEntriesProperties(contract, licenseRevenue, supportRevenue, financingComponent, schedule[..k]);
      var row := RowEntries(schedule[k], |before| + 1);
      var e := before + row;
      forall i | |before| <= i < |e|
        ensures e[i].entryNum == 1 + i && SimplePosting(e[i]) && Balanced(e[i])
      {
        assert e[i] == row[i - |before|];
      }
    }
  }

  /** What the entries post, row by row: "License Revenue" is credited with
      each row's shown revenue and "Interest Income" with each positive
      shown interest, in schedule order, and nothing else is credited to
      either account. */
  lemma {:induction false} RouteEntriesPost(contract: Contract, licenseRevenue: real, supportRevenue: real,
                                            financingComponent: real, schedule: seq<ScheduleLine>)
    ensures var e := RouteEntries(contract, licenseRevenue, supportRevenue, financingComponent, schedule);
      && Credited(e, "License Revenue") == ShownRevenues(schedule)
      && Credited(e, "Interest Income") == PositiveInterests(schedule)
  {
    var e := RouteEntries(contract, licenseRevenue, supportRevenue, financingComponent, schedule);
    if |schedule| == 0 {
      InitialCredits(contract, licenseRevenue, supportRevenue, financingComponent);
    } else {
      var k := |schedule| - 1;
      var before := RouteEntries(contract, licenseRevenue, supportRevenue, financingComponent, schedule[..k]);
      RouteEntriesPost(contract, licenseRevenue, supportRevenue, financingComponent, schedule[..k]);
      var row := RowEntries(schedule[k], |before| + 1);
      assert e == before + row;
      CreditedAppend(before, row, "License Revenue");
      CreditedAppend(before, row, "Interest Income");
      RowCredits(schedule[k], |before| + 1);
      ShownRevenuesSnoc(schedule);
    }
  }

  lemma ShownRevenuesSnoc(schedule: seq<ScheduleLine>)
    requires |schedule| > 0
    ensures ShownRevenues(schedule)
         == ShownRevenues(schedule[..|schedule| - 1]) + [schedule[|schedule| - 1].revenueRecognized]
  {
  }

  /** The initial entry credits neither revenue account. */
  lemma InitialCredits(contract: Contract, licenseRevenue: real, supportRevenue: real, financingComponent: real)
    ensures Credited([InitialEntry(contract, licenseRevenue, supportRevenue, financingComponent)], "License Revenue") == []
    ensures Credited([InitialEntry(contract, licenseRevenue, supportRevenue, financingComponent)], "Interest Income") == []
  {
    var e := InitialEntry(contract, licenseRevenue, supportRevenue, financingComponent);
    var c := e.credits;
    assert c == [] + [c[0]] + [c[1]] + [c[2]];
    forall account: string | account == "License Revenue" || account == "Interest Income"
      ensures LinesOn(c, account) == []
    {
      assert |c[0].account| != |account| && |c[1].account| != |account| && |c[2].account| != |account|;
      LinesOnAppend([], c[0], account);
      LinesOnAppend([c[0]], c[1], account);
      LinesOnAppend([c[0], c[1]], c[2], account);
    }
    CreditedSingle(e, "License Revenue");
    CreditedSingle(e, "Interest Income");
  }

  /** One row's entries credit its shown revenue to "License Revenue", and
      its shown interest to "Interest Income" when that is positive. */
  lemma RowCredits(line: ScheduleLine, num: nat)
    ensures Credited(RowEntries(line, num), "License Revenue") == [line.revenueRecognized]
    ensures Credited(RowEntries(line, num), "Interest Income")
         == if line.interestIncome > 0.0 then [line.interestIncome] else []
  {
    var entries := RowEntries(line, num);
    assert "License Revenue" != "Interest Income" by {
      assert "License Revenue"[0] != "Interest Income"[0];
    }
    LinesOnAppend([], entries[0].credits[0], "License Revenue");
    LinesOnAppend([], entries[0].credits[0], "Interest Income");
    assert entries[0].credits == [] + [entries[0].credits[0]];
    CreditedSingle(entries[0], "License Revenue");
    CreditedSingle(entries[0], "Interest Income");
    if |entries| == 2 {
      LinesOnAppend([], entries[1].credits[0], "License Revenue");
      LinesOnAppend([], entries[1].credits[0], "Interest Income");
      assert entries[1].credits == [] + [entries[1].credits[0]];
      assert entries == [entries[0]] + [entries[1]];
      CreditedAppend([entries[0]], [entries[1]], "License Revenue");
      CreditedAppend([entries[0]], [entries[1]], "Interest Income");
      CreditedSingle(entries[1], "License Revenue");
      CreditedSingle(entries[1], "Interest Income");
    }
  }

  /** The license revenue posted over the whole schedule is the sum of its
      rounded equal shares. */
  lemma PostedRevenueTotal(contract: Contract, licenseRevenue: real, supportRevenue: real, financingComponent: real,
                           initial: real, rate: real, periods: seq<Period>, kind: string)
    requires |periods| > 0
    ensures Sum(Credited(RouteEntries(contract, licenseRevenue, supportRevenue, financingComponent,
                                      AmortizationSchedule(initial, rate, periods, kind)), "License Revenue"))
         == |periods| as real * RoundCents(PerPeriod(initial, |periods|))
  {
    RouteEntriesPost(contract, licenseRevenue, supportRevenue, financingComponent,
                     AmortizationSchedule(initial, rate, periods, kind));
    RevenueTotal(initial, rate, periods, kind);
  }

  /** The initial entry balances exactly when the cash received equals the
      sum of the three rounded credits. When the split is the engine's own,
      those credits are within a cent and a half of the stated total, not
      of the cash received. */
  lemma InitialEntryBalance(contract: Contract, statedTotal: real, totalPV: real, licensePct: real)
    ensures var s := Allocate(statedTotal, totalPV, licensePct);
      var e := InitialEntry(contract, s.licenseRevenue, s.supportRevenue, s.financingComponent);
      && (Balanced(e) <==>
            contract.cashReceived
            == RoundCents(s.licenseRevenue) + RoundCents(s.supportRevenue) + RoundCents(s.financingComponent))
      && statedTotal - 0.015 < Total(e.credits) <= statedTotal + 0.015
  {
  }

  /** `generateJournalEntries`. `totalPV` and `supportSchedule` are accepted
      and not used. */
  method GenerateJournalEntries(contract: Contract, totalPV: real, financingComponent: real,
                                licenseRevenue: real, supportRevenue: real,
                                licenseSchedule: seq<ScheduleLine>, supportSchedule: seq<ScheduleLine>)
    returns (entries: seq<RouteEntry>)
    ensures entries == RouteEntries(contract, licenseRevenue, supportRevenue, financingComponent, licenseSchedule)
  {
    entries := [InitialEntry(contract, licenseRevenue, supportRevenue, financingComponent)];
    for index := 0 to |licenseSchedule|
      invariant entries == RouteEntries(contract, licenseRevenue, supportRevenue, financingComponent,
                                        licenseSchedule[..index])
    {
      var period := licenseSchedule[index];
      RouteEntriesSnoc(contract, licenseRevenue, supportRevenue, financingComponent, licenseSchedule, index);
      RowAppended(entries, period);
      entries := entries + [Posting(|entries| + 1, period.endDate, LicenseRevenueRecognition(period.period),
                                    "Deferred Revenue - License", "License Revenue", period.revenueRecognized)];
      if period.interestIncome > 0.0 {
        entries := entries + [Posting(|entries| + 1, period.endDate, LicenseInterestIncome(period.period),
                                      "Contract Liability - Financing", "Interest Income", period.interestIncome)];
      }
    }
    assert licenseSchedule[..|licenseSchedule|] == licenseSchedule;
  }

  lemma RouteEntriesSnoc(contract: Contract, licenseRevenue: real, supportRevenue: real, financingComponent: real,
                         schedule: seq<ScheduleLine>, k: nat)
    requires k < |schedule|
    ensures var before := RouteEntries(contract, licenseRevenue, supportRevenue, financingComponent, schedule[..k]);
      RouteEntries(contract, licenseRevenue, supportRevenue, financingComponent, schedule[..k + 1])
      == before + RowEntries(schedule[k], |before| + 1)
  {
    assert schedule[..k + 1][..k] == schedule[..k];
  }

  /** The two pushes of one forEach pass append that row's entries. */
  lemma RowAppended(before: seq<RouteEntry>, line: ScheduleLine)
    ensures var withRevenue := before + [Posting(|before| + 1, line.endDate, LicenseRevenueRecognition(line.period),
                                                 "Deferred Revenue - License", "License Revenue", line.revenueRecognized)];
      && (line.interestIncome > 0.0 ==>
            withRevenue + [Posting(|withRevenue| + 1, line.endDate, LicenseInterestIncome(line.period),
                                   "Contract Liability - Financing", "Interest Income", line.interestIncome)]
            == before + RowEntries(line, |before| + 1))
      && (line.interestIncome <= 0.0 ==> withRevenue == before + RowEntries(line, |before| + 1))
  {
  }

  // ---------------------------------------------------------------------
  // The whole calculation (calculateASC606)
  // ---------------------------------------------------------------------

  /** What `calculateASC606` returns. */
  datatype Analysis = Analysis(
    statedTotal: real,
    presentValue: real,
    financingComponent: real,
    financingPercentage: JsNumber,
    isSignificant: bool,
    licenseRevenue: real,
    licenseFinancing: real,
    supportRevenue: real,
    supportFinancing: real,
    pvAnalysis: seq<PvEntry>,
    licenseSchedule: seq<ScheduleLine>,
    supportSchedule: seq<ScheduleLine>,
    journalEntries: seq<RouteEntry>)

  /** The split of a contract at a rate, from the unrounded totals. */
  function SplitOf(contract: Contract, discountRate: real, licensePct: real): Split
    requires Discountable(discountRate, |contract.periods|)
  {
    Allocate(Sum(StatedAmounts(contract.periods)), TotalPresentValue(contract.periods, discountRate), licensePct)
  }

  /** `calculateASC606`. A rate of -1 (a zero discount factor) is excluded:
      JavaScript would divide by zero into Infinity, which is not modelled. */
  method CalculateASC606(contract: Contract, discountRate: real, licensePct: real) returns (a: Analysis)
    requires Discountable(discountRate, |contract.periods|)
    ensures a.statedTotal == Sum(StatedAmounts(contract.periods))
    ensures a.pvAnalysis == PvTable(contract.periods, discountRate)
    ensures a.presentValue == RoundCents(TotalPresentValue(contract.periods, discountRate))
    ensures a.financingComponent == RoundCents(SplitOf(contract, discountRate, licensePct).financingComponent)
    ensures a.financingPercentage == SplitOf(contract, discountRate, licensePct).financingPercentage
    ensures a.isSignificant == SplitOf(contract, discountRate, licensePct).isSignificant
    ensures a.licenseRevenue == RoundCents(SplitOf(contract, discountRate, licensePct).licenseRevenue)
    ensures a.licenseFinancing == RoundCents(SplitOf(contract, discountRate, licensePct).licenseFinancing)
    ensures a.supportRevenue == RoundCents(SplitOf(contract, discountRate, licensePct).supportRevenue)
    ensures a.supportFinancing == RoundCents(SplitOf(contract, discountRate, licensePct).supportFinancing)
    ensures a.licenseSchedule == AmortizationSchedule(SplitOf(contract, discountRate, licensePct).licenseRevenue,
                                                      discountRate, contract.periods, "License")
    ensures a.supportSchedule == AmortizationSchedule(SplitOf(contract, discountRate, licensePct).supportRevenue,
                                                      discountRate, contract.periods, "Support")
    ensures a.journalEntries == RouteEntries(contract, SplitOf(contract, discountRate, licensePct).licenseRevenue,
                                             SplitOf(contract, discountRate, licensePct).supportRevenue,
                                             SplitOf(contract, discountRate, licensePct).financingComponent,
                                             a.licenseSchedule)
  {
    var periods := contract.periods;
    var totalPV := 0.0;
    var pvAnalysis: seq<PvEntry> := [];
    for index := 0 to |periods|
      invariant totalPV == Sum(PeriodPresentValues(periods, discountRate)[..index])
      invariant pvAnalysis == PvTable(periods, discountRate)[..index]
    {
      var years := index + 1;
      var stated := periods[index].statedAmount;
      PowZero(1.0 + discountRate, years);
      var pv := stated / Pow(1.0 + discountRate, years);
      var financing := stated - pv;
      assert pv == PeriodPresentValues(periods, discountRate)[index];
      assert PeriodPresentValues(periods, discountRate)[..index + 1][..index]
          == PeriodPresentValues(periods, discountRate)[..index];
      totalPV := totalPV + pv;
      pvAnalysis := pvAnalysis + [PvEntry(index + 1, periods[index].start, periods[index].end, stated, years,
                                          RoundCents(pv), RoundCents(financing))];
      assert pvAnalysis[index] == PvEntryAt(periods, discountRate, index);
    }
    assert PeriodPresentValues(periods, discountRate)[..|periods|] == PeriodPresentValues(periods, discountRate);

    var statedTotal := Sum(StatedAmounts(periods));
    var split := Allocate(statedTotal, totalPV, licensePct);
    var licenseSchedule := GenerateAmortizationSchedule(split.licenseRevenue, split.licenseFinancing,
                                                        discountRate, periods, "License");
    var supportSchedule := GenerateAmortizationSchedule(split.supportRevenue, split.supportFinancing,
                                                        discountRate, periods, "Support");
    var journalEntries := GenerateJournalEntries(contract, totalPV, split.financingComponent,
                                                 split.licenseRevenue, split.supportRevenue,
                                                 licenseSchedule, supportSchedule);
    a := Analysis(statedTotal, RoundCents(totalPV), RoundCents(split.financingComponent),
                  split.financingPercentage, split.isSignificant,
                  RoundCents(split.licenseRevenue), RoundCents(split.licenseFinancing),
                  RoundCents(split.supportRevenue), RoundCents(split.supportFinancing),
                  pvAnalysis, licenseSchedule, supportSchedule, journalEntries);
  }
}
