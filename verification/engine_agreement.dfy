/** The Python analyzer and the TypeScript route discount the periods the
    same way. Without an override they settle on the same transaction price
    and financing component and give the license the same revenue. */
module EngineAgreement {
  import opened Finance
  import opened Contracts
  import FinancingAnalyzer
  import AnalyzeRoute

  /** Period by period, and so in total, the two engines compute the same
      present values. */
  lemma PresentValuesAgree(periods: seq<Period>, rate: real)
    requires Discountable(rate, |periods|)
    ensures AnalyzeRoute.PeriodPresentValues(periods, rate)
         == FinancingAnalyzer.PvColumn(FinancingAnalyzer.PvAnalysis(periods, rate))
    ensures AnalyzeRoute.TotalPresentValue(periods, rate)
         == Sum(FinancingAnalyzer.PvColumn(FinancingAnalyzer.PvAnalysis(periods, rate)))
  {
    var ts := AnalyzeRoute.PeriodPresentValues(periods, rate);
    var py := FinancingAnalyzer.PvColumn(FinancingAnalyzer.PvAnalysis(periods, rate));
    forall i | 0 <= i < |periods|
      ensures ts[i] == py[i]
    {
      FinancingAnalyzer.PvAnalysisAt(periods, rate, i);
    }
  }

  /** Without an override both engines settle on the same transaction
      price, financing component and license revenue. */
  lemma AnalysesAgree(t: FinancingAnalyzer.Terms, contract: Contract)
    requires !t.Overridden() && Discountable(t.discountRate, |t.periods|)
    requires contract.periods == t.periods
    ensures AnalyzeRoute.TotalPresentValue(contract.periods, t.discountRate)
         == FinancingAnalyzer.TransactionPrice(t)
    ensures AnalyzeRoute.SplitOf(contract, t.discountRate, t.licensePct).financingComponent
         == FinancingAnalyzer.FinancingOf(t)
    ensures AnalyzeRoute.SplitOf(contract, t.discountRate, t.licensePct).licenseRevenue
         == FinancingAnalyzer.LicenseRevenueOf(t)
  {
    PresentValuesAgree(t.periods, t.discountRate);
    FinancingAnalyzer.FinancingIsStatedLessPrice(t);
  }
}
