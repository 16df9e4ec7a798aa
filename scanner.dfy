/** One stock's analysis after a cache miss: snapshot figures, the three-year lookback,
    the cash-flow block, the filters, the bucket and the scores. */
module Scanner {
  import opened Numbers
  import opened Tables
  import opened History
  import opened Metrics
  import opened Verdict
  import opened Report

  /** What the data source hands over; None marks a property whose access raised. */
  datatype Fetched = Fetched(
    info: Option<Info>,
    financials: Option<Table>,
    balance: Option<Table>,
    cashflow: Option<Table>)

  /** The computed verdict as persisted (company name and price are copied through and
      not modelled): roic is the average ROIC, grossMargin the average gross margin. */
  datatype Result = Result(
    status: Status,
    reasons: seq<Reason>,
    reasonText: string,
    valuation: Valuation,
    quality: CashQuality,
    cashScore: int,
    safetyScore: int,
    roic: real,
    de: real,
    grossMargin: real,
    fcfYield: real)

  /** The analysis gives up without a record: no snapshot, no current price, a statement
      table that could not be fetched, or a market cap of None (the comparison raises). */
  predicate Aborts(f: Fetched) {
    f.info.None? || CurrentPrice !in f.info.value
      || f.financials.None? || f.balance.None?
      || Get(f.info.value, MarketCap, Num(1.0)) == Null
  }

  /** The market cap the yield uses. A NaN or infinite cap gives a yield of 0 in the
      source (the comparison fails, or a finite FCF over an infinite cap is 0), exactly
      as a sanitized cap of 0 does. */
  function MarketCapOf(info: Info): real {
    Sanitize(Get(info, MarketCap, Num(1.0)))
  }

  function NetIncomeOf(info: Info): real {
    Sanitize(Get(info, NetIncomeToCommon, Num(0.0)))
  }

  function CurrentRoicOf(info: Info): real {
    CurrentRoic(NetIncomeOf(info),
                Sanitize(Get(info, TotalStockholderEquityInfo, Num(1.0))),
                Sanitize(Get(info, TotalDebt, Num(0.0))))
  }

  function EstimateOf(info: Info): real {
    Sanitize(Get(info, FreeCashFlowEstimate, Num(0.0)))
  }

  function GrossMarginAggregate(info: Info, fin: Table, bal: Table): Aggregate {
    Summarize(GrossMarginSamples(fin, YearsCovered(fin, bal)), CurrentGrossMargin(info))
  }

  function RoicAggregate(info: Info, fin: Table, bal: Table): Aggregate {
    Summarize(RoicSamples(fin, bal, YearsCovered(fin, bal)), CurrentRoicOf(info))
  }

  /** The whole decision for one stock, as a value. */
  function Analyze(f: Fetched, cfg: Config): Option<Result> {
    if Aborts(f) then None
    else
      var info, fin, bal := f.info.value, f.financials.value, f.balance.value;
      var de := DebtToEquityRatio(info);
      var gm := GrossMarginAggregate(info, fin, bal);
      var roic := RoicAggregate(info, fin, bal);
      var fcf := FreeCashFlowOf(f.cashflow, EstimateOf(info));
      var fcfYield := FcfYield(fcf, MarketCapOf(info));
      var quality := CashQualityOf(NetIncomeOf(info), fcf);
      var rs := Reasons(cfg, Screen(gm, roic, de, fcfYield, quality));
      Some(Result(StatusOf(rs), rs, ReasonText(rs), Bucket(fcfYield), quality,
                  CashScore(roic.avg, gm.avg), SafetyScore(de), roic.avg, de, gm.avg, fcfYield))
  }

  /** The analysis step by step, as the scanner runs it after a cache miss. */
  method AnalyzeFresh(f: Fetched, cfg: Config) returns (res: Option<Result>)
    ensures res == Analyze(f, cfg)
  {
    if Aborts(f) {
      return None;
    }
    var info := f.info.value;
    var totalDebt := Sanitize(Get(info, TotalDebt, Num(0.0)));
    var totalEquity := Sanitize(Get(info, TotalStockholderEquityInfo, Num(1.0)));
    var de := Sanitize(Get(info, DebtToEquity, Num(0.0))) / 100.0;
    var netIncome := Sanitize(Get(info, NetIncomeToCommon, Num(0.0)));

    var fin, bal := f.financials.value, f.balance.value;
    var gms, roics := CollectSamples(fin, bal);

    var currentGm := CurrentGrossMargin(info);
    var currentRoic := CurrentRoic(netIncome, totalEquity, totalDebt);
    var gm := Summarize(gms, currentGm);
    var roic := Summarize(roics, currentRoic);
    assert gm == GrossMarginAggregate(info, fin, bal);
    assert roic == RoicAggregate(info, fin, bal);

    var fcf, fcfYield, quality := ResolveCashFacts(f.cashflow, EstimateOf(info), MarketCapOf(info), netIncome);

    var reasons := ScreenReasons(cfg, Screen(gm, roic, de, fcfYield, quality));
    var status := if reasons == [] then Survivor else Rejected;
    var text := if reasons == [] then "BUFFETT ELITE" else Join(Headings(reasons));
    var valuation := Bucket(fcfYield);

    var cashScore := CashScore(roic.avg, gm.avg);
    var safetyScore := SafetyScore(de);
    assert de == DebtToEquityRatio(info);

    res := Some(Result(status, reasons, text, valuation, quality, cashScore, safetyScore,
                       roic.avg, de, gm.avg, fcfYield));
  }

  /** Average ROIC never exceeds 200; with history it is at least -100. */
  lemma RoicAggregateBounds(info: Info, fin: Table, bal: Table)
    ensures RoicAggregate(info, fin, bal).min <= RoicAggregate(info, fin, bal).avg <= 200.0
    ensures |RoicSamples(fin, bal, YearsCovered(fin, bal))| > 0 ==>
      -100.0 <= RoicAggregate(info, fin, bal).min
  {
    RoicSamplesBounded(fin, bal, YearsCovered(fin, bal));
  }

  /** What every produced verdict satisfies. */
  lemma {:induction false} AnalyzeInvariants(f: Fetched, cfg: Config)
    ensures Analyze(f, cfg).None? <==> Aborts(f)
    ensures Analyze(f, cfg).Some? ==>
      var r := Analyze(f, cfg).value;
      (r.status == Survivor <==> r.reasons == []) &&
      (r.status == Survivor ==> r.reasonText == "BUFFETT ELITE") &&
      (r.status == Rejected ==> TrimAll(Explode(r.reasonText)) == Headings(r.reasons)) &&
      |r.reasons| <= 5 &&
      (forall i, j :: 0 <= i < j < |r.reasons| ==> RuleOf(r.reasons[i]) < RuleOf(r.reasons[j])) &&
      r.roic <= 200.0 && r.safetyScore >= 0 && r.cashScore <= 100 &&
      r.valuation == Bucket(r.fcfYield)
  {
    if !Aborts(f) {
      var info, fin, bal := f.info.value, f.financials.value, f.balance.value;
      RoicAggregateBounds(info, fin, bal);
      var fcf := FreeCashFlowOf(f.cashflow, EstimateOf(info));
      var fcfYield := FcfYield(fcf, MarketCapOf(info));
      var s := Screen(GrossMarginAggregate(info, fin, bal), RoicAggregate(info, fin, bal),
                      DebtToEquityRatio(info), fcfYield, CashQualityOf(NetIncomeOf(info), fcf));
      ReasonsInRuleOrder(cfg, s);
      if Reasons(cfg, s) != [] {
        ReasonTextReadsBack(Reasons(cfg, s));
      }
    }
  }

  /** Without usable history (either statement table empty) both aggregates fall back
      to the current-period values. */
  lemma NoHistoryFallsBack(f: Fetched, cfg: Config)
    requires !Aborts(f)
    requires Empty(f.financials.value) || Empty(f.balance.value)
    ensures Analyze(f, cfg).value.grossMargin == CurrentGrossMargin(f.info.value)
    ensures Analyze(f, cfg).value.roic == CurrentRoicOf(f.info.value)
  {
  }

  /** A healthy company survives as a bargain with verified cash. */
  lemma ScenarioSurvivor()
    ensures var s := Screen(Aggregate(55.0, 55.0), Aggregate(30.0, 28.0), 0.2, 9.0, CashQualityOf(100.0, 90.0));
      s.quality == Verified && Reasons(Elite, s) == [] && StatusOf(Reasons(Elite, s)) == Survivor
      && Bucket(s.fcfYield) == Bargain
  {
  }

  /** The same company converting only half its profit into cash is rejected
      for cash quality alone. */
  lemma ScenarioPoorCash()
    ensures var s := Screen(Aggregate(55.0, 55.0), Aggregate(30.0, 28.0), 0.2, 9.0, CashQualityOf(100.0, 50.0));
      s.quality == Suspicious && Reasons(Elite, s) == [PoorCashQuality]
  {
  }

  /** A debt-to-equity ratio of 0.6 adds exactly one debt reason and zeroes the safety score. */
  lemma ScenarioHighDebt()
    ensures var s := Screen(Aggregate(55.0, 55.0), Aggregate(30.0, 28.0), 0.6, 9.0, Verified);
      Reasons(Elite, s) == [HighDebt(0.6)] && SafetyScore(0.6) == 0
  {
  }

  /** Failing margin, ROIC and debt together yields all three reasons, in rule order. */
  lemma ScenarioAllReasons()
    ensures Reasons(Elite, Screen(Aggregate(30.0, 20.0), Aggregate(10.0, 5.0), 1.0, 9.0, Verified))
      == [WeakMoat(30.0, 20.0), WeakEngine(10.0), HighDebt(1.0)]
  {
  }
}
