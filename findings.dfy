/** Where the source, as written, lets a non-finite number or a future timestamp past a
    rule. Each part models the code as written with IEEE float comparisons (every
    comparison with NaN is false), exhibits the input, and relates it to the corrected
    definitions the rest of the model uses. */
module Findings {
  import opened Numbers
  import opened Tables
  import opened History
  import opened Metrics
  import opened Verdict
  import opened Freshness

  /** A Python float. */
  datatype Float = Finite(r: real) | NotANumber | PosInf | NegInf

  /** A number slot read as a float; None in a numeric column is NaN. */
  function FromRaw(x: Raw): Float {
    match x
    case Num(v) => Finite(v)
    case Infinity(negative) => if negative then NegInf else PosInf
    case _ => NotANumber
  }

  /** a < b on floats; false whenever NaN is involved. */
  predicate Lt(a: Float, b: Float) {
    match (a, b)
    case (Finite(x), Finite(y)) => x < y
    case (NegInf, Finite(_)) => true
    case (NegInf, PosInf) => true
    case (Finite(_), PosInf) => true
    case _ => false
  }

  /** a + b on floats. */
  function Add(a: Float, b: Float): Float {
    match (a, b)
    case (Finite(x), Finite(y)) => Finite(x + y)
    case (NotANumber, _) => NotANumber
    case (_, NotANumber) => NotANumber
    case (PosInf, NegInf) => NotANumber
    case (NegInf, PosInf) => NotANumber
    case (PosInf, _) => PosInf
    case (_, PosInf) => PosInf
    case _ => NegInf
  }

  /** a * k for a positive finite k (also a / k, as a * (1/k)). */
  function ScalePositive(a: Float, k: real): Float
    requires k > 0.0
  {
    if a.Finite? then Finite(a.r * k) else a
  }

  /** What the source's cash-flow block leaves in fcf: a float, or the non-numeric object
      a Garbled cell holds (taken to be a string). */
  datatype FcfValue = Number(f: Float) | NonNumeric

  /** The cash-flow cell as the source reads it: the object itself, without sanitizing;
      reading it never raises. */
  function CellAsWritten(c: Cell): FcfValue {
    if c.Entry? then Number(FromRaw(c.raw)) else NonNumeric
  }

  /** operating + capex as written: two floats add; a string plus a float raises inside
      the try (the estimate is used); two strings concatenate into a string. */
  function SumAsWritten(o: Cell, c: Cell, estimate: real): FcfValue {
    match (o, c)
    case (Entry(x), Entry(y)) => Number(Add(FromRaw(x), FromRaw(y)))
    case (Garbled, Garbled) => NonNumeric
    case _ => Number(Finite(estimate))
  }

  /** Free cash flow as written: the chain of the source with unsanitized table cells. */
  function FreeCashFlowAsWritten(cf: Option<Table>, estimate: real): FcfValue {
    if cf.None? || Empty(cf.value) then Number(Finite(estimate))
    else
      var t := cf.value;
      if Has(t, FreeCashFlow) then CellAsWritten(CellAt(t, FreeCashFlow, 0))
      else if Has(t, OperatingCashFlow) && Has(t, CapitalExpenditure) then
        SumAsWritten(CellAt(t, OperatingCashFlow, 0), CellAt(t, CapitalExpenditure, 0), estimate)
      else Number(Finite(estimate))
  }

  /** What the cash-flow part of the verdict decides. */
  datatype CashOutcome = CashOutcome(expensive: bool, quality: CashQuality, valuation: Valuation)

  /** The yield, valuation and lie-detector rules of the source on the fcf it holds; None
      when they raise, which leaves the stock without a record. A non-numeric fcf raises
      in the division by a positive market cap, or in the comparison with a positive net
      income; otherwise the yield is 0 and the net-income test short-circuits. */
  function CashRulesAsWritten(fcf: FcfValue, marketCap: real, netIncome: real, cfg: Config): Option<CashOutcome> {
    match fcf
    case NonNumeric =>
      if marketCap > 0.0 || netIncome > 0.0 then None
      else Some(CashOutcome(0.0 < cfg.minFcfYield, Verified, Pricey))
    case Number(f) =>
      var fcfYield := if marketCap > 0.0 then ScalePositive(ScalePositive(f, 1.0 / marketCap), 100.0) else Finite(0.0);
      Some(CashOutcome(
        Lt(fcfYield, Finite(cfg.minFcfYield)),
        if netIncome > 0.0 && Lt(f, Finite(netIncome * 0.7)) then Suspicious else Verified,
        if Lt(Finite(8.0), fcfYield) then Bargain else if Lt(Finite(4.5), fcfYield) then Fair else Pricey))
  }

  /** The same rules in the model, on the sanitized FCF. */
  function CashRules(fcf: real, marketCap: real, netIncome: real, cfg: Config): CashOutcome {
    var fcfYield := FcfYield(fcf, marketCap);
    CashOutcome(fcfYield < cfg.minFcfYield, CashQualityOf(netIncome, fcf), Bucket(fcfYield))
  }

  /** A cash-flow table whose latest "Free Cash Flow" is NaN. */
  function NaNCashFlow(): Table {
    Table(map[FreeCashFlow := [Entry(Raw.NaN)]], 0, 1)
  }

  /** A cash-flow table whose latest "Free Cash Flow" is not a number at all. */
  function GarbledCashFlow(): Table {
    Table(map[FreeCashFlow := [Garbled]], 0, 1)
  }

  /** As written, a NaN free cash flow of a profitable company with a positive market cap
      is neither expensive nor suspicious (and PRICEY); sanitized, it is 0, which is both
      expensive and suspicious. */
  lemma NaNFreeCashFlowSlipsThrough(estimate: real, marketCap: real, netIncome: real)
    requires marketCap > 0.0 && netIncome > 0.0
    ensures FreeCashFlowAsWritten(Some(NaNCashFlow()), estimate) == Number(NotANumber)
    ensures CashRulesAsWritten(Number(NotANumber), marketCap, netIncome, Elite) == Some(CashOutcome(false, Verified, Pricey))
    ensures FreeCashFlowOf(Some(NaNCashFlow()), estimate) == 0.0
    ensures CashRules(0.0, marketCap, netIncome, Elite) == CashOutcome(true, Suspicious, Pricey)
  {
    FreeCashFlowFirstAvailable(Some(NaNCashFlow()), estimate);
  }

  /** As written, a non-numeric "Free Cash Flow" cell of a stock with a positive market cap
      (or, with no positive cap, a positive net income) raises after the cash-flow block's
      try, so the stock gets no record; sanitized, the
      conversion raises inside the try and the estimate is used. */
  lemma NonNumericFreeCashFlowDropsStock(estimate: real, marketCap: real, netIncome: real)
    requires marketCap > 0.0
    ensures FreeCashFlowAsWritten(Some(GarbledCashFlow()), estimate) == NonNumeric
    ensures CashRulesAsWritten(NonNumeric, marketCap, netIncome, Elite) == None
    ensures netIncome > 0.0 ==> CashRulesAsWritten(NonNumeric, 0.0, netIncome, Elite) == None
    ensures FreeCashFlowOf(Some(GarbledCashFlow()), estimate) == estimate
  {
    FreeCashFlowFirstAvailable(Some(GarbledCashFlow()), estimate);
  }

  /** A present line item whose latest cell is a finite number. */
  predicate FiniteCell(t: Table, l: Label) {
    Has(t, l) ==> CellAt(t, l, 0).Entry? && CellAt(t, l, 0).raw.Num?
  }

  /** On finite cells, sanitizing changes nothing: the corrected chain and the source agree. */
  lemma FreeCashFlowAgreesOnFiniteCells(cf: Option<Table>, estimate: real)
    requires cf.Some? ==> FiniteCell(cf.value, FreeCashFlow) && FiniteCell(cf.value, OperatingCashFlow)
                          && FiniteCell(cf.value, CapitalExpenditure)
    ensures FreeCashFlowAsWritten(cf, estimate) == Number(Finite(FreeCashFlowOf(cf, estimate)))
  {
    FreeCashFlowFirstAvailable(cf, estimate);
  }

  /** On a finite FCF the as-written rules and the model's rules agree. */
  lemma CashRulesAgreeOnFinite(fcf: real, marketCap: real, netIncome: real, cfg: Config)
    ensures CashRulesAsWritten(Number(Finite(fcf)), marketCap, netIncome, cfg) == Some(CashRules(fcf, marketCap, netIncome, cfg))
  {
    if marketCap > 0.0 {
      assert fcf * (1.0 / marketCap) * 100.0 == fcf / marketCap * 100.0;
    }
  }

  /** The current gross margin as written: info.get('grossMargins', 0) * 100, unsanitized;
      None when the value is None (the multiplication raises and the stock is skipped). */
  function CurrentGrossMarginAsWritten(info: Info): Option<Float> {
    var raw := Get(info, GrossMargins, Num(0.0));
    if raw == Null then None else Some(ScalePositive(FromRaw(raw), 100.0))
  }

  /** Whether the moat rule fires as written when there is no gross-margin history, so
      that the average and the minimum are both the current value. */
  predicate MoatFiresAsWritten(current: Float, cfg: Config) {
    Lt(current, Finite(cfg.minGrossMargin)) || Lt(current, Finite(cfg.minGrossMargin * 0.8))
  }

  /** As written, a NaN gross margin without history passes the moat rule; sanitized, it is
      0 and the stock is flagged with a weak moat. */
  lemma NaNGrossMarginSlipsThrough(info: Info)
    requires GrossMargins in info && info[GrossMargins] == Raw.NaN
    ensures CurrentGrossMarginAsWritten(info) == Some(NotANumber)
    ensures !MoatFiresAsWritten(NotANumber, Elite)
    ensures MoatRule(Elite, Summarize([], CurrentGrossMargin(info))) == [WeakMoat(0.0, 0.0)]
  {
  }

  /** As written, a gross margin of None makes the multiplication raise and the stock gets
      no record; the corrected reading sanitizes it to 0 and the stock gets a verdict. */
  lemma NoneGrossMarginDropsStock(info: Info)
    requires GrossMargins in info && info[GrossMargins] == Null
    ensures CurrentGrossMarginAsWritten(info) == None
    ensures CurrentGrossMargin(info) == 0.0
  {
  }

  /** The gross-margin part of the cash-engine score as written, on the average margin:
      min(40, gm / 80 * 40), where Python's min keeps 40 unless the other value is smaller. */
  function MarginPartAsWritten(gm: Float): Float {
    var x := ScalePositive(gm, 0.5);
    if Lt(x, Finite(40.0)) then x else Finite(40.0)
  }

  /** As written, an infinite gross margin without history: +infinity passes the moat rule
      and caps the score part at 40, like NaN; -infinity gives WEAK MOAT but leaves the score
      part at -infinity, so int() raises at the score and the stock gets no record. The
      corrected reading sanitizes both to 0, which gives WEAK MOAT and a finite score. */
  lemma InfiniteGrossMarginAsWritten(info: Info)
    requires GrossMargins in info && info[GrossMargins].Infinity?
    ensures !info[GrossMargins].negative ==>
      CurrentGrossMarginAsWritten(info) == Some(PosInf)
      && !MoatFiresAsWritten(PosInf, Elite) && MarginPartAsWritten(PosInf) == Finite(40.0)
    ensures info[GrossMargins].negative ==>
      CurrentGrossMarginAsWritten(info) == Some(NegInf)
      && MoatFiresAsWritten(NegInf, Elite) && !MarginPartAsWritten(NegInf).Finite?
    ensures MarginPartAsWritten(NotANumber) == Finite(40.0)
    ensures MoatRule(Elite, Summarize([], CurrentGrossMargin(info))) == [WeakMoat(0.0, 0.0)]
  {
  }

  /** On a finite gross margin the as-written moat rule and the model's agree. */
  lemma MoatAgreesOnFinite(info: Info, cfg: Config)
    requires Get(info, GrossMargins, Num(0.0)).Num?
    ensures CurrentGrossMarginAsWritten(info) == Some(Finite(CurrentGrossMargin(info)))
    ensures MoatFiresAsWritten(Finite(CurrentGrossMargin(info)), cfg) <==>
      MoatRule(cfg, Summarize([], CurrentGrossMargin(info))) != []
  {
  }

  /** The cache gate as written. */
  function GateAsWritten(l: Lookup, now: int, days: nat): Decision {
    if l.Found? && l.record.updatedAt.Some? && WithinWindowAsWritten(now, l.record.updatedAt.value, days)
    then Reuse(l.record)
    else Recompute
  }

  /** As written, a window of 0 still reuses a record stamped after the current time
      (a store clock ahead of the scanner's); the corrected gate recomputes. */
  lemma ZeroWindowReusesFutureRecord(r: Scanner.Result, now: int)
    ensures GateAsWritten(Found(Record(r, Some(now + 1))), now, 0) == Reuse(Record(r, Some(now + 1)))
    ensures Gate(Found(Record(r, Some(now + 1))), now, 0) == Recompute
  {
  }

  /** For records not stamped in the future, and for every positive window, the corrected
      gate decides as the source does. */
  lemma GateAgreesOnPastRecords(l: Lookup, now: int, days: nat)
    requires days > 0 || !(l.Found? && l.record.updatedAt.Some? && l.record.updatedAt.value > now)
    ensures Gate(l, now, days) == GateAsWritten(l, now, days)
  {
  }
}
