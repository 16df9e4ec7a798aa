/** Point-in-time metrics: current ROIC, debt-to-equity, the free-cash-flow fallback
    chain, the FCF yield and the cash-quality check. */
module Metrics {
  import opened Numbers
  import opened Tables

  /** Current ROIC from the snapshot: net income over equity + debt, in percent,
      0 when that capital is not positive, capped above at 200 (no lower cap). */
  function CurrentRoic(netIncome: real, equity: real, debt: real): (r: real)
    ensures r <= 200.0
    ensures equity + debt <= 0.0 ==> r == 0.0
    ensures equity + debt > 0.0 ==> (r > 0.0 <==> netIncome > 0.0) && (r == 0.0 <==> netIncome == 0.0)
    ensures equity + debt > 0.0 && netIncome * 100.0 < 200.0 * (equity + debt) ==>
      r * (equity + debt) == netIncome * 100.0
    ensures equity + debt > 0.0 && netIncome * 100.0 >= 200.0 * (equity + debt) ==> r == 200.0
  {
    var capital := equity + debt;
    if capital > 0.0 then
      PercentOf(netIncome, capital);
      Min(200.0, netIncome / capital * 100.0)
    else
      Min(200.0, 0.0)
  }

  /** n / c in percent, for positive c: times c it gives 100 n, it has the sign of n, and
      it is below 200 exactly when 100 n is below 200 c. */
  lemma PercentOf(n: real, c: real)
    requires c > 0.0
    ensures n / c * 100.0 * c == n * 100.0
    ensures n / c * 100.0 > 0.0 <==> n > 0.0
    ensures n / c * 100.0 == 0.0 <==> n == 0.0
    ensures n / c * 100.0 < 200.0 <==> n * 100.0 < 200.0 * c
  {
    assert n / c * c == n;
    ScaledSign(n, c, n / c * 100.0);
    ScaledBelow(n, c, n / c * 100.0);
  }

  /** Any q with q * c == 100 n, for positive c, has the sign of n. */
  lemma ScaledSign(n: real, c: real, q: real)
    requires c > 0.0
    requires q * c == n * 100.0
    ensures q > 0.0 <==> n > 0.0
    ensures q == 0.0 <==> n == 0.0
  {
    if q > 0.0 {
      assert q * c > 0.0;
    } else if q < 0.0 {
      assert (-q) * c > 0.0;
    }
  }

  /** Any q with q * c == 100 n, for positive c, is below 200 exactly when 100 n is
      below 200 c. */
  lemma ScaledBelow(n: real, c: real, q: real)
    requires c > 0.0
    requires q * c == n * 100.0
    ensures q < 200.0 <==> n * 100.0 < 200.0 * c
  {
    if q < 200.0 {
      assert (200.0 - q) * c > 0.0;
      assert (200.0 - q) * c == 200.0 * c - q * c;
    } else if q > 200.0 {
      assert (q - 200.0) * c > 0.0;
      assert (q - 200.0) * c == q * c - 200.0 * c;
    } else {
      assert q * c == 200.0 * c;
    }
  }

  /** The provider's debtToEquity is a percentage; the ratio is a hundredth of it. */
  function DebtToEquityRatio(info: Info): (de: real)
    ensures de * 100.0 == Sanitize(Get(info, DebtToEquity, Num(0.0)))
  {
    Sanitize(Get(info, DebtToEquity, Num(0.0))) / 100.0
  }

  /** Current gross margin in percent from the snapshot's fraction, sanitized like the
      other snapshot figures. */
  function CurrentGrossMargin(info: Info): (gm: real)
    ensures Get(info, GrossMargins, Num(0.0)).Num? ==> gm == Get(info, GrossMargins, Num(0.0)).value * 100.0
    ensures !Get(info, GrossMargins, Num(0.0)).Num? ==> gm == 0.0
  {
    Sanitize(Get(info, GrossMargins, Num(0.0))) * 100.0
  }

  /** One link of the free-cash-flow chain: whether its line items are present in the
      table, and the value it reads (None when a read raises). Each cell goes through
      sanitize_float, like every other read of the scanner, so a cell it cannot convert
      raises inside the block's try and the estimate is used (the corrected reading of
      the block; the code as written is in module Findings). */
  datatype Candidate = Candidate(applies: bool, value: Option<real>)

  function Plus(a: Option<real>, b: Option<real>): Option<real> {
    if a.Some? && b.Some? then Some(a.value + b.value) else None
  }

  /** The table's links in priority order: the "Free Cash Flow" row, then
      "Operating Cash Flow" + "Capital Expenditure" (capex already carries its sign). */
  function FcfCandidates(t: Table): (cs: seq<Candidate>)
    ensures |cs| == 2
  {
    [ Candidate(Has(t, FreeCashFlow),
                if Has(t, FreeCashFlow) then ReadCell(CellAt(t, FreeCashFlow, 0)) else None),
      Candidate(Has(t, OperatingCashFlow) && Has(t, CapitalExpenditure),
                if Has(t, OperatingCashFlow) && Has(t, CapitalExpenditure)
                then Plus(ReadCell(CellAt(t, OperatingCashFlow, 0)), ReadCell(CellAt(t, CapitalExpenditure, 0)))
                else None) ]
  }

  /** First match wins: the first applicable link decides; when its read raises, or no
      link applies, the fallback is used. */
  function FirstMatch(cs: seq<Candidate>, fallback: real): (r: real)
    ensures r == fallback || exists c :: c in cs && c.applies && c.value == Some(r)
    ensures (forall c :: c in cs ==> !c.applies) ==> r == fallback
    ensures forall k :: 0 <= k < |cs| && cs[k].applies && (forall j :: 0 <= j < k ==> !cs[j].applies) ==>
      r == (if cs[k].value.Some? then cs[k].value.value else fallback)
  {
    if cs == [] then fallback
    else if cs[0].applies then (if cs[0].value.Some? then cs[0].value.value else fallback)
    else FirstMatch(cs[1..], fallback)
  }

  /** Free cash flow: the chain over the cash-flow table, or the snapshot estimate when
      the table could not be fetched or is empty. */
  function FreeCashFlowOf(cf: Option<Table>, estimate: real): (r: real)
    ensures cf.None? || Empty(cf.value) ==> r == estimate
    ensures r != estimate ==>
      cf.Some? && exists c :: c in FcfCandidates(cf.value) && c.applies && c.value == Some(r)
  {
    if cf.None? || Empty(cf.value) then estimate else FirstMatch(FcfCandidates(cf.value), estimate)
  }

  /** The chain spelled out source by source. */
  lemma {:induction false} FreeCashFlowFirstAvailable(cf: Option<Table>, estimate: real)
    ensures cf.None? || Empty(cf.value) ==> FreeCashFlowOf(cf, estimate) == estimate
    ensures cf.Some? && !Empty(cf.value) && Has(cf.value, FreeCashFlow) ==>
      FreeCashFlowOf(cf, estimate) ==
        (match ReadCell(CellAt(cf.value, FreeCashFlow, 0))
         case Some(v) => v
         case None => estimate)
    ensures cf.Some? && !Empty(cf.value) && !Has(cf.value, FreeCashFlow) &&
            Has(cf.value, OperatingCashFlow) && Has(cf.value, CapitalExpenditure) ==>
      FreeCashFlowOf(cf, estimate) ==
        (match Plus(ReadCell(CellAt(cf.value, OperatingCashFlow, 0)), ReadCell(CellAt(cf.value, CapitalExpenditure, 0)))
         case Some(v) => v
         case None => estimate)
    ensures cf.Some? && !Empty(cf.value) && !Has(cf.value, FreeCashFlow) &&
            !(Has(cf.value, OperatingCashFlow) && Has(cf.value, CapitalExpenditure)) ==>
      FreeCashFlowOf(cf, estimate) == estimate
  {
    if cf.Some? && !Empty(cf.value) {
      var cs := FcfCandidates(cf.value);
      assert FreeCashFlowOf(cf, estimate) == FirstMatch(cs, estimate);
      if !cs[0].applies {
        assert FirstMatch(cs, estimate) == FirstMatch(cs[1..], estimate);
        if !cs[1].applies {
          assert cs[1..][1..] == [];
          assert FirstMatch(cs[1..], estimate) == FirstMatch(cs[1..][1..], estimate);
        }
      }
    }
  }

  /** FCF yield in percent: the unique y with y * marketCap == 100 * fcf, or 0 when
      the market cap is not positive. */
  function FcfYield(fcf: real, marketCap: real): (y: real)
    ensures marketCap <= 0.0 ==> y == 0.0
    ensures marketCap > 0.0 ==> y * marketCap == fcf * 100.0
    ensures marketCap > 0.0 ==> (y < 0.0 <==> fcf < 0.0)
  {
    if marketCap > 0.0 then fcf / marketCap * 100.0 else 0.0
  }

  /** The "lie detector" verdict. */
  datatype CashQuality = Verified | Suspicious

  /** Suspicious exactly when a profit is reported and less than 70% of it arrives as cash. */
  function CashQualityOf(netIncome: real, fcf: real): (q: CashQuality)
    ensures q == Suspicious <==> netIncome > 0.0 && fcf < netIncome * 0.7
  {
    if netIncome > 0.0 && fcf < netIncome * 0.7 then Suspicious else Verified
  }

  /** A loss is never suspicious, cash covering 70% of the profit is never suspicious,
      and a profit with no positive cash flow always is. */
  lemma CashQualityCases(netIncome: real, fcf: real)
    ensures netIncome <= 0.0 ==> CashQualityOf(netIncome, fcf) == Verified
    ensures fcf >= netIncome * 0.7 ==> CashQualityOf(netIncome, fcf) == Verified
    ensures netIncome > 0.0 && fcf <= 0.0 ==> CashQualityOf(netIncome, fcf) == Suspicious
  {
  }

  /** The cash-flow block: resolve FCF through the chain (a read that raises falls back
      to the estimate), derive the yield, then run the lie detector. */
  method ResolveCashFacts(cf: Option<Table>, estimate: real, marketCap: real, netIncome: real)
    returns (fcf: real, fcfYield: real, quality: CashQuality)
    ensures fcf == FreeCashFlowOf(cf, estimate)
    ensures marketCap > 0.0 ==> fcfYield * marketCap == fcf * 100.0
    ensures marketCap <= 0.0 ==> fcfYield == 0.0
    ensures quality == Suspicious <==> netIncome > 0.0 && fcf < netIncome * 0.7
    ensures fcfYield == FcfYield(fcf, marketCap) && quality == CashQualityOf(netIncome, fcf)
  {
    fcf := 0.0;
    if cf.None? {
      fcf := estimate;
    } else if !Empty(cf.value) {
      var t := cf.value;
      if Has(t, FreeCashFlow) {
        var v := ReadCell(CellAt(t, FreeCashFlow, 0));
        fcf := if v.Some? then v.value else estimate;
      } else if Has(t, OperatingCashFlow) && Has(t, CapitalExpenditure) {
        var operating := ReadCell(CellAt(t, OperatingCashFlow, 0));
        var capex := ReadCell(CellAt(t, CapitalExpenditure, 0));
        fcf := if operating.Some? && capex.Some? then operating.value + capex.value else estimate;
      } else {
        fcf := estimate;
      }
    } else {
      fcf := estimate;
    }
    FreeCashFlowFirstAvailable(cf, estimate);

    fcfYield := if marketCap > 0.0 then fcf / marketCap * 100.0 else 0.0;

    quality := Verified;
    if netIncome > 0.0 && fcf < netIncome * 0.7 {
      quality := Suspicious;
    }
  }
}
