/** Yearly statement tables: a labelled row per line item, one column per period
    (most recent first), and the snapshot's key/value record. */
module Tables {
  import opened Numbers

  /** The line items the scanner looks up. */
  datatype Label =
    | TotalRevenue | GrossProfit | NetIncome
    | LongTermDebt | CurrentDebt | ShortLongTermDebt | TotalStockholderEquity
    | FreeCashFlow | OperatingCashFlow | CapitalExpenditure

  /** A table cell: a number slot, or something sanitize_float cannot convert
      (a non-numeric object, or the several rows a duplicated label returns). */
  datatype Cell = Entry(raw: Raw) | Garbled

  /** A table as a row per present label the scanner looks up, the number of further
      rows under labels it never reads, and a column count. */
  datatype Table = Table(rows: map<Label, seq<Cell>>, otherRows: nat, width: nat)

  /** DataFrame.empty: no columns, or no rows of any label. */
  predicate Empty(t: Table) {
    t.width == 0 || (|t.rows| == 0 && t.otherRows == 0)
  }

  predicate Has(t: Table, l: Label) {
    l in t.rows
  }

  /** The cell at a present label and a column; an index past the row raises like a bad iloc. */
  function CellAt(t: Table, l: Label, i: nat): Cell
    requires Has(t, l)
  {
    if i < |t.rows[l]| then t.rows[l][i] else Garbled
  }

  /** sanitize_float applied to a cell; None when the conversion raises. */
  function ReadCell(c: Cell): (r: Option<real>)
    ensures r.None? <==> c.Garbled?
    ensures c.Entry? && c.raw.Num? ==> r == Some(c.raw.value)
    ensures c.Entry? && !c.raw.Num? ==> r == Some(0.0)
  {
    match c
    case Entry(x) => Some(Sanitize(x))
    case Garbled => None
  }

  /** `sanitize_float(t.iloc[row(l), i]) if l in t.index else 0`; None when it raises. */
  function Read(t: Table, l: Label, i: nat): (r: Option<real>)
    ensures !Has(t, l) ==> r == Some(0.0)
    ensures Has(t, l) ==> r == ReadCell(CellAt(t, l, i))
  {
    if Has(t, l) then ReadCell(CellAt(t, l, i)) else Some(0.0)
  }

  /** The snapshot keys the scanner reads with info.get(key, default). */
  datatype InfoKey =
    | CurrentPrice | MarketCap | TotalDebt | TotalStockholderEquityInfo | DebtToEquity
    | NetIncomeToCommon | GrossMargins | FreeCashFlowEstimate

  type Info = map<InfoKey, Raw>

  /** info.get(key, default). */
  function Get(info: Info, k: InfoKey, default: Raw): (r: Raw)
    ensures k !in info ==> r == default
    ensures k in info ==> r == info[k]
  {
    if k in info then info[k] else default
  }
}
