/** The three-year lookback: per-year gross-margin and ROIC samples taken from the
    income statement and the balance sheet, and their mean and minimum. */
module History {
  import opened Numbers
  import opened Tables

  /** min(3, columns of the income statement, columns of the balance sheet),
      or no years at all when either table is empty. */
  function YearsCovered(fin: Table, bal: Table): (n: nat)
    ensures n <= 3 && n <= fin.width && n <= bal.width
    ensures Empty(fin) || Empty(bal) ==> n == 0
    ensures !Empty(fin) && !Empty(bal) ==> n == 3 || n == fin.width || n == bal.width
  {
    if Empty(fin) || Empty(bal) then 0
    else if fin.width <= bal.width && fin.width <= 3 then fin.width
    else if bal.width <= 3 then bal.width
    else 3
  }

  /** Whether the revenue and gross-profit reads of year i succeed; when one raises,
      the rest of the year is abandoned. */
  predicate IncomeReadable(fin: Table, i: nat) {
    Read(fin, TotalRevenue, i).Some? && Read(fin, GrossProfit, i).Some?
  }

  /** The gross-margin sample year i contributes, if any. */
  function YearGrossMargin(fin: Table, i: nat): (r: Option<real>)
    ensures r.Some? <==> IncomeReadable(fin, i) && Read(fin, TotalRevenue, i).value > MaterialityFloor
    ensures r.Some? ==> r.value * Read(fin, TotalRevenue, i).value == Read(fin, GrossProfit, i).value * 100.0
  {
    if IncomeReadable(fin, i) && Read(fin, TotalRevenue, i).value > MaterialityFloor then
      Some(Read(fin, GrossProfit, i).value / Read(fin, TotalRevenue, i).value * 100.0)
    else
      None
  }

  /** Short-term debt: the "Current Debt" row when the table has one,
      else the "Short Long Term Debt" row when it has one, else 0. */
  function ShortDebt(bal: Table, i: nat): (r: Option<real>)
    ensures !Has(bal, CurrentDebt) && !Has(bal, ShortLongTermDebt) ==> r == Some(0.0)
    ensures Has(bal, CurrentDebt) ==> r == Read(bal, CurrentDebt, i)
    ensures !Has(bal, CurrentDebt) && Has(bal, ShortLongTermDebt) ==> r == Read(bal, ShortLongTermDebt, i)
  {
    if Has(bal, CurrentDebt) then Read(bal, CurrentDebt, i) else Read(bal, ShortLongTermDebt, i)
  }

  /** Equity + long-term debt + short-term debt of year i; None when a read raises. */
  function InvestedCapital(bal: Table, i: nat): Option<real> {
    match (Read(bal, LongTermDebt, i), ShortDebt(bal, i), Read(bal, TotalStockholderEquity, i))
    case (Some(long), Some(short), Some(equity)) => Some(equity + (long + short))
    case _ => None
  }

  /** The ROIC sample year i contributes, if any: reached only when the income reads
      succeeded, taken only when invested capital is material: net income over invested
      capital in percent, clamped to [-100, 200]. */
  function YearRoic(fin: Table, bal: Table, i: nat): (r: Option<real>)
    ensures r.Some? ==> -100.0 <= r.value <= 200.0
    ensures r.Some? <==>
      IncomeReadable(fin, i) && Read(fin, NetIncome, i).Some? &&
      InvestedCapital(bal, i).Some? && InvestedCapital(bal, i).value > MaterialityFloor
  {
    if !IncomeReadable(fin, i) then None
    else match (Read(fin, NetIncome, i), InvestedCapital(bal, i))
      case (Some(netIncome), Some(invested)) =>
        if invested > MaterialityFloor then Some(Clamp(netIncome / invested * 100.0, -100.0, 200.0))
        else None
      case _ => None
  }

  /** The value of a year's ROIC sample: net income over invested capital in percent
      when that lies in [-100, 200], else the nearer bound. */
  lemma YearRoicValue(fin: Table, bal: Table, i: nat)
    requires YearRoic(fin, bal, i).Some?
    ensures var ratio := Read(fin, NetIncome, i).value / InvestedCapital(bal, i).value * 100.0;
      (-100.0 <= ratio <= 200.0 ==> YearRoic(fin, bal, i).value == ratio) &&
      (ratio > 200.0 ==> YearRoic(fin, bal, i).value == 200.0) &&
      (ratio < -100.0 ==> YearRoic(fin, bal, i).value == -100.0)
  {
  }

  function AsSeq(o: Option<real>): seq<real> {
    if o.Some? then [o.value] else []
  }

  /** The gross-margin samples of the first n years, in year order. */
  function GrossMarginSamples(fin: Table, n: nat): seq<real> {
    if n == 0 then [] else GrossMarginSamples(fin, n - 1) + AsSeq(YearGrossMargin(fin, n - 1))
  }

  /** The ROIC samples of the first n years, in year order. */
  function RoicSamples(fin: Table, bal: Table, n: nat): seq<real> {
    if n == 0 then [] else RoicSamples(fin, bal, n - 1) + AsSeq(YearRoic(fin, bal, n - 1))
  }

  /** The lookback loop: walks the covered years, appending to the two sample lists;
      a read that raises abandons the rest of that year only. */
  method CollectSamples(fin: Table, bal: Table) returns (gms: seq<real>, roics: seq<real>)
    ensures gms == GrossMarginSamples(fin, YearsCovered(fin, bal))
    ensures roics == RoicSamples(fin, bal, YearsCovered(fin, bal))
  {
    gms, roics := [], [];
    if !Empty(fin) && !Empty(bal) {
      var years := YearsCovered(fin, bal);
      for i := 0 to years
        invariant gms == GrossMarginSamples(fin, i)
        invariant roics == RoicSamples(fin, bal, i)
      {
        var revenue := Read(fin, TotalRevenue, i);
        var grossProfit := Read(fin, GrossProfit, i);
        if revenue.None? || grossProfit.None? {
          continue;
        }
        if revenue.value > MaterialityFloor {
          gms := gms + [grossProfit.value / revenue.value * 100.0];
        }
        var netIncome := Read(fin, NetIncome, i);
        var longDebt := Read(bal, LongTermDebt, i);
        var shortDebt := Some(0.0);
        if Has(bal, CurrentDebt) {
          shortDebt := Read(bal, CurrentDebt, i);
        } else if Has(bal, ShortLongTermDebt) {
          shortDebt := Read(bal, ShortLongTermDebt, i);
        }
        var equity := Read(bal, TotalStockholderEquity, i);
        if netIncome.None? || longDebt.None? || shortDebt.None? || equity.None? {
          continue;
        }
        var invested := equity.value + (longDebt.value + shortDebt.value);
        if invested > MaterialityFloor {
          var roic := Clamp(netIncome.value / invested * 100.0, -100.0, 200.0);
          roics := roics + [roic];
        }
      }
    }
  }

  /** Every gross-margin sample comes from a covered year that had material revenue,
      every such year contributes its sample, and there is at most one per year. */
  lemma {:induction false} GrossMarginSamplesAreYears(fin: Table, n: nat)
    ensures |GrossMarginSamples(fin, n)| <= n
    ensures forall s :: s in GrossMarginSamples(fin, n) ==>
      exists i :: 0 <= i < n && YearGrossMargin(fin, i) == Some(s)
    ensures forall i :: 0 <= i < n && YearGrossMargin(fin, i).Some? ==>
      YearGrossMargin(fin, i).value in GrossMarginSamples(fin, n)
  {
    if n > 0 {
      GrossMarginSamplesAreYears(fin, n - 1);
      var prev := GrossMarginSamples(fin, n - 1);
      var last := YearGrossMargin(fin, n - 1);
      assert GrossMarginSamples(fin, n) == prev + AsSeq(last);
      forall s | s in GrossMarginSamples(fin, n)
        ensures exists i :: 0 <= i < n && YearGrossMargin(fin, i) == Some(s)
      {
        if s in prev {
          var i :| 0 <= i < n - 1 && YearGrossMargin(fin, i) == Some(s);
          assert 0 <= i < n;
        } else {
          assert last == Some(s);
        }
      }
      forall i | 0 <= i < n && YearGrossMargin(fin, i).Some?
        ensures YearGrossMargin(fin, i).value in GrossMarginSamples(fin, n)
      {
        if i < n - 1 {
          assert YearGrossMargin(fin, i).value in prev;
        }
      }
    }
  }

  /** Every ROIC sample comes from a covered year with material invested capital,
      every such year contributes its sample, and there is at most one per year. */
  lemma {:induction false} RoicSamplesAreYears(fin: Table, bal: Table, n: nat)
    ensures |RoicSamples(fin, bal, n)| <= n
    ensures forall s :: s in RoicSamples(fin, bal, n) ==>
      exists i :: 0 <= i < n && YearRoic(fin, bal, i) == Some(s)
    ensures forall i :: 0 <= i < n && YearRoic(fin, bal, i).Some? ==>
      YearRoic(fin, bal, i).value in RoicSamples(fin, bal, n)
  {
    if n > 0 {
      RoicSamplesAreYears(fin, bal, n - 1);
      var prev := RoicSamples(fin, bal, n - 1);
      var last := YearRoic(fin, bal, n - 1);
      assert RoicSamples(fin, bal, n) == prev + AsSeq(last);
      forall s | s in RoicSamples(fin, bal, n)
        ensures exists i :: 0 <= i < n && YearRoic(fin, bal, i) == Some(s)
      {
        if s in prev {
          var i :| 0 <= i < n - 1 && YearRoic(fin, bal, i) == Some(s);
          assert 0 <= i < n;
        } else {
          assert last == Some(s);
        }
      }
      forall i | 0 <= i < n && YearRoic(fin, bal, i).Some?
        ensures YearRoic(fin, bal, i).value in RoicSamples(fin, bal, n)
      {
        if i < n - 1 {
          assert YearRoic(fin, bal, i).value in prev;
        }
      }
    }
  }

  /** Every ROIC sample lies in [-100, 200]. */
  lemma {:induction false} RoicSamplesBounded(fin: Table, bal: Table, n: nat)
    ensures forall s :: s in RoicSamples(fin, bal, n) ==> -100.0 <= s <= 200.0
  {
    if n > 0 {
      RoicSamplesBounded(fin, bal, n - 1);
      assert RoicSamples(fin, bal, n) == RoicSamples(fin, bal, n - 1) + AsSeq(YearRoic(fin, bal, n - 1));
    }
  }

  /** A year whose balance sheet cannot be read still keeps the gross-margin sample
      it appended before the failing read; it only loses its ROIC sample. */
  lemma BalanceFailureKeepsGrossMargin(fin: Table, bal: Table, i: nat)
    requires YearGrossMargin(fin, i).Some?
    requires InvestedCapital(bal, i).None?
    ensures YearRoic(fin, bal, i).None?
    ensures YearGrossMargin(fin, i).value in GrossMarginSamples(fin, i + 1)
  {
    assert GrossMarginSamples(fin, i + 1) == GrossMarginSamples(fin, i) + [YearGrossMargin(fin, i).value];
  }

  /** A balance sheet whose only rows are labels the scanner never reads is not empty:
      the year is still walked and its gross-margin sample taken. */
  lemma UnreadRowsStillCount()
    ensures var fin := Table(map[TotalRevenue := [Entry(Num(2000000.0))],
                                 GrossProfit := [Entry(Num(1000000.0))]], 0, 1);
            var bal := Table(map[], 1, 1);
            YearsCovered(fin, bal) == 1 &&
            GrossMarginSamples(fin, YearsCovered(fin, bal)) == [50.0] &&
            RoicSamples(fin, bal, YearsCovered(fin, bal)) == []
  {
    var fin := Table(map[TotalRevenue := [Entry(Num(2000000.0))],
                         GrossProfit := [Entry(Num(1000000.0))]], 0, 1);
    var bal := Table(map[], 1, 1);
    assert YearGrossMargin(fin, 0) == Some(50.0);
    assert GrossMarginSamples(fin, 1) == GrossMarginSamples(fin, 0) + [50.0];
  }

  /** An income statement without revenue, gross profit or net income reads them all as
      0, so a year with material invested capital gives an ROIC sample of 0. */
  lemma MissingIncomeRowsGiveZeroRoic()
    ensures var fin := Table(map[], 4, 1);
            var bal := Table(map[TotalStockholderEquity := [Entry(Num(2000000.0))]], 0, 1);
            GrossMarginSamples(fin, YearsCovered(fin, bal)) == [] &&
            RoicSamples(fin, bal, YearsCovered(fin, bal)) == [0.0]
  {
    var fin := Table(map[], 4, 1);
    var bal := Table(map[TotalStockholderEquity := [Entry(Num(2000000.0))]], 0, 1);
    assert YearRoic(fin, bal, 0) == Some(0.0);
    assert RoicSamples(fin, bal, 1) == RoicSamples(fin, bal, 0) + [0.0];
  }

  /** Two years, the first with revenue below the floor: one sample of 50%, not two. */
  lemma ImmaterialRevenueExcluded(gp0: real)
    ensures GrossMarginSamples(
      Table(map[TotalRevenue := [Entry(Num(500000.0)), Entry(Num(2000000.0))],
                GrossProfit := [Entry(Num(gp0)), Entry(Num(1000000.0))]], 0, 2), 2) == [50.0]
  {
    var fin := Table(map[TotalRevenue := [Entry(Num(500000.0)), Entry(Num(2000000.0))],
                         GrossProfit := [Entry(Num(gp0)), Entry(Num(1000000.0))]], 0, 2);
    assert YearGrossMargin(fin, 0) == None;
    assert YearGrossMargin(fin, 1) == Some(50.0);
    assert GrossMarginSamples(fin, 1) == [];
  }

  function Sum(s: seq<real>): real {
    if |s| == 0 then 0.0 else s[0] + Sum(s[1..])
  }

  /** np.mean: the value that, counted once per sample, makes up their sum. */
  function Mean(s: seq<real>): (m: real)
    requires |s| > 0
    ensures m * (|s| as real) == Sum(s)
  {
    var n := |s| as real;
    assert Sum(s) / n * n == Sum(s);
    Sum(s) / n
  }

  /** np.min: an element of the list no greater than any other. */
  function Minimum(s: seq<real>): (m: real)
    requires |s| > 0
    ensures m in s
    ensures forall x :: x in s ==> m <= x
  {
    if |s| == 1 then s[0]
    else
      assert forall x :: x in s ==> x == s[0] || x in s[1..];
      Min(s[0], Minimum(s[1..]))
  }

  /** The largest element of the list. */
  function Maximum(s: seq<real>): (m: real)
    requires |s| > 0
    ensures m in s
    ensures forall x :: x in s ==> x <= m
  {
    if |s| == 1 then s[0]
    else
      assert forall x :: x in s ==> x == s[0] || x in s[1..];
      Max(s[0], Maximum(s[1..]))
  }

  /** A sum of n values in [lo, hi] lies in [n * lo, n * hi]. */
  lemma {:induction false} SumBounds(s: seq<real>, lo: real, hi: real)
    requires forall x :: x in s ==> lo <= x <= hi
    ensures |s| as real * lo <= Sum(s) <= |s| as real * hi
  {
    if |s| > 0 {
      assert s[0] in s;
      assert forall x :: x in s[1..] ==> x in s;
      SumBounds(s[1..], lo, hi);
      var k := |s[1..]| as real;
      assert |s| as real == k + 1.0;
      assert (k + 1.0) * lo == k * lo + lo;
      assert (k + 1.0) * hi == k * hi + hi;
    }
  }

  lemma DivisionBounds(total: real, n: real, lo: real, hi: real)
    requires n > 0.0
    requires n * lo <= total <= n * hi
    ensures lo <= total / n <= hi
  {
    var q := total / n;
    assert q * n == total;
    assert (q - lo) * n >= 0.0;
    assert (hi - q) * n >= 0.0;
  }

  /** The mean of values in [lo, hi] lies in [lo, hi]. */
  lemma MeanWithin(s: seq<real>, lo: real, hi: real)
    requires |s| > 0
    requires forall x :: x in s ==> lo <= x <= hi
    ensures lo <= Mean(s) <= hi
  {
    SumBounds(s, lo, hi);
    DivisionBounds(Sum(s), |s| as real, lo, hi);
  }

  /** The mean lies between the minimum and the maximum. */
  lemma MeanBetweenMinAndMax(s: seq<real>)
    requires |s| > 0
    ensures Minimum(s) <= Mean(s) <= Maximum(s)
  {
    MeanWithin(s, Minimum(s), Maximum(s));
  }

  /** The (average, minimum) pair the filters read for one metric. */
  datatype Aggregate = Aggregate(avg: real, min: real)

  /** Mean and minimum of the samples; with no samples both fall back to the current value. */
  function Summarize(samples: seq<real>, current: real): (a: Aggregate)
    ensures |samples| == 0 ==> a.avg == current && a.min == current
    ensures |samples| > 0 ==> a.min in samples && (forall x :: x in samples ==> a.min <= x)
    ensures |samples| > 0 ==> exists x :: x in samples && a.avg <= x
    ensures |samples| > 0 ==> a.avg == Mean(samples)
    ensures a.min <= a.avg
  {
    if |samples| > 0 then
      MeanBetweenMinAndMax(samples);
      Aggregate(Mean(samples), Minimum(samples))
    else
      Aggregate(current, current)
  }

  /** When every sample lies in [lo, hi], so do the average and the minimum. */
  lemma SummarizeWithin(samples: seq<real>, current: real, lo: real, hi: real)
    requires |samples| > 0
    requires forall x :: x in samples ==> lo <= x <= hi
    ensures lo <= Summarize(samples, current).min <= Summarize(samples, current).avg <= hi
  {
  }
}
