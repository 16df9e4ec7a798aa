/** The elite filters: five rules evaluated in a fixed order, each adding at most one
    reason; the verdict, the valuation bucket and the two scores. */
module Verdict {
  import opened Numbers
  import opened History
  import opened Metrics

  /** A failure reason with the figures it cites. */
  datatype Reason =
    | WeakMoat(avgGm: real, minGm: real)
    | UnstableMoat(minGm: real)
    | WeakEngine(avgRoic: real)
    | UnstableEngine(minRoic: real)
    | HighDebt(de: real)
    | Expensive(fcfYield: real)
    | PoorCashQuality

  /** The rule a reason belongs to, numbered in evaluation order. */
  function RuleOf(r: Reason): nat {
    match r
    case WeakMoat(_, _) => 0
    case UnstableMoat(_) => 0
    case WeakEngine(_) => 1
    case UnstableEngine(_) => 1
    case HighDebt(_) => 2
    case Expensive(_) => 3
    case PoorCashQuality => 4
  }

  /** What the filters read: the two aggregates, the ratio, the yield and the lie flag. */
  datatype Screen = Screen(gm: Aggregate, roic: Aggregate, de: real, fcfYield: real, quality: CashQuality)

  function MoatRule(cfg: Config, gm: Aggregate): seq<Reason> {
    if gm.avg < cfg.minGrossMargin then [WeakMoat(gm.avg, gm.min)]
    else if gm.min < cfg.minGrossMargin * 0.8 then [UnstableMoat(gm.min)]
    else []
  }

  function EngineRule(cfg: Config, roic: Aggregate): seq<Reason> {
    if roic.avg < cfg.minRoic then [WeakEngine(roic.avg)]
    else if roic.min < cfg.minRoic * 0.8 then [UnstableEngine(roic.min)]
    else []
  }

  function DebtRule(cfg: Config, de: real): seq<Reason> {
    if de > cfg.maxDebtToEquity then [HighDebt(de)] else []
  }

  function ValuationRule(cfg: Config, fcfYield: real): seq<Reason> {
    if fcfYield < cfg.minFcfYield then [Expensive(fcfYield)] else []
  }

  function CashRule(quality: CashQuality): seq<Reason> {
    if quality == Suspicious then [PoorCashQuality] else []
  }

  /** Every rule's verdict, concatenated in rule order; no rule stops the others. */
  function Reasons(cfg: Config, s: Screen): seq<Reason> {
    MoatRule(cfg, s.gm) + EngineRule(cfg, s.roic) + DebtRule(cfg, s.de)
      + ValuationRule(cfg, s.fcfYield) + CashRule(s.quality)
  }

  /** The filters as the scanner runs them: successive appends to one list. */
  method ScreenReasons(cfg: Config, s: Screen) returns (reasons: seq<Reason>)
    ensures reasons == Reasons(cfg, s)
    ensures forall i, j :: 0 <= i < j < |reasons| ==> RuleOf(reasons[i]) < RuleOf(reasons[j])
  {
    reasons := [];
    if s.gm.avg < cfg.minGrossMargin {
      reasons := reasons + [WeakMoat(s.gm.avg, s.gm.min)];
    } else if s.gm.min < cfg.minGrossMargin * 0.8 {
      reasons := reasons + [UnstableMoat(s.gm.min)];
    }
    assert reasons == MoatRule(cfg, s.gm);
    ghost var sofar := reasons;
    if s.roic.avg < cfg.minRoic {
      reasons := reasons + [WeakEngine(s.roic.avg)];
    } else if s.roic.min < cfg.minRoic * 0.8 {
      reasons := reasons + [UnstableEngine(s.roic.min)];
    }
    assert reasons == sofar + EngineRule(cfg, s.roic);
    sofar := reasons;
    if s.de > cfg.maxDebtToEquity {
      reasons := reasons + [HighDebt(s.de)];
    }
    assert reasons == sofar + DebtRule(cfg, s.de);
    sofar := reasons;
    if s.fcfYield < cfg.minFcfYield {
      reasons := reasons + [Expensive(s.fcfYield)];
    }
    assert reasons == sofar + ValuationRule(cfg, s.fcfYield);
    sofar := reasons;
    if s.quality == Suspicious {
      reasons := reasons + [PoorCashQuality];
    }
    assert reasons == sofar + CashRule(s.quality);
    ReasonsInRuleOrder(cfg, s);
  }

  /** Reasons appear in rule order with at most one per rule (so never both the weak and
      the unstable reason for one metric), and there are at most five. */
  lemma ReasonsInRuleOrder(cfg: Config, s: Screen)
    ensures forall i, j :: 0 <= i < j < |Reasons(cfg, s)| ==>
      RuleOf(Reasons(cfg, s)[i]) < RuleOf(Reasons(cfg, s)[j])
    ensures |Reasons(cfg, s)| <= 5
  {
  }

  /** The moat and engine reasons: the weak one exactly when the average fails, the
      unstable one exactly when the average passes and the minimum does not. */
  lemma StabilityReasonsExactly(cfg: Config, s: Screen)
    ensures (exists r :: r in Reasons(cfg, s) && r.WeakMoat?) <==> s.gm.avg < cfg.minGrossMargin
    ensures (exists r :: r in Reasons(cfg, s) && r.UnstableMoat?) <==>
      s.gm.avg >= cfg.minGrossMargin && s.gm.min < cfg.minGrossMargin * 0.8
    ensures (exists r :: r in Reasons(cfg, s) && r.WeakEngine?) <==> s.roic.avg < cfg.minRoic
    ensures (exists r :: r in Reasons(cfg, s) && r.UnstableEngine?) <==>
      s.roic.avg >= cfg.minRoic && s.roic.min < cfg.minRoic * 0.8
  {
    var m, e, d, v, c := MoatRule(cfg, s.gm), EngineRule(cfg, s.roic), DebtRule(cfg, s.de),
                         ValuationRule(cfg, s.fcfYield), CashRule(s.quality);
    var rs := Reasons(cfg, s);
    assert rs == m + e + d + v + c;
    assert forall r :: r in rs <==> r in m || r in e || r in d || r in v || r in c;
    assert forall r: Reason :: r in d + v + c ==> r.HighDebt? || r.Expensive? || r == PoorCashQuality;
    assert forall r: Reason :: r in rs ==> r in m || r in e || r in d + v + c;
    if s.gm.avg < cfg.minGrossMargin {
      assert m[0] in rs && m[0].WeakMoat?;
    } else if s.gm.min < cfg.minGrossMargin * 0.8 {
      assert m[0] in rs && m[0].UnstableMoat?;
    }
    if s.roic.avg < cfg.minRoic {
      assert e[0] in rs && e[0].WeakEngine?;
    } else if s.roic.min < cfg.minRoic * 0.8 {
      assert e[0] in rs && e[0].UnstableEngine?;
    }
  }

  /** The debt, valuation and cash-quality reasons: each exactly when its rule fails. */
  lemma ThresholdReasonsExactly(cfg: Config, s: Screen)
    ensures (exists r :: r in Reasons(cfg, s) && r.HighDebt?) <==> s.de > cfg.maxDebtToEquity
    ensures (exists r :: r in Reasons(cfg, s) && r.Expensive?) <==> s.fcfYield < cfg.minFcfYield
    ensures PoorCashQuality in Reasons(cfg, s) <==> s.quality == Suspicious
  {
    var m, e, d, v, c := MoatRule(cfg, s.gm), EngineRule(cfg, s.roic), DebtRule(cfg, s.de),
                         ValuationRule(cfg, s.fcfYield), CashRule(s.quality);
    var rs := Reasons(cfg, s);
    assert rs == m + e + d + v + c;
    assert forall r :: r in rs <==> r in m || r in e || r in d || r in v || r in c;
    assert forall r: Reason :: r in m + e ==> RuleOf(r) <= 1;
    if s.de > cfg.maxDebtToEquity {
      assert d[0] in rs;
    }
    if s.fcfYield < cfg.minFcfYield {
      assert v[0] in rs;
    }
  }

  /** SURVIVOR or REJECTED. */
  datatype Status = Survivor | Rejected

  /** A stock survives exactly when no rule produced a reason. */
  function StatusOf(reasons: seq<Reason>): (st: Status)
    ensures st == Survivor <==> reasons == []
  {
    if reasons == [] then Survivor else Rejected
  }

  /** Survival spelled out: every threshold cleared and the cash verified. */
  lemma SurvivorIff(cfg: Config, s: Screen)
    ensures StatusOf(Reasons(cfg, s)) == Survivor <==>
      s.gm.avg >= cfg.minGrossMargin && s.gm.min >= cfg.minGrossMargin * 0.8 &&
      s.roic.avg >= cfg.minRoic && s.roic.min >= cfg.minRoic * 0.8 &&
      s.de <= cfg.maxDebtToEquity && s.fcfYield >= cfg.minFcfYield && s.quality == Verified
  {
    var rs := Reasons(cfg, s);
    assert rs == MoatRule(cfg, s.gm) + EngineRule(cfg, s.roic) + DebtRule(cfg, s.de)
                 + ValuationRule(cfg, s.fcfYield) + CashRule(s.quality);
  }

  /** The valuation bucket. */
  datatype Valuation = Bargain | Fair | Pricey

  /** BARGAIN above 8% yield, FAIR above 4.5%, PRICEY otherwise, whatever the status. */
  function Bucket(fcfYield: real): (v: Valuation)
    ensures v == Bargain <==> fcfYield > 8.0
    ensures v == Fair <==> 4.5 < fcfYield <= 8.0
    ensures v == Pricey <==> fcfYield <= 4.5
  {
    if fcfYield > 8.0 then Bargain else if fcfYield > 4.5 then Fair else Pricey
  }

  function Cheapness(v: Valuation): nat {
    match v
    case Pricey => 0
    case Fair => 1
    case Bargain => 2
  }

  /** A higher yield never lands in a pricier bucket. */
  lemma BucketMonotone(y1: real, y2: real)
    requires y1 <= y2
    ensures Cheapness(Bucket(y1)) <= Cheapness(Bucket(y2))
  {
  }

  /** Cash-engine score: min(60, roic/40*60) + min(40, gm/80*40), truncated; at most
      100 and reaching 100 at 40% ROIC and 80% margin, with no lower clamp. */
  function CashScore(roic: real, gm: real): (n: int)
    ensures n <= 100
    ensures roic >= 40.0 && gm >= 80.0 ==> n == 100
    ensures roic >= 0.0 && gm >= 0.0 ==> 0 <= n
  {
    Truncate(Min(60.0, roic / 40.0 * 60.0) + Min(40.0, gm / 80.0 * 40.0))
  }

  /** The score grows with ROIC and with gross margin. */
  lemma CashScoreMonotone(roic1: real, gm1: real, roic2: real, gm2: real)
    requires roic1 <= roic2 && gm1 <= gm2
    ensures CashScore(roic1, gm1) <= CashScore(roic2, gm2)
  {
    var x1 := Min(60.0, roic1 / 40.0 * 60.0) + Min(40.0, gm1 / 80.0 * 40.0);
    var x2 := Min(60.0, roic2 / 40.0 * 60.0) + Min(40.0, gm2 / 80.0 * 40.0);
    assert x1 <= x2;
    TruncateMonotone(x1, x2);
  }

  lemma TruncateMonotone(x: real, y: real)
    requires x <= y
    ensures Truncate(x) <= Truncate(y)
  {
  }

  /** The historical ROIC floor of -100 drives the score below zero. */
  lemma CashScoreCanBeNegative()
    ensures CashScore(-100.0, 50.0) == -125
  {
  }

  /** Safety score: max(0, 100 - 200 * de), truncated; never negative, at most 100 for
      a non-negative ratio, 100 without debt and 0 from a ratio of 0.5 up. */
  function SafetyScore(de: real): (n: int)
    ensures n >= 0
    ensures de >= 0.0 ==> n <= 100
    ensures de == 0.0 ==> n == 100
    ensures de >= 0.5 ==> n == 0
  {
    Truncate(Max(0.0, 100.0 - de * 200.0))
  }

  /** More leverage never raises the safety score. */
  lemma SafetyScoreAntitone(de1: real, de2: real)
    requires de1 <= de2
    ensures SafetyScore(de2) <= SafetyScore(de1)
  {
    TruncateMonotone(Max(0.0, 100.0 - de2 * 200.0), Max(0.0, 100.0 - de1 * 200.0));
  }
}
