// Alpaca27/analyze_backtest.py: the report that turns backtest statistics
// into verdicts. The classifiers are threshold bands; the overall
// assessment counts positive indicators step by step. The Sharpe ratio and
// the profit factor are `Num`s: backtesting.py reports NaN for them when the
// returns have no volatility or no trade lost.

module AnalyzeBacktest {
  import opened Wrappers
  import opened Numeric

  /**
   * `calculate_annual_return`: 0.0 when the span is not a positive number of
   * years; otherwise the compound annual rate in percent. `growthRoot` is
   * `(1 + total_return / 100) ** (1 / years)`, which the model takes as given.
   */
  function CalculateAnnualReturn(days: int, growthRoot: real): (annual: real)
    ensures days as real / 365.25 <= 0.0 ==> annual == 0.0
    ensures days > 0 ==> annual == (growthRoot - 1.0) * 100.0
  {
    var years := days as real / 365.25;
    if years <= 0.0 then 0.0 else (growthRoot - 1.0) * 100.0
  }

  /** The years guard fires exactly for spans of zero or fewer days. */
  lemma YearsGuardExactlyNonPositiveDays(days: int, growthRoot: real)
    ensures days as real / 365.25 <= 0.0 <==> days <= 0
    ensures days <= 0 ==> CalculateAnnualReturn(days, growthRoot) == 0.0
  {
    if days > 0 {
      MulMonotone(0.0, days as real / 365.25, 365.25);
      DivTimes(days as real, 365.25);
    }
  }

  datatype SharpeBand = NotGreat | Good | VeryGood | TooGoodToBeTrue

  function SharpeRank(b: SharpeBand): nat {
    match b
    case NotGreat => 0
    case Good => 1
    case VeryGood => 2
    case TooGoodToBeTrue => 3
  }

  /**
   * `interpret_sharpe_ratio`: the bands below 1, [1, 2), [2, 3) and from 3 up.
   * A NaN ratio fails every `<` test and falls through to the top band.
   */
  function InterpretSharpeRatio(sharpeRatio: Num): (band: SharpeBand)
    ensures band == NotGreat <==> sharpeRatio.Some? && sharpeRatio.value < 1.0
    ensures band == Good <==> sharpeRatio.Some? && 1.0 <= sharpeRatio.value < 2.0
    ensures band == VeryGood <==> sharpeRatio.Some? && 2.0 <= sharpeRatio.value < 3.0
    ensures band == TooGoodToBeTrue <==> sharpeRatio.None? || 3.0 <= sharpeRatio.value
  {
    if Lt(sharpeRatio, Some(1.0)) then NotGreat
    else if Lt(sharpeRatio, Some(2.0)) then Good
    else if Lt(sharpeRatio, Some(3.0)) then VeryGood
    else TooGoodToBeTrue
  }

  /** Among numeric ratios, a higher Sharpe ratio never gets a lower band. */
  lemma SharpeBandMonotone(s: real, t: real)
    requires s <= t
    ensures SharpeRank(InterpretSharpeRatio(Some(s))) <= SharpeRank(InterpretSharpeRatio(Some(t)))
  {
  }

  datatype DrawdownBand = LowRisk | ModerateRisk | HighRisk | ExtremeRisk

  function DrawdownRank(b: DrawdownBand): nat {
    match b
    case LowRisk => 0
    case ModerateRisk => 1
    case HighRisk => 2
    case ExtremeRisk => 3
  }

  /** `interpret_drawdown`: bands on the size of the drawdown, cut at 10, 20 and 40 percent. */
  function InterpretDrawdown(drawdownPercent: real): (band: DrawdownBand)
    ensures band == LowRisk <==> Abs(drawdownPercent) < 10.0
    ensures band == ModerateRisk <==> 10.0 <= Abs(drawdownPercent) < 20.0
    ensures band == HighRisk <==> 20.0 <= Abs(drawdownPercent) < 40.0
    ensures band == ExtremeRisk <==> 40.0 <= Abs(drawdownPercent)
  {
    var drawdownAbs := Abs(drawdownPercent);
    if drawdownAbs < 10.0 then LowRisk
    else if drawdownAbs < 20.0 then ModerateRisk
    else if drawdownAbs < 40.0 then HighRisk
    else ExtremeRisk
  }

  /** The sign of the drawdown does not matter, and a deeper drawdown never gets a milder band. */
  lemma DrawdownBandBySize(d: real, e: real)
    ensures InterpretDrawdown(d) == InterpretDrawdown(-d)
    ensures Abs(d) <= Abs(e) ==> DrawdownRank(InterpretDrawdown(d)) <= DrawdownRank(InterpretDrawdown(e))
  {
  }

  datatype WinRateLevel = HighWinRate | ModerateWinRate | LowWinRate
  datatype ProfitFactorLevel = ExcellentFactor | GoodFactor | MarginalFactor | PoorFactor
  datatype RewardLevel = LargeWinsSmallLosses | WinsLargerThanLosses | LossesLargerThanWins

  /** One line of `analyze_win_rate`'s report. */
  datatype Remark =
    | WinRateRemark(winRate: real, level: WinRateLevel)
    | ProfitFactorRemark(profitFactor: Num, factorLevel: ProfitFactorLevel)
    | RewardRemark(reward: RewardLevel)

  function WinRateLevelOf(winRate: real): (level: WinRateLevel)
    ensures level == HighWinRate <==> winRate >= 60.0
    ensures level == LowWinRate <==> winRate < 40.0
  {
    if winRate >= 60.0 then HighWinRate else if winRate >= 40.0 then ModerateWinRate else LowWinRate
  }

  /** The profit-factor remark; a NaN factor fails every `>` test and is called poor. */
  function ProfitFactorLevelOf(profitFactor: Num): (level: ProfitFactorLevel)
    ensures level == ExcellentFactor <==> profitFactor.Some? && profitFactor.value > 2.0
    ensures level == GoodFactor <==> profitFactor.Some? && 1.5 < profitFactor.value <= 2.0
    ensures level == MarginalFactor <==> profitFactor.Some? && 1.0 < profitFactor.value <= 1.5
    ensures level == PoorFactor <==> profitFactor.None? || profitFactor.value <= 1.0
  {
    if Lt(Some(2.0), profitFactor) then ExcellentFactor
    else if Lt(Some(1.5), profitFactor) then GoodFactor
    else if Lt(Some(1.0), profitFactor) then MarginalFactor
    else PoorFactor
  }

  function RewardLevelOf(avgWin: real, avgLoss: real): (level: RewardLevel)
    ensures level == LargeWinsSmallLosses <==> avgWin > Abs(avgLoss) * 2.0
    ensures level == LossesLargerThanWins <==> avgWin <= Abs(avgLoss)
  {
    if avgWin > Abs(avgLoss) * 2.0 then LargeWinsSmallLosses
    else if avgWin > Abs(avgLoss) then WinsLargerThanLosses
    else LossesLargerThanWins
  }

  /**
   * `analyze_win_rate`: the report list, built by three appends, always has
   * exactly three lines, in the order win rate, profit factor, reward.
   */
  method AnalyzeWinRate(winRate: real, profitFactor: Num, avgWin: real, avgLoss: real) returns (analysis: seq<Remark>)
    ensures |analysis| == 3
    ensures analysis[0] == WinRateRemark(winRate, WinRateLevelOf(winRate))
    ensures analysis[1] == ProfitFactorRemark(profitFactor, ProfitFactorLevelOf(profitFactor))
    ensures analysis[2] == RewardRemark(RewardLevelOf(avgWin, avgLoss))
  {
    analysis := [];
    if winRate >= 60.0 {
      analysis := analysis + [WinRateRemark(winRate, HighWinRate)];
    } else if winRate >= 40.0 {
      analysis := analysis + [WinRateRemark(winRate, ModerateWinRate)];
    } else {
      analysis := analysis + [WinRateRemark(winRate, LowWinRate)];
    }
    if Lt(Some(2.0), profitFactor) {
      analysis := analysis + [ProfitFactorRemark(profitFactor, ExcellentFactor)];
    } else if Lt(Some(1.5), profitFactor) {
      analysis := analysis + [ProfitFactorRemark(profitFactor, GoodFactor)];
    } else if Lt(Some(1.0), profitFactor) {
      analysis := analysis + [ProfitFactorRemark(profitFactor, MarginalFactor)];
    } else {
      analysis := analysis + [ProfitFactorRemark(profitFactor, PoorFactor)];
    }
    if avgWin > Abs(avgLoss) * 2.0 {
      analysis := analysis + [RewardRemark(LargeWinsSmallLosses)];
    } else if avgWin > Abs(avgLoss) {
      analysis := analysis + [RewardRemark(WinsLargerThanLosses)];
    } else {
      analysis := analysis + [RewardRemark(LossesLargerThanWins)];
    }
  }

  /** The statistics the overall assessment reads. */
  datatype Assessment = Assessment(annualReturn: real, buyHoldAnnual: real, maxDrawdown: real,
                                   sharpeRatio: Num, trades: int, profitFactor: Num)

  predicate BeatsBuyAndHold(a: Assessment) {
    a.annualReturn > a.buyHoldAnnual
  }

  predicate TolerableDrawdown(a: Assessment) {
    Abs(a.maxDrawdown) < 20.0
  }

  /** `sharpe_ratio >= 1.0`, false for a NaN ratio. */
  predicate GoodSharpe(a: Assessment) {
    a.sharpeRatio.Some? && a.sharpeRatio.value >= 1.0
  }

  predicate GoodProfitFactor(a: Assessment) {
    a.trades > 0 && Lt(Some(1.5), a.profitFactor)
  }

  function Count(b: bool): nat {
    if b then 1 else 0
  }

  /**
   * The number of indicators among the four that are positive: the three
   * always counted and the profit factor, counted only when there were trades.
   */
  function PositiveIndicators(a: Assessment): nat {
    Count(BeatsBuyAndHold(a)) + Count(TolerableDrawdown(a)) + Count(GoodSharpe(a)) + Count(GoodProfitFactor(a))
  }

  /**
   * The counting in `print_detailed_analysis`: three indicators always, a
   * fourth when there were trades; each one adds to the positive count
   * when it passes.
   */
  method CountIndicators(a: Assessment) returns (positive: nat, total: nat)
    ensures total == 3 + Count(a.trades > 0)
    ensures positive == PositiveIndicators(a)
    ensures positive <= total
  {
    positive := 0;
    total := 0;
    total := total + 1;
    if a.annualReturn > a.buyHoldAnnual {
      positive := positive + 1;
    }
    total := total + 1;
    if Abs(a.maxDrawdown) < 20.0 {
      positive := positive + 1;
    }
    total := total + 1;
    if a.sharpeRatio.Some? && a.sharpeRatio.value >= 1.0 {
      positive := positive + 1;
    }
    if a.trades > 0 {
      total := total + 1;
      if Lt(Some(1.5), a.profitFactor) {
        positive := positive + 1;
      }
    }
  }

  /** The drawdown indicator passes exactly in the two mildest drawdown bands. */
  lemma DrawdownIndicatorMatchesBands(a: Assessment)
    ensures TolerableDrawdown(a) <==> InterpretDrawdown(a.maxDrawdown) in {LowRisk, ModerateRisk}
  {
  }

  /**
   * The Sharpe indicator passes exactly when the ratio is a number whose band
   * is not "not great". A NaN ratio is reported in the top band, yet the
   * indicator does not count it as positive.
   */
  lemma SharpeIndicatorMatchesBands(a: Assessment)
    ensures GoodSharpe(a) <==> a.sharpeRatio.Some? && InterpretSharpeRatio(a.sharpeRatio) != NotGreat
    ensures a.sharpeRatio.None? ==> InterpretSharpeRatio(a.sharpeRatio) == TooGoodToBeTrue && !GoodSharpe(a)
  {
  }

  /**
   * With trades, the profit-factor indicator passes exactly when the report
   * calls the factor good or excellent; a NaN factor is poor and not counted.
   */
  lemma ProfitFactorIndicatorMatchesLevels(a: Assessment)
    ensures GoodProfitFactor(a) <==> a.trades > 0 && ProfitFactorLevelOf(a.profitFactor) in {ExcellentFactor, GoodFactor}
    ensures a.profitFactor.None? ==> ProfitFactorLevelOf(a.profitFactor) == PoorFactor && !GoodProfitFactor(a)
  {
  }

  /** `(positive_indicators / total_indicators) * 100`. */
  function Score(positive: nat, total: nat): (score: real)
    requires 0 < total && positive <= total
    ensures 0.0 <= score <= 100.0
  {
    MulMonotone(positive as real, total as real, 1.0 / total as real);
    (positive as real / total as real) * 100.0
  }

  datatype Verdict = Strong | Moderate | Weak

  /** The verdict bands: STRONG from 75, MODERATE from 50, WEAK below. */
  function VerdictOf(score: real): (v: Verdict)
    ensures v == Strong <==> score >= 75.0
    ensures v == Moderate <==> 50.0 <= score < 75.0
    ensures v == Weak <==> score < 50.0
  {
    if score >= 75.0 then Strong else if score >= 50.0 then Moderate else Weak
  }

  /** A score lies at or above a percentage exactly when the indicator count reaches that share of the total. */
  lemma ScoreAtLeast(positive: nat, total: nat, percent: real)
    requires 0 < total && positive <= total
    ensures Score(positive, total) >= percent <==> positive as real * 100.0 >= percent * total as real
  {
    var t := total as real;
    var q := positive as real / t;
    var score := Score(positive, total);
    assert score == q * 100.0;
    DivTimes(positive as real, t);
    assert score * t == positive as real * 100.0 by {
      assert (q * 100.0) * t == (q * t) * 100.0;
    }
    if score >= percent {
      MulMonotone(percent, score, t);
    } else {
      MulMonotone(score, percent, t);
    }
  }

  /**
   * With no trades only three indicators count, so a strategy is STRONG
   * exactly when all three pass and MODERATE exactly when two do. With
   * trades, STRONG needs three of the four and MODERATE two.
   */
  lemma VerdictByCount(positive: nat, total: nat)
    requires total == 3 || total == 4
    requires positive <= total
    ensures VerdictOf(Score(positive, total)) == Strong <==> (if total == 3 then positive == 3 else positive >= 3)
    ensures VerdictOf(Score(positive, total)) == Moderate <==> positive == 2
  {
    ScoreAtLeast(positive, total, 75.0);
    ScoreAtLeast(positive, total, 50.0);
  }
}
