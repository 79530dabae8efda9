// AlpacaTutorial/Alpaca30/pairs_trading_bot.py: a KO/PEP pairs-trading run.
// Each run loads the persisted state, measures how far the price spread A - B
// is from its rolling mean (the z-score), and then enters, exits, or closes an
// unrecorded ("orphan") position.

module PairsTrading {
  import opened Wrappers
  import opened Numeric
  import opened Broker

  const SYMBOL_A := "KO"
  const SYMBOL_B := "PEP"
  const LOOKBACK_DAYS: nat := 252
  const Z_SCORE_ENTRY: real := 2.0
  const Z_SCORE_EXIT: real := 0.5
  const RISK_PER_TRADE: real := 0.02
  /** The rolling window of the spread statistics. */
  const SPREAD_LOOKBACK: nat := 60
  /** Fewer aligned rows than this and the run does nothing. */
  const MIN_ALIGNED_ROWS: nat := 60
  const COINTEGRATION_P_VALUE: real := 0.05
  const LONG_SPREAD := "long_spread"
  const SHORT_SPREAD := "short_spread"

  // ---------------------------------------------------------------- state

  /** The persisted JSON record; `None` is JSON `null`. */
  datatype PairsState = PairsState(
    position: Option<string>,
    entryZScore: Option<real>,
    entryTime: Option<string>,
    symbolA: Option<string>,
    symbolB: Option<string>)

  const DEFAULT_STATE := PairsState(None, None, None, None, None)

  /** What reading the state file gave: no file, an exception while reading or parsing, or a record. */
  datatype LoadOutcome = NoStateFile | Unreadable | Parsed(record: PairsState)

  /** `load_state`: the parsed record, and the all-null default when there is none. */
  function LoadState(file: LoadOutcome): (s: PairsState)
    ensures file.Parsed? ==> s == file.record
    ensures !file.Parsed? ==> s.position.None? && s.entryZScore.None? && s.entryTime.None?
                              && s.symbolA.None? && s.symbolB.None?
  {
    if file.Parsed? then file.record else DEFAULT_STATE
  }

  /** What `save_state` writes is what `load_state` reads back. */
  lemma SaveThenLoad(s: PairsState)
    ensures LoadState(Parsed(s)) == s
  {
  }

  /** Python truthiness of `state['position']`: a non-empty string. */
  predicate HasOpenSpread(s: PairsState) {
    s.position.Some? && s.position.value != ""
  }

  // ------------------------------------------------------------ statistics

  /** `test_cointegration`: the p-value of the test, or `None` when the test raised. */
  function TestCointegration(pValue: Option<real>): (r: (bool, real))
    ensures r.0 <==> pValue.Some? && pValue.value < COINTEGRATION_P_VALUE
    ensures pValue.None? ==> r == (false, 1.0)
    ensures pValue.Some? ==> r.1 == pValue.value
  {
    match pValue
    case None => (false, 1.0)
    case Some(p) => (p < COINTEGRATION_P_VALUE, p)
  }

  /** The spread series A - B, row by row. */
  function SpreadSeries(a: seq<real>, b: seq<real>): (s: seq<real>)
    requires |a| == |b|
    ensures |s| == |a|
    ensures forall i :: 0 <= i < |s| ==> s[i] == a[i] - b[i]
  {
    seq(|a|, i requires 0 <= i < |a| => a[i] - b[i])
  }

  datatype SpreadStats = SpreadStats(spread: real, mean: Num, std: Num, zScore: real, series: seq<real>)

  /**
   * `calculate_spread_stats` on the aligned close columns. `windowStd` is the
   * sample standard deviation pandas reports for the last window of the
   * spread; its square root is not part of the model. `None` is the
   * IndexError of `iloc[-1]` on an empty frame.
   */
  function CalculateSpreadStats(a: seq<real>, b: seq<real>, lookback: nat, windowStd: real): (r: Option<SpreadStats>)
    requires |a| == |b| && lookback >= 1
    ensures r.None? <==> |a| == 0
    ensures r.Some? ==>
      var st := r.value;
      && st.series == SpreadSeries(a, b)
      && st.spread == a[|a| - 1] - b[|b| - 1]
      && (st.mean.Some? <==> |a| >= lookback)
      && (st.mean.Some? ==> st.mean.value == Mean(st.series[|a| - lookback..]))
      && (st.std.Some? <==> |a| >= lookback >= 2)
      && (st.std.Some? ==> st.std.value == windowStd)
      && (st.std.Some? && st.std.value > 0.0 ==> st.zScore == (st.spread - st.mean.value) / st.std.value)
      && (!(st.std.Some? && st.std.value > 0.0) ==> st.zScore == 0.0)
  {
    if |a| == 0 then None
    else
      var series := SpreadSeries(a, b);
      var current := series[|series| - 1];
      var mean: Num := if |series| >= lookback then Some(Mean(series[|series| - lookback..])) else None;
      var std: Num := if |series| >= lookback >= 2 then Some(windowStd) else None;
      var z := if std.Some? && std.value > 0.0 then (current - mean.value) / std.value else 0.0;
      Some(SpreadStats(current, mean, std, z, series))
  }

  /**
   * Prices locked together over the window: the spread is the same on every
   * row of the window, so its sample variance is 0 and the z-score is 0
   * whatever standard deviation is supplied.
   */
  lemma LockedSpreadHasZeroScore(a: seq<real>, b: seq<real>, lookback: nat, windowStd: real)
    requires |a| == |b| >= lookback >= 2
    requires forall i :: |a| - lookback <= i < |a| ==> a[i] - b[i] == a[|a| - 1] - b[|a| - 1]
    ensures SampleVariance(SpreadSeries(a, b)[|a| - lookback..]) == 0.0
    ensures CalculateSpreadStats(a, b, lookback, windowStd).value.zScore == 0.0
  {
    var window := SpreadSeries(a, b)[|a| - lookback..];
    assert forall i :: 0 <= i < |window| ==> window[i] == window[0];
    ConstantWindowHasZeroVariance(window);
    MeanConstant(window, window[0]);
  }

  // ---------------------------------------------------------------- sizing

  /** `calculate_position_size`: the dollar budget of each leg. */
  function CalculatePositionSize(accountValue: real, riskPerTrade: real): (size: real)
    ensures riskPerTrade == RISK_PER_TRADE ==> size == accountValue / 50.0
    ensures 0.0 <= accountValue && riskPerTrade == RISK_PER_TRADE ==> 0.0 <= size <= accountValue
  {
    accountValue * riskPerTrade
  }

  /** The market orders of a pairs trade: leg A first, then leg B on the opposite side. */
  function TradeLegs(symbolA: string, symbolB: string, side: string, sharesA: int, sharesB: int): (legs: seq<Request>)
    ensures |legs| == 2
    ensures legs[0] == Market(symbolA, sharesA as real, if side == LONG_SPREAD then Buy else Sell)
    ensures legs[1] == Market(symbolB, sharesB as real, Opposite(legs[0].side))
  {
    if side == LONG_SPREAD then [Market(symbolA, sharesA as real, Buy), Market(symbolB, sharesB as real, Sell)]
    else [Market(symbolA, sharesA as real, Sell), Market(symbolB, sharesB as real, Buy)]
  }

  /** A price `get_current_price` produced that `not price` does not reject. */
  predicate UsablePrice(price: Option<real>) {
    price.Some? && price.value != 0.0
  }

  /** Whole shares of a leg: `int(position_size / price)`. */
  function LegShares(positionSize: real, price: real): int
    requires price != 0.0
  {
    Trunc(positionSize / price)
  }

  datatype TradeAttempt = TradeAttempt(ok: bool, placed: seq<Request>)

  /**
   * `execute_pairs_trade`: the orders the broker accepted, in submission
   * order, and the returned flag. `acceptA`/`acceptB` say whether each
   * `submit_order` returned rather than raised.
   */
  function PairsTrade(symbolA: string, symbolB: string, side: string, positionSize: real,
                      priceA: Option<real>, priceB: Option<real>, acceptA: bool, acceptB: bool): (t: TradeAttempt)
    ensures t.ok <==> |t.placed| == 2
    ensures t.ok <==> UsablePrice(priceA) && UsablePrice(priceB)
                      && LegShares(positionSize, priceA.value) >= 1 && LegShares(positionSize, priceB.value) >= 1
                      && acceptA && acceptB
    ensures t.placed != [] ==>
      && UsablePrice(priceA) && UsablePrice(priceB) && acceptA
      && t.placed <= TradeLegs(symbolA, symbolB, side,
                               LegShares(positionSize, priceA.value), LegShares(positionSize, priceB.value))
    ensures |t.placed| == 1 <==> t.placed != [] && !acceptB
  {
    if !UsablePrice(priceA) || !UsablePrice(priceB) then TradeAttempt(false, [])
    else
      var sharesA := LegShares(positionSize, priceA.value);
      var sharesB := LegShares(positionSize, priceB.value);
      if sharesA < 1 || sharesB < 1 then TradeAttempt(false, [])
      else
        var legs := TradeLegs(symbolA, symbolB, side, sharesA, sharesB);
        if !acceptA then TradeAttempt(false, [])
        else if !acceptB then TradeAttempt(false, legs[..1])
        else TradeAttempt(true, legs)
  }

  /** With either leg under one whole share nothing is sent and the trade fails. */
  lemma TooSmallForOneShare(symbolA: string, symbolB: string, side: string, positionSize: real,
                            priceA: real, priceB: real, acceptA: bool, acceptB: bool)
    requires priceA != 0.0 && priceB != 0.0
    requires positionSize / priceA < 1.0 || positionSize / priceB < 1.0
    ensures PairsTrade(symbolA, symbolB, side, positionSize, Some(priceA), Some(priceB), acceptA, acceptB)
            == TradeAttempt(false, [])
  {
  }

  /** A $10,000 account risks $200 a leg, which buys no share of a $205 stock. */
  lemma SmallAccountPlacesNothing()
    ensures PairsTrade(SYMBOL_A, SYMBOL_B, SHORT_SPREAD, CalculatePositionSize(10000.0, RISK_PER_TRADE),
                       Some(60.0), Some(205.0), true, true) == TradeAttempt(false, [])
  {
    assert CalculatePositionSize(10000.0, RISK_PER_TRADE) / 205.0 < 1.0;
  }

  /** The order that closes a leg holding `qty`: |int(qty)| shares, selling a long and buying back a short. */
  function CloseOrder(symbol: string, qty: real): (o: Request)
    ensures o.Market? && o.symbol == symbol
    ensures o.qty == AbsInt(Trunc(qty)) as real
    ensures o.side == (if qty > 0.0 then Sell else Buy)
    ensures Signed(o.side, o.qty) + Trunc(qty) as real == 0.0
  {
    Market(symbol, AbsInt(Trunc(qty)) as real, if qty > 0.0 then Sell else Buy)
  }

  /** The close order of one leg, when the leg is open and the broker accepted the order. */
  function CloseLeg(symbol: string, leg: Option<real>, accept: bool): (r: seq<Request>)
    ensures |r| <= 1
    ensures r != [] <==> leg.Some? && accept
    ensures r != [] ==> r[0] == CloseOrder(symbol, leg.value)
  {
    if leg.Some? && accept then [CloseOrder(symbol, leg.value)] else []
  }

  // -------------------------------------------------------------- decision

  /** What a run does once the z-score and the broker positions are known. */
  datatype Decision = Enter(side: string) | Exit | CloseOrphan | Hold

  /** The exit test as written: long spreads exit at z <= 0.5, short spreads at z >= -0.5. */
  predicate ExitSignalAsWritten(position: string, z: real) {
    (position == LONG_SPREAD && z <= Z_SCORE_EXIT) || (position == SHORT_SPREAD && z >= -Z_SCORE_EXIT)
  }

  /**
   * The evidently intended exit test: the spread has come back to within
   * `Z_SCORE_EXIT` of its mean from the side it was entered on.
   */
  predicate ExitSignal(position: string, z: real) {
    (position == LONG_SPREAD && z >= -Z_SCORE_EXIT) || (position == SHORT_SPREAD && z <= Z_SCORE_EXIT)
  }

  function DecideGiven(s: PairsState, hasBrokerPosition: bool, z: real, exitNow: bool): Decision {
    if hasBrokerPosition then
      if HasOpenSpread(s) then (if exitNow then Exit else Hold) else CloseOrphan
    else if z >= Z_SCORE_ENTRY then Enter(SHORT_SPREAD)
    else if z <= -Z_SCORE_ENTRY then Enter(LONG_SPREAD)
    else Hold
  }

  /** The decision of `main` as written. */
  function DecideAsWritten(s: PairsState, hasBrokerPosition: bool, z: real): (d: Decision)
    ensures hasBrokerPosition && HasOpenSpread(s) ==>
      (d == Exit <==> ExitSignalAsWritten(s.position.value, z))
  {
    DecideGiven(s, hasBrokerPosition, z, HasOpenSpread(s) && ExitSignalAsWritten(s.position.value, z))
  }

  /** The decision of `main`, with the exit test corrected. */
  function Decide(s: PairsState, hasBrokerPosition: bool, z: real): (d: Decision)
    ensures !hasBrokerPosition ==>
      && (d == Enter(SHORT_SPREAD) <==> z >= Z_SCORE_ENTRY)
      && (d == Enter(LONG_SPREAD) <==> z <= -Z_SCORE_ENTRY)
      && (d == Hold <==> -Z_SCORE_ENTRY < z < Z_SCORE_ENTRY)
    ensures hasBrokerPosition && !HasOpenSpread(s) ==> d == CloseOrphan
    ensures hasBrokerPosition && HasOpenSpread(s) ==>
      && (d == Exit <==> ExitSignal(s.position.value, z))
      && (d != Exit ==> d == Hold)
    ensures d.Enter? ==> !hasBrokerPosition
  {
    DecideGiven(s, hasBrokerPosition, z, HasOpenSpread(s) && ExitSignal(s.position.value, z))
  }

  /**
   * As written, a long spread entered at z = -2.5 is closed on the next run
   * at z = -2.4, although the spread has not reverted; a short spread entered
   * at 2.5 is closed at 2.4. The corrected rule holds both.
   */
  lemma AsWrittenExitsWithoutReversion()
    ensures DecideAsWritten(PairsState(Some(LONG_SPREAD), Some(-2.5), Some("t"), Some(SYMBOL_A), Some(SYMBOL_B)), true, -2.4) == Exit
    ensures DecideAsWritten(PairsState(Some(SHORT_SPREAD), Some(2.5), Some("t"), Some(SYMBOL_A), Some(SYMBOL_B)), true, 2.4) == Exit
    ensures Decide(PairsState(Some(LONG_SPREAD), Some(-2.5), Some("t"), Some(SYMBOL_A), Some(SYMBOL_B)), true, -2.4) == Hold
    ensures Decide(PairsState(Some(SHORT_SPREAD), Some(2.5), Some("t"), Some(SYMBOL_A), Some(SYMBOL_B)), true, 2.4) == Hold
  {
  }

  /** As written, every entry z-score already satisfies its own exit test. */
  lemma AsWrittenEntryMeetsExit(z: real)
    requires z >= Z_SCORE_ENTRY || z <= -Z_SCORE_ENTRY
    ensures var side := Decide(DEFAULT_STATE, false, z).side;
            ExitSignalAsWritten(side, z)
  {
  }

  /** Corrected, no entry z-score satisfies its own exit test. */
  lemma EntryDoesNotMeetExit(z: real)
    requires z >= Z_SCORE_ENTRY || z <= -Z_SCORE_ENTRY
    ensures var side := Decide(DEFAULT_STATE, false, z).side;
            !ExitSignal(side, z)
  {
  }

  // ------------------------------------------------------------------- run

  /**
   * Everything one run of `main` observes. The close columns are already
   * aligned on their timestamps; `legA`/`legB` are the open quantities or
   * `None` when `get_open_position` raised; `accountValue` is `None` when
   * `get_account` raised, which ends the run.
   */
  datatype PairsRun = PairsRun(
    closesA: seq<real>,
    closesB: seq<real>,
    pValue: Option<real>,
    windowStd: real,
    accountValue: Option<real>,
    legA: Option<real>,
    legB: Option<real>,
    priceA: Option<real>,
    priceB: Option<real>,
    acceptA: bool,
    acceptB: bool,
    now: string)
  {
    predicate Aligned() {
      |closesA| == |closesB|
    }
  }

  function CurrentZ(run: PairsRun): real
    requires run.Aligned() && |run.closesA| >= MIN_ALIGNED_ROWS
  {
    CalculateSpreadStats(run.closesA, run.closesB, SPREAD_LOOKBACK, run.windowStd).value.zScore
  }

  function HasBrokerPosition(run: PairsRun): bool {
    run.legA.Some? || run.legB.Some?
  }

  function CloseBoth(run: PairsRun): seq<Request> {
    CloseLeg(SYMBOL_A, run.legA, run.acceptA) + CloseLeg(SYMBOL_B, run.legB, run.acceptB)
  }

  /** The state after a confirmed entry on `side` at `z`. */
  function Entered(s: PairsState, side: string, z: real, now: string): PairsState {
    s.(position := Some(side), entryZScore := Some(z), entryTime := Some(now),
       symbolA := Some(SYMBOL_A), symbolB := Some(SYMBOL_B))
  }

  /** The state after an exit: the spread fields cleared, the symbols kept. */
  function Cleared(s: PairsState): PairsState {
    s.(position := None, entryZScore := None, entryTime := None)
  }

  /** The new state of a run, the records it saved, and the orders the broker accepted. */
  datatype RunOutcome = RunOutcome(state: PairsState, saved: seq<PairsState>, placed: seq<Request>)

  /** An entry on `side` at `z`: the state is recorded and saved only when both legs were accepted. */
  function EntryOutcome(s: PairsState, run: PairsRun, side: string, z: real): RunOutcome
    requires run.accountValue.Some?
  {
    var t := PairsTrade(SYMBOL_A, SYMBOL_B, side, CalculatePositionSize(run.accountValue.value, RISK_PER_TRADE),
                        run.priceA, run.priceB, run.acceptA, run.acceptB);
    if t.ok then RunOutcome(Entered(s, side, z, run.now), [Entered(s, side, z, run.now)], t.placed)
    else RunOutcome(s, [], t.placed)
  }

  /** One run of `main`, from the state it loaded. */
  function RunMain(s: PairsState, run: PairsRun): (o: RunOutcome)
    requires run.Aligned()
    ensures o.saved == [] || o.saved == [o.state]
    ensures o.state != s ==> o.saved == [o.state]
  {
    if |run.closesA| < MIN_ALIGNED_ROWS || run.accountValue.None? then RunOutcome(s, [], [])
    else
      var z := CurrentZ(run);
      match Decide(s, HasBrokerPosition(run), z)
      case Hold => RunOutcome(s, [], [])
      case CloseOrphan => RunOutcome(s, [], CloseBoth(run))
      case Exit => RunOutcome(Cleared(s), [Cleared(s)], CloseBoth(run))
      case Enter(side) => EntryOutcome(s, run, side, z)
  }

  /** Fewer than 60 aligned rows, or no account: nothing is traded or saved. */
  lemma ShortHistoryDoesNothing(s: PairsState, run: PairsRun)
    requires run.Aligned() && (|run.closesA| < MIN_ALIGNED_ROWS || run.accountValue.None?)
    ensures RunMain(s, run) == RunOutcome(s, [], [])
  {
  }

  /** The cointegration verdict is only reported: the run does the same for any p-value. */
  lemma CointegrationIsAdvisory(s: PairsState, run: PairsRun, p: Option<real>)
    requires run.Aligned()
    ensures RunMain(s, run.(pValue := p)) == RunMain(s, run)
  {
    assert run.(pValue := p).closesA == run.closesA;
  }

  /**
   * With no broker position and |z| >= 2 the run trades; the state records
   * the side, the entry z-score and time and the symbols, and is saved, if
   * and only if both legs were accepted.
   */
  lemma EntryRecordsConfirmedTrade(s: PairsState, run: PairsRun)
    requires run.Aligned() && |run.closesA| >= MIN_ALIGNED_ROWS && run.accountValue.Some?
    requires !HasBrokerPosition(run)
    requires CurrentZ(run) >= Z_SCORE_ENTRY || CurrentZ(run) <= -Z_SCORE_ENTRY
    ensures var z := CurrentZ(run);
            var side := if z >= Z_SCORE_ENTRY then SHORT_SPREAD else LONG_SPREAD;
            var t := PairsTrade(SYMBOL_A, SYMBOL_B, side,
                                CalculatePositionSize(run.accountValue.value, RISK_PER_TRADE),
                                run.priceA, run.priceB, run.acceptA, run.acceptB);
            RunMain(s, run) == (if t.ok then RunOutcome(Entered(s, side, z, run.now), [Entered(s, side, z, run.now)], t.placed)
                                else RunOutcome(s, [], t.placed))
  {
  }

  /** The state leaves a spread only through an exit, which keeps the symbols. */
  lemma LeavingTheSpreadIsAnExit(s: PairsState, run: PairsRun)
    requires run.Aligned()
    requires HasOpenSpread(s) && !HasOpenSpread(RunMain(s, run).state)
    ensures HasBrokerPosition(run) && ExitSignal(s.position.value, CurrentZ(run))
    ensures RunMain(s, run) == RunOutcome(Cleared(s), [Cleared(s)], CloseBoth(run))
    ensures RunMain(s, run).state.symbolA == s.symbolA && RunMain(s, run).state.symbolB == s.symbolB
  {
  }

  /** A broker position that the state does not record is closed and the state is not touched. */
  lemma OrphanIsClosed(s: PairsState, run: PairsRun)
    requires run.Aligned() && |run.closesA| >= MIN_ALIGNED_ROWS && run.accountValue.Some?
    requires HasBrokerPosition(run) && !HasOpenSpread(s)
    ensures RunMain(s, run) == RunOutcome(s, [], CloseBoth(run))
  {
  }

  /**
   * A spread entered in one run is held in the next run that still sees the
   * entry z-score and both legs open: the corrected exit test does not fire
   * before the spread reverts.
   */
  lemma EntryIsHeldUntilReversion(s: PairsState, first: PairsRun, second: PairsRun)
    requires first.Aligned() && second.Aligned()
    requires HasOpenSpread(RunMain(s, first).state) && !HasOpenSpread(s)
    requires |second.closesA| >= MIN_ALIGNED_ROWS && second.accountValue.Some?
    requires HasBrokerPosition(second) && CurrentZ(second) == CurrentZ(first)
    ensures RunMain(RunMain(s, first).state, second) == RunOutcome(RunMain(s, first).state, [], [])
  {
    var z := CurrentZ(first);
    EntryDoesNotMeetExit(z);
  }

  // ----------------------------------------------------------------- trader

  /** The bot's in-memory state, what it saved, and what it sent to the broker. */
  class PairsTrader {
    var state: PairsState
    var saves: seq<PairsState>
    var requests: seq<Request>

    constructor (file: LoadOutcome)
      ensures state == LoadState(file) && saves == [] && requests == []
    {
      state := LoadState(file);
      saves := [];
      requests := [];
    }

    /** `execute_pairs_trade`: leg A is submitted and accepted before leg B is submitted. */
    method ExecutePairsTrade(symbolA: string, symbolB: string, side: string, positionSize: real,
                             priceA: Option<real>, priceB: Option<real>, acceptA: bool, acceptB: bool)
      returns (ok: bool)
      modifies this`requests
      ensures var t := PairsTrade(symbolA, symbolB, side, positionSize, priceA, priceB, acceptA, acceptB);
              ok == t.ok && requests == old(requests) + t.placed
    {
      if !UsablePrice(priceA) || !UsablePrice(priceB) {
        return false;
      }
      var sharesA := LegShares(positionSize, priceA.value);
      var sharesB := LegShares(positionSize, priceB.value);
      if sharesA < 1 || sharesB < 1 {
        return false;
      }
      var legs := TradeLegs(symbolA, symbolB, side, sharesA, sharesB);
      if !acceptA {
        return false;
      }
      requests := requests + [legs[0]];
      if !acceptB {
        assert legs[..1] == [legs[0]];
        return false;
      }
      requests := requests + [legs[1]];
      assert [legs[0]] + [legs[1]] == legs;
      return true;
    }

    /** `close_pairs_position`: each open leg is closed in turn; a failing leg is skipped. */
    method ClosePairsPosition(symbolA: string, symbolB: string, legA: Option<real>, legB: Option<real>,
                              acceptA: bool, acceptB: bool)
      returns (ok: bool)
      modifies this`requests
      ensures ok
      ensures requests == old(requests) + CloseLeg(symbolA, legA, acceptA) + CloseLeg(symbolB, legB, acceptB)
    {
      if legA.Some? && acceptA {
        requests := requests + [CloseOrder(symbolA, legA.value)];
      }
      if legB.Some? && acceptB {
        requests := requests + [CloseOrder(symbolB, legB.value)];
      }
      return true;
    }

    /** The exit branch of `main`: close both legs, then clear and save the spread fields. */
    method LeaveSpread(run: PairsRun)
      modifies this
      ensures state == Cleared(old(state)) && saves == old(saves) + [Cleared(old(state))]
      ensures requests == old(requests) + CloseBoth(run)
    {
      var _ := ClosePairsPosition(SYMBOL_A, SYMBOL_B, run.legA, run.legB, run.acceptA, run.acceptB);
      state := state.(position := None);
      state := state.(entryZScore := None);
      state := state.(entryTime := None);
      saves := saves + [state];
    }

    /** The entry branch of `main`: trade both legs, then record and save the spread if both were accepted. */
    method EnterSpread(run: PairsRun, side: string, z: real)
      requires run.accountValue.Some?
      modifies this
      ensures var o := EntryOutcome(old(state), run, side, z);
              state == o.state && saves == old(saves) + o.saved && requests == old(requests) + o.placed
    {
      var size := CalculatePositionSize(run.accountValue.value, RISK_PER_TRADE);
      var ok := ExecutePairsTrade(SYMBOL_A, SYMBOL_B, side, size, run.priceA, run.priceB, run.acceptA, run.acceptB);
      if ok {
        state := state.(position := Some(side));
        state := state.(entryZScore := Some(z));
        state := state.(entryTime := Some(run.now));
        state := state.(symbolA := Some(SYMBOL_A));
        state := state.(symbolB := Some(SYMBOL_B));
        saves := saves + [state];
      }
    }

    /** One run of `main`: the in-memory record is updated field by field and then saved. */
    method RunStrategy(run: PairsRun)
      requires run.Aligned()
      modifies this
      ensures var o := RunMain(old(state), run);
              state == o.state && saves == old(saves) + o.saved && requests == old(requests) + o.placed
    {
      ghost var s0 := state;
      if |run.closesA| < MIN_ALIGNED_ROWS {
        return;
      }
      var verdict := TestCointegration(run.pValue);
      var z := CurrentZ(run);
      if run.accountValue.None? {
        return;
      }
      var hasPosition := run.legA.Some? || run.legB.Some?;
      assert hasPosition == HasBrokerPosition(run);
      if hasPosition {
        if HasOpenSpread(state) {
          if ExitSignal(state.position.value, z) {
            assert Decide(s0, hasPosition, z) == Exit;
            LeaveSpread(run);
          } else {
            assert Decide(s0, hasPosition, z) == Hold;
          }
        } else {
          assert Decide(s0, hasPosition, z) == CloseOrphan;
          var _ := ClosePairsPosition(SYMBOL_A, SYMBOL_B, run.legA, run.legB, run.acceptA, run.acceptB);
        }
      } else if z >= Z_SCORE_ENTRY || z <= -Z_SCORE_ENTRY {
        var side := if z >= Z_SCORE_ENTRY then SHORT_SPREAD else LONG_SPREAD;
        assert Decide(s0, hasPosition, z) == Enter(side);
        EnterSpread(run, side, z);
      } else {
        assert Decide(s0, hasPosition, z) == Hold;
      }
    }
  }
}
