// AlpacaTutorial/Alpaca25/resilient_bot.py: the state-managed golden/death
// cross bot with error handling: a three-valued broker sync, a "safe" close,
// and a consecutive-error counter meant to trip a circuit breaker.

module ResilientBot {
  import opened Wrappers
  import opened Numeric
  import opened Broker
  import opened Signals
  import opened PositionFlag

  const MAX_CONSECUTIVE_ERRORS: nat := 5

  /** `load_state`: every failure to read or parse the file gives the default record. */
  function LoadState(file: StateFile): (r: FlagRecord)
    ensures file.Parsed? ==> r == file.record
    ensures !file.Parsed? ==> r == DEFAULT_RECORD && !Flag(r)
  {
    if file.Parsed? then file.record else DEFAULT_RECORD
  }

  /**
   * `synchronize_state_with_broker`: `Some(true)` when a position exists,
   * `Some(false)` when the error text says there is none, and `None` (the
   * state could not be verified) on any other error.
   */
  function SynchronizeStateWithBroker(query: PositionQuery): (r: Option<bool>)
    ensures query.Open? ==> r == Some(true)
    ensures query.Raised? ==> (r == Some(false) <==> SaysNoPosition(query.error))
    ensures query.Raised? ==> (r.None? <==> !SaysNoPosition(query.error))
  {
    match query
    case Open(_) => Some(true)
    case Raised(error) => if SaysNoPosition(error) then Some(false) else None
  }

  /** A message already in lower case is its own `lower()`. */
  lemma LowerOfLowercase(text: string)
    requires forall i :: 0 <= i < |text| ==> !('A' <= text[i] <= 'Z')
    ensures Lower(text) == text
  {
  }

  /** The broker's reply when the account holds no such position. */
  const NOT_FOUND_REPLY: string := "position not found"

  /** A lower-case message with "not found" at offset `i` says there is no position. */
  lemma SaysNoPositionAt(error: ApiError, i: nat)
    requires forall k :: 0 <= k < |error.message| ==> !('A' <= error.message[k] <= 'Z')
    requires i + 9 <= |error.message| && error.message[i..i + 9] == "not found"
    ensures SaysNoPosition(error)
  {
    LowerOfLowercase(error.message);
    HasSubstringAt(error.message, "not found", i);
  }

  /** The reply is in lower case already and contains "not found" at offset 9. */
  lemma NotFoundReplyMatches(kind: ErrorKind)
    ensures SaysNoPosition(ApiError(kind, NOT_FOUND_REPLY))
  {
    var text := NOT_FOUND_REPLY;
    assert text[9..18] == "not found";
    SaysNoPositionAt(ApiError(kind, text), 9);
  }

  /** The broker's "position not found" reply means flat, not unverified. */
  lemma MissingPositionIsFlat()
    ensures SynchronizeStateWithBroker(Raised(ApiError(OtherFailure, NOT_FOUND_REPLY))) == Some(false)
  {
    NotFoundReplyMatches(OtherFailure);
  }

  /** The outcome of `close_position(symbol)`. */
  datatype CloseOutcome = Closed | CloseRaised(error: ApiError)

  /**
   * `close_position_safely`: success, or an error saying the position does
   * not exist, counts as closed; a timeout, a connection error or any other
   * error does not.
   */
  function ClosePositionSafely(outcome: CloseOutcome): (closed: bool)
    ensures outcome.Closed? ==> closed
    ensures outcome.CloseRaised? && outcome.error.kind != OtherFailure ==> !closed
    ensures outcome.CloseRaised? && outcome.error.kind == OtherFailure ==> (closed <==> SaysNoPosition(outcome.error))
  {
    match outcome
    case Closed => true
    case CloseRaised(error) => error.kind == OtherFailure && SaysNoPosition(error)
  }

  /** Closing a position that is already gone counts as success, unless the call timed out or lost the connection. */
  lemma AlreadyClosedCountsAsClosed(kind: ErrorKind)
    ensures ClosePositionSafely(CloseRaised(ApiError(kind, NOT_FOUND_REPLY))) <==> kind == OtherFailure
  {
    NotFoundReplyMatches(kind);
  }

  /** The bot's variables, the pauses the breaker caused, what it saved, and the accepted requests. */
  datatype Snapshot = Snapshot(
    isInPosition: bool,
    botState: FlagRecord,
    consecutiveErrors: nat,
    pauses: nat,
    saves: seq<FlagRecord>,
    requests: seq<Request>)

  predicate Consistent(s: Snapshot) {
    Flag(s.botState) == s.isInPosition && (s.saves != [] ==> s.saves[|s.saves| - 1] == s.botState)
  }

  /**
   * The variables right after loading `record`: the flag read from it, the
   * error counter at 0, no pause yet, and nothing saved or sent.
   */
  function Start(record: FlagRecord): (s: Snapshot)
    ensures s.botState == record && s.isInPosition == Flag(record)
    ensures s.consecutiveErrors == 0 && s.pauses == 0 && s.saves == [] && s.requests == []
    ensures Consistent(s)
  {
    Snapshot(Flag(record), record, 0, 0, [], [])
  }

  /**
   * Start-up reconciliation: an unverified sync keeps the saved state and
   * saves nothing; a mismatch adopts the broker's answer and saves it; a
   * match changes nothing.
   */
  function Reconcile(s: Snapshot, actual: Option<bool>): (r: Snapshot)
    ensures actual.None? ==> r == s
    ensures actual.Some? ==> r.isInPosition == actual.value
    ensures actual.Some? && actual.value != s.isInPosition ==>
              r == s.(isInPosition := actual.value, botState := WithFlag(s.botState, actual.value),
                      saves := s.saves + [WithFlag(s.botState, actual.value)])
    ensures actual.Some? && actual.value == s.isInPosition ==> r == s
    ensures Consistent(s) ==> Consistent(r)
  {
    match actual
    case None => s
    case Some(v) =>
      if v != s.isInPosition then
        var record := WithFlag(s.botState, v);
        s.(isInPosition := v, botState := record, saves := s.saves + [record])
      else s
  }

  /** Reconciling twice with the same broker answer is reconciling once. */
  lemma ReconcileIdempotent(s: Snapshot, actual: Option<bool>)
    ensures Reconcile(Reconcile(s, actual), actual) == Reconcile(s, actual)
  {
  }

  /** The bars a cycle got: none (fetch failed or empty), closes, or a frame without a close column. */
  datatype BarsFetch = FetchFailed | Fetched(closes: seq<real>) | MissingClose

  /**
   * What one loop iteration observes; `Fault` is an unexpected exception
   * caught by the loop's outer handler.
   */
  datatype Cycle =
    | Fault
    | Observed(bars: BarsFetch, orderAccepted: bool, close: CloseOutcome)

  function Rows(cfg: BotConfig, closes: seq<real>): seq<SmaRow>
    requires cfg.Valid()
  {
    WithMovingAverages(closes, cfg.shortWindow, cfg.longWindow)
  }

  /** The cycle is skipped as an error: every path that increments the counter and continues. */
  predicate Skipped(cfg: BotConfig, c: Cycle)
    requires cfg.Valid()
  {
    || c.Fault?
    || !c.bars.Fetched?
    || |c.bars.closes| < cfg.longWindow
    || var rows := Rows(cfg, c.bars.closes);
       rows[|rows| - 1].smaShort.None? || rows[|rows| - 1].smaLong.None?
  }

  /**
   * On exact closes the NaN check fires exactly when there are fewer closes
   * than the shorter window, so a cycle is skipped exactly on a fault, a
   * failed fetch, or too few closes for either window.
   */
  lemma SkippedExactly(cfg: BotConfig, c: Cycle)
    requires cfg.Valid()
    ensures Skipped(cfg, c) <==>
              c.Fault? || !c.bars.Fetched? || |c.bars.closes| < cfg.longWindow || |c.bars.closes| < cfg.shortWindow
  {
    if c.Observed? && c.bars.Fetched? {
      MovingAverageColumns(c.bars.closes, cfg.shortWindow, cfg.longWindow);
    }
  }

  /** The trading part of a cycle, exactly as in `state_bot.py` except for the safe close. */
  function Trade(cfg: BotConfig, s: Snapshot, c: Cycle): (r: Snapshot)
    requires cfg.Valid() && !Skipped(cfg, c)
    ensures r.consecutiveErrors == s.consecutiveErrors && r.pauses == s.pauses
    ensures Consistent(s) ==> Consistent(r)
  {
    var rows := Rows(cfg, c.bars.closes);
    if !s.isInPosition then
      if GoldenCross(rows) && c.orderAccepted then
        var record := WithFlag(s.botState, true);
        s.(isInPosition := true, botState := record, saves := s.saves + [record],
           requests := s.requests + [Market(cfg.symbol, cfg.quantity, Buy)])
      else s
    else if DeathCross(rows) && ClosePositionSafely(c.close) then
      var record := WithFlag(s.botState, false);
      s.(isInPosition := false, botState := record, saves := s.saves + [record],
         requests := s.requests + (if c.close.Closed? then [ClosePosition(cfg.symbol)] else []))
    else s
  }

  /** The circuit breaker: at `MAX_CONSECUTIVE_ERRORS` the bot pauses and resets the counter. */
  function Breaker(s: Snapshot): (r: Snapshot)
    ensures s.consecutiveErrors >= MAX_CONSECUTIVE_ERRORS ==> r == s.(consecutiveErrors := 0, pauses := s.pauses + 1)
    ensures s.consecutiveErrors < MAX_CONSECUTIVE_ERRORS ==> r == s
  {
    if s.consecutiveErrors >= MAX_CONSECUTIVE_ERRORS then s.(consecutiveErrors := 0, pauses := s.pauses + 1) else s
  }

  /**
   * One loop iteration as written: a skipped cycle increments the counter
   * and continues before the breaker; a completed cycle resets the counter
   * to 0 before trading, and only then reaches the breaker check.
   */
  function CycleAsWritten(cfg: BotConfig, s: Snapshot, c: Cycle): (r: Snapshot)
    requires cfg.Valid()
    ensures Skipped(cfg, c) ==> r == s.(consecutiveErrors := s.consecutiveErrors + 1)
    ensures !Skipped(cfg, c) ==> r.consecutiveErrors == 0 && r.pauses == s.pauses
    ensures Consistent(s) ==> Consistent(r)
  {
    if Skipped(cfg, c) then s.(consecutiveErrors := s.consecutiveErrors + 1)
    else Breaker(Trade(cfg, s.(consecutiveErrors := 0), c))
  }

  /** A run of cycles as written: the agreement is kept, and the counter grows by at most one per cycle. */
  function StepsAsWritten(cfg: BotConfig, s: Snapshot, cycles: seq<Cycle>): (r: Snapshot)
    requires cfg.Valid()
    ensures Consistent(s) ==> Consistent(r)
    ensures r.consecutiveErrors <= s.consecutiveErrors + |cycles|
    decreases |cycles|
  {
    if cycles == [] then s else CycleAsWritten(cfg, StepsAsWritten(cfg, s, cycles[..|cycles| - 1]), cycles[|cycles| - 1])
  }

  /** As written the breaker never fires, however many cycles fail. */
  lemma {:induction false} BreakerNeverFiresAsWritten(cfg: BotConfig, s: Snapshot, cycles: seq<Cycle>)
    requires cfg.Valid()
    ensures StepsAsWritten(cfg, s, cycles).pauses == s.pauses
    decreases |cycles|
  {
    if cycles != [] {
      BreakerNeverFiresAsWritten(cfg, s, cycles[..|cycles| - 1]);
    }
  }

  /** As written, a run of failed cycles only counts them: the counter grows by one per failure. */
  lemma {:induction false} FaultsOnlyCountAsWritten(cfg: BotConfig, s: Snapshot, cycles: seq<Cycle>)
    requires cfg.Valid()
    requires forall i :: 0 <= i < |cycles| ==> cycles[i] == Fault
    ensures StepsAsWritten(cfg, s, cycles) == s.(consecutiveErrors := s.consecutiveErrors + |cycles|)
    decreases |cycles|
  {
    if cycles != [] {
      FaultsOnlyCountAsWritten(cfg, s, cycles[..|cycles| - 1]);
    }
  }

  /** As written, five failed cycles in a row leave the counter at 5 and the bot running. */
  lemma FiveFailuresDoNotPauseAsWritten(cfg: BotConfig, s: Snapshot)
    requires cfg.Valid() && s.consecutiveErrors == 0
    ensures StepsAsWritten(cfg, s, [Fault, Fault, Fault, Fault, Fault]).consecutiveErrors == MAX_CONSECUTIVE_ERRORS
    ensures StepsAsWritten(cfg, s, [Fault, Fault, Fault, Fault, Fault]).pauses == s.pauses
  {
    FaultsOnlyCountAsWritten(cfg, s, [Fault, Fault, Fault, Fault, Fault]);
  }

  /** One loop iteration with the breaker checked where errors are counted. */
  function Iteration(cfg: BotConfig, s: Snapshot, c: Cycle): (r: Snapshot)
    requires cfg.Valid()
    ensures s.consecutiveErrors < MAX_CONSECUTIVE_ERRORS ==> r.consecutiveErrors < MAX_CONSECUTIVE_ERRORS
    ensures !Skipped(cfg, c) ==> r == Trade(cfg, s.(consecutiveErrors := 0), c)
    ensures Consistent(s) ==> Consistent(r)
  {
    if Skipped(cfg, c) then Breaker(s.(consecutiveErrors := s.consecutiveErrors + 1))
    else Trade(cfg, s.(consecutiveErrors := 0), c)
  }

  function Steps(cfg: BotConfig, s: Snapshot, cycles: seq<Cycle>): Snapshot
    requires cfg.Valid()
    decreases |cycles|
  {
    if cycles == [] then s else Iteration(cfg, Steps(cfg, s, cycles[..|cycles| - 1]), cycles[|cycles| - 1])
  }

  /** Corrected, five failed cycles in a row trip the breaker once and reset the counter. */
  lemma FiveFailuresPause(cfg: BotConfig, s: Snapshot)
    requires cfg.Valid() && s.consecutiveErrors == 0
    ensures Steps(cfg, s, [Fault, Fault, Fault, Fault, Fault]).consecutiveErrors == 0
    ensures Steps(cfg, s, [Fault, Fault, Fault, Fault, Fault]).pauses == s.pauses + 1
  {
    var fs := [Fault, Fault, Fault, Fault, Fault];
    var i := 0;
    while i < 4
      invariant i <= 4
      invariant Steps(cfg, s, fs[..i]) == s.(consecutiveErrors := i)
    {
      assert fs[..i + 1][..i] == fs[..i];
      i := i + 1;
    }
    assert fs[..5][..4] == fs[..4];
    assert fs[..5] == fs;
  }

  /** Corrected, the counter never reaches the maximum between cycles, over any run. */
  lemma {:induction false} CounterStaysBelowMax(cfg: BotConfig, s: Snapshot, cycles: seq<Cycle>)
    requires cfg.Valid() && s.consecutiveErrors < MAX_CONSECUTIVE_ERRORS
    ensures Steps(cfg, s, cycles).consecutiveErrors < MAX_CONSECUTIVE_ERRORS
    decreases |cycles|
  {
    if cycles != [] {
      CounterStaysBelowMax(cfg, s, cycles[..|cycles| - 1]);
    }
  }

  /** A completed cycle resets the counter; a skipped one trades nothing and saves nothing. */
  lemma SkippedCycleTradesNothing(cfg: BotConfig, s: Snapshot, c: Cycle)
    requires cfg.Valid()
    ensures Skipped(cfg, c) ==> Iteration(cfg, s, c).isInPosition == s.isInPosition
                                && Iteration(cfg, s, c).saves == s.saves && Iteration(cfg, s, c).requests == s.requests
    ensures !Skipped(cfg, c) ==> Iteration(cfg, s, c).consecutiveErrors == 0
  {
  }

  /** The flag becomes true only after a golden cross and an order that came back. */
  lemma EntryIsConfirmed(cfg: BotConfig, s: Snapshot, c: Cycle)
    requires cfg.Valid() && !s.isInPosition && Iteration(cfg, s, c).isInPosition
    ensures !Skipped(cfg, c) && GoldenCross(Rows(cfg, c.bars.closes)) && c.orderAccepted
    ensures Iteration(cfg, s, c).requests == s.requests + [Market(cfg.symbol, cfg.quantity, Buy)]
  {
  }

  /** The flag becomes false only after a death cross and a close that `close_position_safely` reports as done. */
  lemma ExitIsConfirmed(cfg: BotConfig, s: Snapshot, c: Cycle)
    requires cfg.Valid() && s.isInPosition && !Iteration(cfg, s, c).isInPosition
    ensures !Skipped(cfg, c) && DeathCross(Rows(cfg, c.bars.closes)) && ClosePositionSafely(c.close)
  {
  }

  /** Over any run the flag, the record and the last save agree. */
  lemma {:induction false} StepsStayConsistent(cfg: BotConfig, s: Snapshot, cycles: seq<Cycle>)
    requires cfg.Valid() && Consistent(s)
    ensures Consistent(Steps(cfg, s, cycles))
    decreases |cycles|
  {
    if cycles != [] {
      StepsStayConsistent(cfg, s, cycles[..|cycles| - 1]);
    }
  }

  class ResilientTrader {
    const cfg: BotConfig
    var isInPosition: bool
    var botState: FlagRecord
    var consecutiveErrors: nat
    var pauses: nat
    var saves: seq<FlagRecord>
    var requests: seq<Request>

    function Snap(): Snapshot
      reads this
    {
      Snapshot(isInPosition, botState, consecutiveErrors, pauses, saves, requests)
    }

    /** Start-up of `run_resilient_bot`: load the record, sync with the broker, reconcile. */
    constructor (config: BotConfig, file: StateFile, query: PositionQuery)
      requires config.Valid()
      ensures cfg == config
      ensures Snap() == Reconcile(Start(LoadState(file)), SynchronizeStateWithBroker(query))
    {
      cfg := config;
      botState := LoadState(file);
      isInPosition := Flag(LoadState(file));
      consecutiveErrors := 0;
      pauses := 0;
      saves := [];
      requests := [];
      new;
      var actual := SynchronizeStateWithBroker(query);
      if actual.Some? && actual.value != isInPosition {
        isInPosition := actual.value;
        botState := WithFlag(botState, isInPosition);
        saves := saves + [botState];
      }
    }

    /** One loop iteration, with the breaker checked on every error path. */
    method RunCycle(c: Cycle)
      requires cfg.Valid()
      modifies this
      ensures Snap() == Iteration(cfg, old(Snap()), c)
    {
      if Skipped(cfg, c) {
        consecutiveErrors := consecutiveErrors + 1;
        if consecutiveErrors >= MAX_CONSECUTIVE_ERRORS {
          pauses := pauses + 1;
          consecutiveErrors := 0;
        }
        return;
      }
      consecutiveErrors := 0;
      var rows := Rows(cfg, c.bars.closes);
      if !isInPosition {
        if GoldenCross(rows) && c.orderAccepted {
          requests := requests + [Market(cfg.symbol, cfg.quantity, Buy)];
          isInPosition := true;
          botState := WithFlag(botState, true);
          saves := saves + [botState];
        }
      } else if DeathCross(rows) {
        var closed := ClosePositionSafely(c.close);
        if closed {
          if c.close.Closed? {
            requests := requests + [ClosePosition(cfg.symbol)];
          }
          isInPosition := false;
          botState := WithFlag(botState, false);
          saves := saves + [botState];
        }
      }
    }

    method Run(cycles: seq<Cycle>)
      requires cfg.Valid()
      modifies this
      ensures Snap() == Steps(cfg, old(Snap()), cycles)
    {
      var i := 0;
      while i < |cycles|
        invariant 0 <= i <= |cycles|
        invariant Snap() == Steps(cfg, old(Snap()), cycles[..i])
      {
        RunCycle(cycles[i]);
        assert cycles[..i + 1][..i] == cycles[..i];
        i := i + 1;
      }
      assert cycles[..i] == cycles;
    }
  }
}
