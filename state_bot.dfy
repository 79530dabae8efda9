// AlpacaTutorial/Alpaca22/state_bot.py: a golden/death-cross bot that keeps
// its `is_in_position` flag in a state file, reconciles it with the broker at
// start-up, and changes it only after a confirmed order or close.

module StateBot {
  import opened Wrappers
  import opened Broker
  import opened Signals
  import opened PositionFlag

  /**
   * `load_state`: a missing file or invalid JSON gives the default record;
   * any other error propagates (`None`) and the bot does not start.
   */
  function LoadState(file: StateFile): (r: Option<FlagRecord>)
    ensures file.FileMissing? || file.InvalidJson? ==> r == Some(DEFAULT_RECORD) && !Flag(r.value)
    ensures file.ReadFailed? ==> r.None?
    ensures file.Parsed? ==> r == Some(file.record)
  {
    match file
    case Parsed(record) => Some(record)
    case ReadFailed => None
    case _ => Some(DEFAULT_RECORD)
  }

  /** `synchronize_state_with_broker`: any exception from the position query means "not in position". */
  function SynchronizeStateWithBroker(query: PositionQuery): (inPosition: bool)
    ensures inPosition <==> query.Open?
  {
    query.Open?
  }

  /** The bot's variables, what it saved, and the requests the broker accepted. */
  datatype Snapshot = Snapshot(isInPosition: bool, botState: FlagRecord, saves: seq<FlagRecord>, requests: seq<Request>)

  /** The flag agrees with the record, and the last record saved is the current one. */
  predicate Consistent(s: Snapshot) {
    Flag(s.botState) == s.isInPosition && (s.saves != [] ==> s.saves[|s.saves| - 1] == s.botState)
  }

  /** The variables right after loading `record`: `is_in_position = bot_state.get(...)`. */
  function Start(record: FlagRecord): (s: Snapshot)
    ensures s.botState == record && s.isInPosition == Flag(record)
    ensures Consistent(s) && s.saves == [] && s.requests == []
  {
    Snapshot(Flag(record), record, [], [])
  }

  /** Start-up reconciliation: the broker wins; the record is saved only on a mismatch. */
  function Reconcile(s: Snapshot, actual: bool): (r: Snapshot)
    ensures r.isInPosition == actual
    ensures actual != s.isInPosition ==> r.saves == s.saves + [r.botState] && Flag(r.botState) == actual
    ensures actual == s.isInPosition ==> r == s
    ensures r.requests == s.requests
    ensures Consistent(s) ==> Consistent(r)
  {
    if actual != s.isInPosition then
      var record := WithFlag(s.botState, actual);
      Snapshot(actual, record, s.saves + [record], s.requests)
    else s
  }

  /** Reconciling a second time with the same broker answer changes nothing. */
  lemma ReconcileIdempotent(s: Snapshot, actual: bool)
    ensures Reconcile(Reconcile(s, actual), actual) == Reconcile(s, actual)
  {
  }

  /**
   * What one loop iteration observes: the bars (`None` when the fetch
   * raised), whether `submit_order` returned an order, and whether
   * `close_position` raised.
   */
  datatype Cycle = Cycle(bars: Option<seq<real>>, orderAccepted: bool, closeRaised: bool)

  /** Signals are evaluated only with at least `longWindow` bars. */
  predicate Evaluated(cfg: BotConfig, c: Cycle) {
    c.bars.Some? && |c.bars.value| >= cfg.longWindow
  }

  function Rows(cfg: BotConfig, c: Cycle): seq<SmaRow>
    requires cfg.Valid() && Evaluated(cfg, c)
  {
    WithMovingAverages(c.bars.value, cfg.shortWindow, cfg.longWindow)
  }

  function Entered(cfg: BotConfig, s: Snapshot): Snapshot {
    var record := WithFlag(s.botState, true);
    Snapshot(true, record, s.saves + [record], s.requests + [Market(cfg.symbol, cfg.quantity, Buy)])
  }

  function Exited(cfg: BotConfig, s: Snapshot): Snapshot {
    var record := WithFlag(s.botState, false);
    Snapshot(false, record, s.saves + [record], s.requests + [ClosePosition(cfg.symbol)])
  }

  /** One iteration of the `while True` loop of `run_state_managed_bot`. */
  function Step(cfg: BotConfig, s: Snapshot, c: Cycle): (r: Snapshot)
    requires cfg.Valid()
    ensures Consistent(s) ==> Consistent(r)
  {
    if !Evaluated(cfg, c) then s
    else if !s.isInPosition then
      if GoldenCross(Rows(cfg, c)) && c.orderAccepted then Entered(cfg, s) else s
    else
      if DeathCross(Rows(cfg, c)) && !c.closeRaised then Exited(cfg, s) else s
  }

  /** Without bars, or with fewer than `longWindow`, an iteration changes nothing. */
  lemma NoSignalWithoutEnoughBars(cfg: BotConfig, s: Snapshot, c: Cycle)
    requires cfg.Valid() && !Evaluated(cfg, c)
    ensures Step(cfg, s, c) == s
  {
  }

  /** The flag becomes true only after a golden cross and an accepted buy order. */
  lemma EntryIsConfirmed(cfg: BotConfig, s: Snapshot, c: Cycle)
    requires cfg.Valid() && !s.isInPosition && Step(cfg, s, c).isInPosition
    ensures Evaluated(cfg, c) && GoldenCross(Rows(cfg, c)) && c.orderAccepted
    ensures Step(cfg, s, c).requests == s.requests + [Market(cfg.symbol, cfg.quantity, Buy)]
  {
  }

  /** The flag becomes false only after a death cross and a `close_position` that did not raise. */
  lemma ExitIsConfirmed(cfg: BotConfig, s: Snapshot, c: Cycle)
    requires cfg.Valid() && s.isInPosition && !Step(cfg, s, c).isInPosition
    ensures Evaluated(cfg, c) && DeathCross(Rows(cfg, c)) && !c.closeRaised
    ensures Step(cfg, s, c).requests == s.requests + [ClosePosition(cfg.symbol)]
  {
  }

  /** Entry is looked for only when flat and exit only when in position. */
  lemma SignalsFollowThePosition(cfg: BotConfig, s: Snapshot, c: Cycle)
    requires cfg.Valid()
    ensures s.isInPosition ==> Step(cfg, s, c).isInPosition || Step(cfg, s, c) == Exited(cfg, s)
    ensures !s.isInPosition ==> !Step(cfg, s, c).isInPosition || Step(cfg, s, c) == Entered(cfg, s)
    ensures Step(cfg, s, c) == s || Step(cfg, s, c).isInPosition != s.isInPosition
  {
  }

  /** A sequence of loop iterations. */
  function Steps(cfg: BotConfig, s: Snapshot, cycles: seq<Cycle>): Snapshot
    requires cfg.Valid()
    decreases |cycles|
  {
    if cycles == [] then s else Step(cfg, Steps(cfg, s, cycles[..|cycles| - 1]), cycles[|cycles| - 1])
  }

  /** However many iterations run, the flag, the record and the last save agree. */
  lemma {:induction false} StepsStayConsistent(cfg: BotConfig, s: Snapshot, cycles: seq<Cycle>)
    requires cfg.Valid() && Consistent(s)
    ensures Consistent(Steps(cfg, s, cycles))
    decreases |cycles|
  {
    if cycles != [] {
      StepsStayConsistent(cfg, s, cycles[..|cycles| - 1]);
    }
  }

  /**
   * After start-up and any number of iterations, a restart that reads back
   * the last saved record resumes with the flag the bot had.
   */
  lemma RestartResumesFlag(cfg: BotConfig, record: FlagRecord, query: PositionQuery, cycles: seq<Cycle>)
    requires cfg.Valid()
    ensures var s := Steps(cfg, Reconcile(Start(record), SynchronizeStateWithBroker(query)), cycles);
            s.saves != [] ==> Flag(LoadState(Parsed(s.saves[|s.saves| - 1])).value) == s.isInPosition
  {
    StepsStayConsistent(cfg, Reconcile(Start(record), SynchronizeStateWithBroker(query)), cycles);
  }

  class StateManagedBot {
    const cfg: BotConfig
    var isInPosition: bool
    var botState: FlagRecord
    var saves: seq<FlagRecord>
    var requests: seq<Request>

    function Snap(): Snapshot
      reads this
    {
      Snapshot(isInPosition, botState, saves, requests)
    }

    /** Steps 1 and 2 of `run_state_managed_bot`: load the record, then reconcile with the broker. */
    constructor (config: BotConfig, record: FlagRecord, query: PositionQuery)
      requires config.Valid()
      ensures cfg == config
      ensures Snap() == Reconcile(Start(record), SynchronizeStateWithBroker(query))
    {
      cfg := config;
      botState := record;
      isInPosition := Flag(record);
      saves := [];
      requests := [];
      new;
      var actual := SynchronizeStateWithBroker(query);
      if actual != isInPosition {
        isInPosition := actual;
        botState := WithFlag(botState, isInPosition);
        saves := saves + [botState];
      }
    }

    /** One iteration of the loop. */
    method RunCycle(c: Cycle)
      requires cfg.Valid()
      modifies this
      ensures Snap() == Step(cfg, old(Snap()), c)
    {
      if c.bars.None? || |c.bars.value| < cfg.longWindow {
        return;
      }
      var rows := WithMovingAverages(c.bars.value, cfg.shortWindow, cfg.longWindow);
      if !isInPosition {
        if GoldenCross(rows) && c.orderAccepted {
          requests := requests + [Market(cfg.symbol, cfg.quantity, Buy)];
          isInPosition := true;
          botState := WithFlag(botState, true);
          saves := saves + [botState];
        }
      } else {
        if DeathCross(rows) && !c.closeRaised {
          requests := requests + [ClosePosition(cfg.symbol)];
          isInPosition := false;
          botState := WithFlag(botState, false);
          saves := saves + [botState];
        }
      }
    }

    /** The polling loop over a finite sequence of iterations. */
    method Run(cycles: seq<Cycle>)
      requires cfg.Valid()
      modifies this
      ensures Snap() == Steps(cfg, old(Snap()), cycles)
    {
      var i := 0;
      while i < |cycles|
        invariant 0 <= i <= |cycles|
        invariant Snap() == Steps(cfg, old(Snap()), cycles[..i])
      {
        RunCycle(cycles[i]);
        assert cycles[..i + 1][..i] == cycles[..i];
        i := i + 1;
      }
      assert cycles[..i] == cycles;
    }
  }
}
