// The persisted record of the single-position bots: a JSON object whose
// `is_in_position` entry says whether the bot believes it holds its symbol.

module PositionFlag {
  import opened Wrappers

  /** The persisted object; `None` is a missing `is_in_position` entry. */
  datatype FlagRecord = FlagRecord(isInPosition: Option<bool>)

  /** `{'is_in_position': False}` */
  const DEFAULT_RECORD := FlagRecord(Some(false))

  /** `state.get('is_in_position', False)` */
  function Flag(r: FlagRecord): bool {
    r.isInPosition == Some(true)
  }

  /** `state['is_in_position'] = b` */
  function WithFlag(r: FlagRecord, b: bool): (w: FlagRecord)
    ensures Flag(w) == b
  {
    r.(isInPosition := Some(b))
  }

  /** What opening and parsing the state file gave. */
  datatype StateFile =
    | FileMissing            // FileNotFoundError
    | InvalidJson            // json.JSONDecodeError
    | ReadFailed             // any other exception, e.g. PermissionError
    | Parsed(record: FlagRecord)

  /** The strategy values a single-position bot reads from config.json. */
  datatype BotConfig = BotConfig(symbol: string, quantity: real, shortWindow: nat, longWindow: nat)
  {
    /** pandas needs positive rolling windows. */
    predicate Valid() {
      shortWindow >= 1 && longWindow >= 1
    }
  }
}
