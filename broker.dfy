// The broker as the bots see it: the requests they send and the outcomes of
// the queries they make. Every call into the broker's SDK is an input of the
// model; what the bots send is recorded as a `Request`.

module Broker {
  import opened Wrappers

  datatype Side = Buy | Sell

  function Opposite(side: Side): Side {
    if side == Buy then Sell else Buy
  }

  /** The change a fill of `qty` on `side` makes to the held quantity. */
  function Signed(side: Side, qty: real): real {
    if side == Buy then qty else -qty
  }

  /** What a bot sends to the broker. */
  datatype Request =
    | Market(symbol: string, qty: real, side: Side)
    | Bracket(symbol: string, qty: real, side: Side, takeProfit: real, stopLoss: real)
    | Stop(symbol: string, qty: real, side: Side, stopPrice: real)
    | TrailingStop(symbol: string, qty: real, side: Side, trailPercent: real)
    | ClosePosition(symbol: string)
    | ReplaceStop(orderId: string, stopPrice: real)
    | Cancel(orderId: string)

  datatype ErrorKind = Timeout | ConnectionFailure | OtherFailure

  /** An exception raised by an SDK call: its class and its text. */
  datatype ApiError = ApiError(kind: ErrorKind, message: string)

  /** The outcome of `get_open_position(symbol)`: the open quantity, or the exception raised. */
  datatype PositionQuery = Open(qty: real) | Raised(error: ApiError)

  /** One entry of `get_all_positions()`. */
  datatype Position = Position(symbol: string, qty: real)

  /**
   * `int(position.qty)`: the SDK reports quantities as decimal strings, and
   * `int` accepts only a whole number; a fractional quantity raises.
   */
  function WholeQty(qty: real): (n: Option<int>)
    ensures n.Some? <==> qty.Floor as real == qty
    ensures n.Some? ==> n.value as real == qty
  {
    if qty.Floor as real == qty then Some(qty.Floor) else None
  }

  function LowerChar(c: char): char {
    if 'A' <= c <= 'Z' then (c as int + 32) as char else c
  }

  /** `s.lower()`, for the ASCII letters that the broker's messages use. */
  function Lower(s: string): (r: string)
    ensures |r| == |s|
    ensures forall i :: 0 <= i < |s| ==> r[i] == LowerChar(s[i])
  {
    if s == [] then [] else [LowerChar(s[0])] + Lower(s[1..])
  }

  /** Python's `t in s` on strings. */
  predicate HasSubstring(s: string, t: string)
    decreases |s|
  {
    |t| <= |s| && (s[..|t|] == t || HasSubstring(s[1..], t))
  }

  lemma {:induction false} HasSubstringAt(s: string, t: string, i: nat)
    requires i + |t| <= |s| && s[i..i + |t|] == t
    ensures HasSubstring(s, t)
    decreases i
  {
    if i > 0 {
      assert s[1..][i - 1..i - 1 + |t|] == s[i..i + |t|];
      HasSubstringAt(s[1..], t, i - 1);
    }
  }

  /** The text test both resilient helpers use to recognise "there is no such position". */
  predicate SaysNoPosition(error: ApiError) {
    var text := Lower(error.message);
    HasSubstring(text, "position does not exist") || HasSubstring(text, "not found")
  }
}
