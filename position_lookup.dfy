// `check_position_exists` / `check_existing_position` of the bots that list
// all positions and search for their symbol (Alpaca14/trailing_stop_bot.py,
// Alpaca22/config_bot.py).

module PositionLookup {
  import opened Wrappers
  import opened Broker

  /** The first position held in `symbol`, scanning the list from the front. */
  function FirstMatch(positions: seq<Position>, symbol: string): (r: Option<Position>)
    ensures r.None? <==> forall i :: 0 <= i < |positions| ==> positions[i].symbol != symbol
    ensures r.Some? ==> r.value in positions && r.value.symbol == symbol
    decreases |positions|
  {
    if positions == [] then None
    else if positions[0].symbol == symbol then Some(positions[0])
    else
      var rest := FirstMatch(positions[1..], symbol);
      assert forall i :: 1 <= i < |positions| ==> positions[i] == positions[1..][i - 1];
      rest
  }

  /** A position that comes before every other match is the one found. */
  lemma {:induction false} FirstMatchIsFirst(positions: seq<Position>, symbol: string, k: nat)
    requires k < |positions| && positions[k].symbol == symbol
    requires forall j :: 0 <= j < k ==> positions[j].symbol != symbol
    ensures FirstMatch(positions, symbol) == Some(positions[k])
    decreases k
  {
    if k > 0 {
      FirstMatchIsFirst(positions[1..], symbol, k - 1);
    }
  }

  /**
   * The lookup itself: `None` when listing the positions raised, otherwise
   * the first position in `symbol`, found by a loop that stops at the first match.
   */
  method CheckExistingPosition(listing: Option<seq<Position>>, symbol: string) returns (found: Option<Position>)
    ensures listing.None? ==> found.None?
    ensures listing.Some? ==> found == FirstMatch(listing.value, symbol)
  {
    if listing.None? {
      return None;
    }
    var positions := listing.value;
    var i := 0;
    while i < |positions|
      invariant 0 <= i <= |positions|
      invariant forall j :: 0 <= j < i ==> positions[j].symbol != symbol
    {
      if positions[i].symbol == symbol {
        FirstMatchIsFirst(positions, symbol, i);
        return Some(positions[i]);
      }
      i := i + 1;
    }
    return None;
  }
}
