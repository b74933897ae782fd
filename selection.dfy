/** The selected row of a list view (`selectedPattern`, `selectedPlayer`): it starts
    at 0 and each click on the row rendered at index `i` of `items.map` sets it to `i`. */
module Selection {

  /** The selection after the given clicks, processed in order from `current`. */
  function AfterClicks(current: nat, clicks: seq<nat>, count: nat): (r: nat)
    requires current < count
    requires forall i :: 0 <= i < |clicks| ==> clicks[i] < count
    ensures r < count
    ensures clicks == [] ==> r == current
    ensures clicks != [] ==> r == clicks[|clicks| - 1]
    decreases |clicks|
  {
    if clicks == [] then current else AfterClicks(clicks[0], clicks[1..], count)
  }
}
