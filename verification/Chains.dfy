/** Lists of ids linked through the slots themselves: an index is an id plus one, with zero
    for the end. */
module Chains {

  /** The index of place `i` in a list. */
  function At(list: seq<nat>, i: nat): nat {
    if i < |list| then list[i] + 1 else 0
  }

  function Tail(list: seq<nat>): seq<nat> {
    if list == [] then [] else list[1..]
  }

  function Reversed(list: seq<nat>): (r: seq<nat>)
    ensures |r| == |list|
  {
    if list == [] then [] else Reversed(list[1..]) + [list[0]]
  }

  ghost predicate NoDup(list: seq<nat>) {
    forall i, j :: 0 <= i < j < |list| ==> list[i] != list[j]
  }
}
